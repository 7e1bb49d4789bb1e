// A stream of values, written in one go and read back in groups: a stream may end after
// any group.
module SettingsStream {
  import opened Options

  datatype Token = Int(n: int) | Text(s: string) | Wide(id: int) | Bytes(b: seq<int>)

  // What was read: numbers by their place, absent when the stream ended before them.
  datatype Raw = Raw(slots: seq<Option<int>>, sounds: map<string, string>, hidden: set<int>, autoDownload: seq<int>)

  const SLOTS: nat := 22
  const NOTHING := Raw([None, None, None, None, None, None, None, None, None, None, None,
                       None, None, None, None, None, None, None, None, None, None, None], map[], {}, [])

  // What is read together; the stream may end before any group but the first.
  datatype Group = Ints(from: nat, count: nat) | Sounds | Hidden | Blob

  const GROUPS: nat := 17

  function GroupAt(k: nat): (g: Group)
    requires k < GROUPS
    ensures g.Ints? ==> g.from + g.count <= SLOTS
  {
    match k
    case 0 => Ints(0, 2)     // selectorTab, lastSeenWarningSeen
    case 1 => Ints(2, 1)     // tabbedEnabled
    case 2 => Sounds
    case 3 => Ints(3, 1)     // tooltipShown
    case 4 => Ints(4, 2)     // column, corner
    case 5 => Hidden
    case 6 => Ints(6, 2)     // infoEnabled, smallDialogsList
    case 7 => Ints(8, 3)     // ratio, thirdColumnWidth, thirdExtendedBy
    case 8 => Ints(11, 1)    // sendFilesWay
    case 9 => Ints(12, 1)    // a value of older versions
    case 10 => Ints(13, 3)   // sendSubmitWay, supportSwitch, fixChatsOrder
    case 11 => Ints(16, 1)   // templatesAutocomplete
    case 12 => Ints(17, 1)   // chatsTimeSlice
    case 13 => Ints(18, 2)   // includeMuted, countUnread
    case 14 => Ints(20, 1)   // exeLaunchWarning
    case 15 => Blob          // autoDownload
    case 16 => Ints(21, 1)   // allSearchResults
  }

  // ---- Reading -----------------------------------------------------------------------------

  datatype Input = Input(raw: Raw, rest: seq<Token>, ok: bool)

  function ReadInts(p: Input, from: nat, count: nat): (q: Input)
    requires |p.raw.slots| == SLOTS && from + count <= SLOTS
    ensures |q.raw.slots| == SLOTS
    decreases count
  {
    if count == 0 then p
    else if p.rest == [] || !p.rest[0].Int? then p.(ok := false)
    else
      ReadInts(p.(raw := p.raw.(slots := p.raw.slots[from := Some(p.rest[0].n)]), rest := p.rest[1..]),
               from + 1, count - 1)
  }

  function ReadPairs(p: Input, count: int): (q: Input)
    ensures q.raw.slots == p.raw.slots
    decreases |p.rest|
  {
    if count == 0 then p
    else if count < 0 || |p.rest| < 2 || !p.rest[0].Text? || !p.rest[1].Text? then p.(ok := false)
    else
      ReadPairs(p.(raw := p.raw.(sounds := p.raw.sounds[p.rest[0].s := p.rest[1].s]), rest := p.rest[2..]), count - 1)
  }

  function ReadIds(p: Input, count: int): (q: Input)
    ensures q.raw.slots == p.raw.slots
    decreases |p.rest|
  {
    if count == 0 then p
    else if count < 0 || p.rest == [] || !p.rest[0].Wide? then p.(ok := false)
    else ReadIds(p.(raw := p.raw.(hidden := p.raw.hidden + {p.rest[0].id}), rest := p.rest[1..]), count - 1)
  }

  function Read(p: Input, g: Group): (q: Input)
    requires |p.raw.slots| == SLOTS && (g.Ints? ==> g.from + g.count <= SLOTS)
    ensures |q.raw.slots| == SLOTS
  {
    match g
    case Ints(from, count) => ReadInts(p, from, count)
    case Sounds =>
      if p.rest == [] || !p.rest[0].Int? then p.(ok := false)
      else ReadPairs(p.(rest := p.rest[1..]), p.rest[0].n)
    case Hidden =>
      if p.rest == [] || !p.rest[0].Int? then p.(ok := false)
      else ReadIds(p.(rest := p.rest[1..]), p.rest[0].n)
    case Blob =>
      if p.rest == [] || !p.rest[0].Bytes? then p.(ok := false)
      else p.(raw := p.raw.(autoDownload := p.rest[0].b), rest := p.rest[1..])
  }

  // Once a read failed nothing more matters; at the end of the stream groups are left out.
  function Step(p: Input, k: nat): (q: Input)
    requires |p.raw.slots| == SLOTS && k < GROUPS
    ensures |q.raw.slots| == SLOTS
  {
    if !p.ok || (k > 0 && p.rest == []) then p else Read(p, GroupAt(k))
  }

  function ReadUpTo(p: Input, k: nat): (q: Input)
    requires |p.raw.slots| == SLOTS && k <= GROUPS
    ensures |q.raw.slots| == SLOTS
  {
    if k == 0 then p else Step(ReadUpTo(p, k - 1), k - 1)
  }

  function Slot(r: Raw, i: nat, missing: int): int
    requires |r.slots| == SLOTS && i < SLOTS
  {
    if r.slots[i].Some? then r.slots[i].value else missing
  }

  // ---- Writing ---------------------------------------------------------------------------------

  // The order in which a map or a set is gone through.
  ghost predicate Enumerates<T(!new)>(order: seq<T>, all: set<T>) {
    (forall i, j :: 0 <= i < j < |order| ==> order[i] != order[j]) && forall x :: x in order <==> x in all
  }

  function Pairs(keys: seq<string>, sounds: map<string, string>): seq<Token>
    requires forall i :: 0 <= i < |keys| ==> keys[i] in sounds
  {
    if keys == [] then [] else [Text(keys[0]), Text(sounds[keys[0]])] + Pairs(keys[1..], sounds)
  }

  function Ids(peers: seq<int>): seq<Token> {
    if peers == [] then [] else [Wide(peers[0])] + Ids(peers[1..])
  }

  function Numbers(r: Raw, from: nat, count: nat): seq<Token>
    requires |r.slots| == SLOTS && from + count <= SLOTS
    decreases count
  {
    if count == 0 then [] else [Int(Slot(r, from, 0))] + Numbers(r, from + 1, count - 1)
  }

  function Written(r: Raw, g: Group, keys: seq<string>, peers: seq<int>): seq<Token>
    requires |r.slots| == SLOTS && (g.Ints? ==> g.from + g.count <= SLOTS)
    requires forall i :: 0 <= i < |keys| ==> keys[i] in r.sounds
  {
    match g
    case Ints(from, count) => Numbers(r, from, count)
    case Sounds => [Int(|keys|)] + Pairs(keys, r.sounds)
    case Hidden => [Int(|peers|)] + Ids(peers)
    case Blob => [Bytes(r.autoDownload)]
  }

  // What each of the first `n` groups is written as.
  function PartsUpTo(r: Raw, n: nat, keys: seq<string>, peers: seq<int>): (ps: seq<seq<Token>>)
    requires |r.slots| == SLOTS && n <= GROUPS && forall i :: 0 <= i < |keys| ==> keys[i] in r.sounds
    ensures |ps| == n && forall k {:trigger ps[k]} :: 0 <= k < n ==> ps[k] == Written(r, GroupAt(k), keys, peers)
  {
    if n == 0 then [] else PartsUpTo(r, n - 1, keys, peers) + [Written(r, GroupAt(n - 1), keys, peers)]
  }

  function Parts(r: Raw, keys: seq<string>, peers: seq<int>): (ps: seq<seq<Token>>)
    requires |r.slots| == SLOTS && forall i :: 0 <= i < |keys| ==> keys[i] in r.sounds
    ensures |ps| == GROUPS
  {
    PartsUpTo(r, GROUPS, keys, peers)
  }

  lemma PartAt(r: Raw, k: nat, keys: seq<string>, peers: seq<int>)
    requires |r.slots| == SLOTS && k < GROUPS && forall i :: 0 <= i < |keys| ==> keys[i] in r.sounds
    ensures Parts(r, keys, peers)[k] == Written(r, GroupAt(k), keys, peers)
  {
  }

  function Concat(ps: seq<seq<Token>>, i: nat, k: nat): seq<Token>
    requires i <= k <= |ps|
    decreases k - i
  {
    if i == k then [] else ps[i] + Concat(ps, i + 1, k)
  }

  lemma {:induction false} ConcatEnd(ps: seq<seq<Token>>, i: nat, k: nat)
    requires i <= k < |ps|
    ensures Concat(ps, i, k + 1) == Concat(ps, i, k) + ps[k]
    decreases k - i
  {
    if i < k {
      ConcatEnd(ps, i + 1, k);
      JoinRight(ps[i], Concat(ps, i + 1, k), ps[k]);
    }
  }

  lemma JoinRight(a: seq<Token>, b: seq<Token>, c: seq<Token>)
    ensures a + (b + c) == (a + b) + c
  {
  }

  // The groups from `i` to `k`.
  function WrittenRange(r: Raw, i: nat, k: nat, keys: seq<string>, peers: seq<int>): seq<Token>
    requires i <= k <= GROUPS && |r.slots| == SLOTS
    requires forall i :: 0 <= i < |keys| ==> keys[i] in r.sounds
  {
    Concat(Parts(r, keys, peers), i, k)
  }

  // ---- Reading what was written ---------------------------------------------------------------

  function Taken(keys: seq<string>, sounds: map<string, string>): map<string, string>
    requires forall i :: 0 <= i < |keys| ==> keys[i] in sounds
  {
    map k | k in keys && k in sounds :: sounds[k]
  }

  lemma TakenMore(before: map<string, string>, keys: seq<string>, sounds: map<string, string>)
    requires keys != [] && forall i :: 0 <= i < |keys| ==> keys[i] in sounds
    ensures before[keys[0] := sounds[keys[0]]] + Taken(keys[1..], sounds) == before + Taken(keys, sounds)
  {
    assert keys == [keys[0]] + keys[1..];
  }

  lemma {:induction false} PairsBack(p: Input, keys: seq<string>, sounds: map<string, string>, rest: seq<Token>)
    requires (forall i :: 0 <= i < |keys| ==> keys[i] in sounds) && p.rest == Pairs(keys, sounds) + rest
    ensures ReadPairs(p, |keys|)
         == p.(raw := p.raw.(sounds := p.raw.sounds + Taken(keys, sounds)), rest := rest)
    decreases |keys|
  {
    if keys == [] {
      assert p.raw.sounds + Taken(keys, sounds) == p.raw.sounds;
      assert p.rest == rest;
    } else {
      var k, more := keys[0], Pairs(keys[1..], sounds);
      assert p.rest[0] == Text(k) && p.rest[1] == Text(sounds[k]) && p.rest[2..] == more + rest;
      var q := p.(raw := p.raw.(sounds := p.raw.sounds[k := sounds[k]]), rest := p.rest[2..]);
      PairsBack(q, keys[1..], sounds, rest);
      TakenMore(p.raw.sounds, keys, sounds);
    }
  }

  function Members(peers: seq<int>): set<int> {
    set x | x in peers
  }

  lemma {:induction false} IdsBack(p: Input, peers: seq<int>, rest: seq<Token>)
    requires p.rest == Ids(peers) + rest
    ensures ReadIds(p, |peers|) == p.(raw := p.raw.(hidden := p.raw.hidden + Members(peers)), rest := rest)
    decreases |peers|
  {
    if peers == [] {
      assert p.raw.hidden + Members(peers) == p.raw.hidden;
      assert p.rest == rest;
    } else {
      var x, more := peers[0], Ids(peers[1..]);
      assert p.rest[0] == Wide(x) && p.rest[1..] == more + rest;
      var q := p.(raw := p.raw.(hidden := p.raw.hidden + {x}), rest := p.rest[1..]);
      IdsBack(q, peers[1..], rest);
      assert peers == [x] + peers[1..];
      assert q.raw.hidden + Members(peers[1..]) == p.raw.hidden + Members(peers);
    }
  }

  // `to`, with the numbers of one group from `r`.
  function PutSlots(to: seq<Option<int>>, r: seq<Option<int>>, from: nat, count: nat): (s: seq<Option<int>>)
    requires |to| == |r| == SLOTS && from + count <= SLOTS
    ensures |s| == SLOTS
  {
    seq(SLOTS, j requires 0 <= j < SLOTS => if from <= j < from + count then r[j] else to[j])
  }

  lemma {:induction false} NumbersBack(p: Input, r: Raw, from: nat, count: nat, rest: seq<Token>)
    requires |p.raw.slots| == |r.slots| == SLOTS && from + count <= SLOTS
    requires forall i :: 0 <= i < SLOTS ==> r.slots[i].Some?
    requires p.rest == Numbers(r, from, count) + rest
    ensures ReadInts(p, from, count)
         == p.(raw := p.raw.(slots := PutSlots(p.raw.slots, r.slots, from, count)), rest := rest)
    decreases count
  {
    if count == 0 {
      assert PutSlots(p.raw.slots, r.slots, from, count) == p.raw.slots;
      assert p.rest == rest;
    } else {
      var n, more := Slot(r, from, 0), Numbers(r, from + 1, count - 1);
      assert p.rest[0] == Int(n) && p.rest[1..] == more + rest;
      var q := p.(raw := p.raw.(slots := p.raw.slots[from := Some(n)]), rest := p.rest[1..]);
      NumbersBack(q, r, from + 1, count - 1, rest);
      assert PutSlots(q.raw.slots, r.slots, from + 1, count - 1) == PutSlots(p.raw.slots, r.slots, from, count);
    }
  }

  function Put(to: Raw, r: Raw, g: Group): (q: Raw)
    requires |to.slots| == |r.slots| == SLOTS && (g.Ints? ==> g.from + g.count <= SLOTS)
    ensures |q.slots| == SLOTS
  {
    match g
    case Ints(from, count) => to.(slots := PutSlots(to.slots, r.slots, from, count))
    case Sounds => to.(sounds := r.sounds)
    case Hidden => to.(hidden := r.hidden)
    case Blob => to.(autoDownload := r.autoDownload)
  }

  // What a stream of the first `k` groups holds.
  function Cut(r: Raw, k: nat): (q: Raw)
    requires |r.slots| == SLOTS && k <= GROUPS
    ensures |q.slots| == SLOTS
  {
    if k == 0 then NOTHING else Put(Cut(r, k - 1), r, GroupAt(k - 1))
  }

  ghost predicate Listed(r: Raw, keys: seq<string>, peers: seq<int>) {
    && |r.slots| == SLOTS && (forall i :: 0 <= i < SLOTS ==> r.slots[i].Some?)
    && Enumerates(keys, r.sounds.Keys) && Enumerates(peers, r.hidden)
    && (forall i :: 0 <= i < |keys| ==> keys[i] in r.sounds)
  }

  // One group read back. The map and the set are empty before their groups.
  lemma GroupBack(p: Input, r: Raw, g: Group, keys: seq<string>, peers: seq<int>, rest: seq<Token>)
    requires Listed(r, keys, peers) && |p.raw.slots| == SLOTS && (g.Ints? ==> g.from + g.count <= SLOTS)
    requires (g == Sounds ==> p.raw.sounds == map[]) && (g == Hidden ==> p.raw.hidden == {})
    requires p.rest == Written(r, g, keys, peers) + rest
    ensures Read(p, g) == p.(raw := Put(p.raw, r, g), rest := rest)
  {
    match g
    case Ints(from, count) => NumbersBack(p, r, from, count, rest);
    case Sounds =>
      assert p.rest[1..] == Pairs(keys, r.sounds) + rest;
      PairsBack(p.(rest := p.rest[1..]), keys, r.sounds, rest);
      AllTaken(keys, r.sounds);
    case Hidden =>
      assert p.rest[1..] == Ids(peers) + rest;
      IdsBack(p.(rest := p.rest[1..]), peers, rest);
      assert p.raw.hidden + Members(peers) == r.hidden;
    case Blob => assert p.rest[1..] == rest;
  }

  lemma AllTaken(keys: seq<string>, sounds: map<string, string>)
    requires Enumerates(keys, sounds.Keys) && forall i :: 0 <= i < |keys| ==> keys[i] in sounds
    ensures map[] + Taken(keys, sounds) == sounds
  {
    forall k ensures k in Taken(keys, sounds) <==> k in sounds {
      assert k in keys <==> k in sounds.Keys;
    }
  }

  lemma {:induction false} CutSounds(r: Raw, k: nat)
    requires |r.slots| == SLOTS && k <= GROUPS
    ensures Cut(r, k).sounds == if k <= 2 then map[] else r.sounds
    ensures Cut(r, k).hidden == if k <= 5 then {} else r.hidden
    ensures Cut(r, k).autoDownload == if k <= 15 then [] else r.autoDownload
  {
    if k > 0 { CutSounds(r, k - 1); }
  }

  lemma WrittenSome(r: Raw, i: nat, k: nat, keys: seq<string>, peers: seq<int>)
    requires i < k <= GROUPS && Listed(r, keys, peers)
    ensures WrittenRange(r, i, k, keys, peers)
            == Written(r, GroupAt(i), keys, peers) + WrittenRange(r, i + 1, k, keys, peers)
    ensures WrittenRange(r, i, k, keys, peers) != []
  {
    PartAt(r, i, keys, peers);
  }

  lemma StepBack(r: Raw, m: nat, n: nat, keys: seq<string>, peers: seq<int>)
    requires Listed(r, keys, peers) && m < n <= GROUPS
    ensures Step(Input(Cut(r, m), WrittenRange(r, m, n, keys, peers), true), m)
         == Input(Cut(r, m + 1), WrittenRange(r, m + 1, n, keys, peers), true)
  {
    var p := Input(Cut(r, m), WrittenRange(r, m, n, keys, peers), true);
    WrittenSome(r, m, n, keys, peers);
    CutSounds(r, m);
    GroupBack(p, r, GroupAt(m), keys, peers, WrittenRange(r, m + 1, n, keys, peers));
    assert Step(p, m) == Read(p, GroupAt(m));
    assert Cut(r, m + 1) == Put(Cut(r, m), r, GroupAt(m));
  }

  // A stream cut after `n` groups, read up to the k-th.
  lemma {:induction false} ReadBack(r: Raw, k: nat, n: nat, keys: seq<string>, peers: seq<int>)
    requires Listed(r, keys, peers) && k <= n && 1 <= n <= GROUPS
    ensures ReadUpTo(Input(NOTHING, WrittenRange(r, 0, n, keys, peers), true), k)
         == Input(Cut(r, k), WrittenRange(r, k, n, keys, peers), true)
  {
    var p := Input(NOTHING, WrittenRange(r, 0, n, keys, peers), true);
    if k == 0 {
      assert ReadUpTo(p, 0) == p && Cut(r, 0) == NOTHING;
    } else {
      var m := k - 1;
      ReadBack(r, m, n, keys, peers);
      StepBack(r, m, n, keys, peers);
      assert ReadUpTo(p, k) == Step(ReadUpTo(p, m), m);
    }
  }

  lemma {:induction false} ReadPastEnd(p: Input, n: nat, k: nat)
    requires |p.raw.slots| == SLOTS && 1 <= n <= k <= GROUPS && ReadUpTo(p, n).rest == []
    ensures ReadUpTo(p, k) == ReadUpTo(p, n)
    decreases k
  {
    if n < k { ReadPastEnd(p, n, k - 1); }
  }

  // Every stream that ends after a group is read without error.
  lemma ReadCut(r: Raw, n: nat, keys: seq<string>, peers: seq<int>)
    requires Listed(r, keys, peers) && 1 <= n <= GROUPS
    ensures ReadUpTo(Input(NOTHING, WrittenRange(r, 0, n, keys, peers), true), GROUPS) == Input(Cut(r, n), [], true)
  {
    ReadBack(r, n, n, keys, peers);
    ReadPastEnd(Input(NOTHING, WrittenRange(r, 0, n, keys, peers), true), n, GROUPS);
  }

  // ---- Streams cut short ---------------------------------------------------------------------

  lemma StepOn(r: Raw, m: nat, n: nat, tail: seq<Token>, keys: seq<string>, peers: seq<int>)
    requires Listed(r, keys, peers) && m < n <= GROUPS
    ensures Step(Input(Cut(r, m), WrittenRange(r, m, n, keys, peers) + tail, true), m)
         == Input(Cut(r, m + 1), WrittenRange(r, m + 1, n, keys, peers) + tail, true)
  {
    var more := WrittenRange(r, m + 1, n, keys, peers);
    var p := Input(Cut(r, m), WrittenRange(r, m, n, keys, peers) + tail, true);
    WrittenSome(r, m, n, keys, peers);
    CutSounds(r, m);
    JoinRight(Written(r, GroupAt(m), keys, peers), more, tail);
    GroupBack(p, r, GroupAt(m), keys, peers, more + tail);
    assert Step(p, m) == Read(p, GroupAt(m));
    assert Cut(r, m + 1) == Put(Cut(r, m), r, GroupAt(m));
  }

  // The groups that are there whole are read, whatever follows.
  lemma {:induction false} ReadOn(r: Raw, k: nat, n: nat, tail: seq<Token>, keys: seq<string>, peers: seq<int>)
    requires Listed(r, keys, peers) && k <= n <= GROUPS
    ensures ReadUpTo(Input(NOTHING, WrittenRange(r, 0, n, keys, peers) + tail, true), k)
         == Input(Cut(r, k), WrittenRange(r, k, n, keys, peers) + tail, true)
  {
    var p := Input(NOTHING, WrittenRange(r, 0, n, keys, peers) + tail, true);
    if k == 0 {
      assert ReadUpTo(p, 0) == p && Cut(r, 0) == NOTHING;
    } else {
      var m := k - 1;
      ReadOn(r, m, n, tail, keys, peers);
      StepOn(r, m, n, tail, keys, peers);
      assert ReadUpTo(p, k) == Step(ReadUpTo(p, m), m);
    }
  }

  lemma {:induction false} NumbersFail(p: Input, r: Raw, from: nat, count: nat, m: nat)
    requires |p.raw.slots| == |r.slots| == SLOTS && from + count <= SLOTS
    requires m < |Numbers(r, from, count)| && p.rest == Numbers(r, from, count)[..m]
    ensures !ReadInts(p, from, count).ok
    decreases count
  {
    if m > 0 {
      var q := p.(raw := p.raw.(slots := p.raw.slots[from := Some(p.rest[0].n)]), rest := p.rest[1..]);
      assert q.rest == Numbers(r, from + 1, count - 1)[..m - 1];
      NumbersFail(q, r, from + 1, count - 1, m - 1);
    }
  }

  lemma {:induction false} PairsFail(p: Input, keys: seq<string>, sounds: map<string, string>, m: nat)
    requires forall i :: 0 <= i < |keys| ==> keys[i] in sounds
    requires m < |Pairs(keys, sounds)| && p.rest == Pairs(keys, sounds)[..m]
    ensures !ReadPairs(p, |keys|).ok
    decreases |keys|
  {
    if m >= 2 {
      var q := p.(raw := p.raw.(sounds := p.raw.sounds[p.rest[0].s := p.rest[1].s]), rest := p.rest[2..]);
      assert q.rest == Pairs(keys[1..], sounds)[..m - 2];
      PairsFail(q, keys[1..], sounds, m - 2);
    }
  }

  lemma {:induction false} IdsFail(p: Input, peers: seq<int>, m: nat)
    requires m < |Ids(peers)| && p.rest == Ids(peers)[..m]
    ensures !ReadIds(p, |peers|).ok
    decreases |peers|
  {
    if m > 0 {
      var q := p.(raw := p.raw.(hidden := p.raw.hidden + {p.rest[0].id}), rest := p.rest[1..]);
      assert q.rest == Ids(peers[1..])[..m - 1];
      IdsFail(q, peers[1..], m - 1);
    }
  }

  lemma GroupFails(p: Input, r: Raw, g: Group, m: nat, keys: seq<string>, peers: seq<int>)
    requires Listed(r, keys, peers) && |p.raw.slots| == SLOTS && (g.Ints? ==> g.from + g.count <= SLOTS)
    requires 0 < m < |Written(r, g, keys, peers)| && p.rest == Written(r, g, keys, peers)[..m]
    ensures !Read(p, g).ok
  {
    match g
    case Ints(from, count) => NumbersFail(p, r, from, count, m);
    case Sounds =>
      assert p.rest[1..] == Pairs(keys, r.sounds)[..m - 1];
      PairsFail(p.(rest := p.rest[1..]), keys, r.sounds, m - 1);
    case Hidden =>
      assert p.rest[1..] == Ids(peers)[..m - 1];
      IdsFail(p.(rest := p.rest[1..]), peers, m - 1);
    case Blob =>
  }

  lemma {:induction false} StaysBroken(p: Input, n: nat, k: nat)
    requires |p.raw.slots| == SLOTS && n <= k <= GROUPS && !ReadUpTo(p, n).ok
    ensures !ReadUpTo(p, k).ok
    decreases k
  {
    if n < k { StaysBroken(p, n, k - 1); }
  }

  // A stream that ends within a group is an error.
  lemma CutWithinFails(r: Raw, n: nat, m: nat, keys: seq<string>, peers: seq<int>)
    requires Listed(r, keys, peers) && n < GROUPS && 0 < m < |Written(r, GroupAt(n), keys, peers)|
    ensures var part := Written(r, GroupAt(n), keys, peers)[..m];
            !ReadUpTo(Input(NOTHING, WrittenRange(r, 0, n, keys, peers) + part, true), GROUPS).ok
  {
    var part := Written(r, GroupAt(n), keys, peers)[..m];
    var p := Input(NOTHING, WrittenRange(r, 0, n, keys, peers) + part, true);
    ReadOn(r, n, n, part, keys, peers);
    var q := Input(Cut(r, n), WrittenRange(r, n, n, keys, peers) + part, true);
    assert q.rest == part && ReadUpTo(p, n + 1) == Read(q, GroupAt(n));
    GroupFails(q, r, GroupAt(n), m, keys, peers);
    StaysBroken(p, n + 1, GROUPS);
  }

  // ---- Places and groups -------------------------------------------------------------------------

  function GroupOf(i: nat): nat {
    if i < 2 then 0 else if i == 2 then 1 else if i == 3 then 3 else if i < 6 then 4
    else if i < 8 then 6 else if i < 11 then 7 else if i == 11 then 8 else if i == 12 then 9
    else if i < 16 then 10 else if i == 16 then 11 else if i == 17 then 12 else if i < 20 then 13
    else if i == 20 then 14 else 16
  }

  lemma PlaceOf(k: nat, i: nat)
    requires k < GROUPS && i < SLOTS
    ensures var g := GroupAt(k);
            GroupOf(i) == k <==> g.Ints? && g.from <= i < g.from + g.count
  {
  }

  lemma CutIsPut(r: Raw, k: nat, i: nat)
    requires |r.slots| == SLOTS && 0 < k <= GROUPS && i < SLOTS
    ensures var g := GroupAt(k - 1);
            Cut(r, k).slots[i] ==
            if g.Ints? && g.from <= i < g.from + g.count then r.slots[i] else Cut(r, k - 1).slots[i]
  {
  }

  lemma {:induction false} CutSlot(r: Raw, k: nat, i: nat)
    requires |r.slots| == SLOTS && k <= GROUPS && i < SLOTS
    ensures Cut(r, k).slots[i] == if GroupOf(i) < k then r.slots[i] else None
  {
    if k > 0 {
      CutSlot(r, k - 1, i);
      PlaceOf(k - 1, i);
      CutIsPut(r, k, i);
    } else {
      assert NOTHING.slots[i] == None;
    }
  }

  // Place `i` holds `value`, unless the stream ended before it.
  predicate Holds(r: Raw, n: nat, i: nat, value: int) {
    |r.slots| == SLOTS && i < SLOTS && r.slots[i] == if GroupOf(i) < n then Some(value) else None
  }

  // ---- Writing, group by group -------------------------------------------------------------------

  function AsTokens(ns: seq<int>): seq<Token> {
    if ns == [] then [] else [Int(ns[0])] + AsTokens(ns[1..])
  }

  lemma {:induction false} NumbersAre(r: Raw, from: nat, ns: seq<int>)
    requires |r.slots| == SLOTS && from + |ns| <= SLOTS
    requires forall i :: 0 <= i < |ns| ==> r.slots[from + i] == Some(ns[i])
    ensures Numbers(r, from, |ns|) == AsTokens(ns)
    decreases |ns|
  {
    if ns != [] {
      forall i | 0 <= i < |ns| - 1 ensures r.slots[from + 1 + i] == Some(ns[1..][i]) {
        assert r.slots[from + (i + 1)] == Some(ns[i + 1]);
      }
      assert r.slots[from + 0] == Some(ns[0]);
      NumbersAre(r, from + 1, ns[1..]);
    }
  }

  // A group of numbers.
  lemma NumbersPart(r: Raw, k: nat, from: nat, ns: seq<int>, keys: seq<string>, peers: seq<int>)
    requires k < GROUPS && |r.slots| == SLOTS && GroupAt(k) == Ints(from, |ns|)
    requires forall i :: 0 <= i < |keys| ==> keys[i] in r.sounds
    requires forall i :: 0 <= i < |ns| ==> Holds(r, GROUPS, from + i, ns[i])
    ensures Parts(r, keys, peers)[k] == AsTokens(ns)
  {
    PartAt(r, k, keys, peers);
    forall i | 0 <= i < |ns| ensures r.slots[from + i] == Some(ns[i]) {
      assert Holds(r, GROUPS, from + i, ns[i]) && GroupOf(from + i) < GROUPS;
    }
    NumbersAre(r, from, ns);
  }

  // ---- Reading and writing, step by step ----------------------------------------------------------

  // A stream that is read: what was read so far, what is left, and whether all went well.
  class Reader {
    var raw: Raw
    var rest: seq<Token>
    var ok: bool

    constructor (tokens: seq<Token>)
      ensures View() == Input(NOTHING, tokens, true)
    {
      raw, rest, ok := NOTHING, tokens, true;
    }

    function View(): Input
      reads this
    {
      Input(raw, rest, ok)
    }

    method Numbers(k: nat, from: nat, count: nat)
      requires |raw.slots| == SLOTS && k < GROUPS && GroupAt(k) == Ints(from, count)
      modifies this
      ensures |raw.slots| == SLOTS && View() == Step(old(View()), k)
    {
      if !ok || (k > 0 && rest == []) { return; }
      ghost var p := View();
      var i := 0;
      while i < count
        invariant i <= count && |raw.slots| == SLOTS && ok
        invariant ReadInts(View(), from + i, count - i) == ReadInts(p, from, count)
      {
        if rest == [] || !rest[0].Int? {
          ok := false;
          return;
        }
        raw, rest := raw.(slots := raw.slots[from + i := Some(rest[0].n)]), rest[1..];
        i := i + 1;
      }
    }

    method SoundOverrides(k: nat)
      requires |raw.slots| == SLOTS && k < GROUPS && GroupAt(k) == Sounds
      modifies this
      ensures |raw.slots| == SLOTS && View() == Step(old(View()), k)
    {
      if !ok || (k > 0 && rest == []) { return; }
      ghost var p := View();
      if rest == [] || !rest[0].Int? {
        ok := false;
        return;
      }
      var count := rest[0].n;
      rest := rest[1..];
      while count != 0
        invariant |raw.slots| == SLOTS && ok
        invariant ReadPairs(View(), count) == Read(p, Sounds)
        decreases |rest|
      {
        if count < 0 || |rest| < 2 || !rest[0].Text? || !rest[1].Text? {
          ok := false;
          return;
        }
        raw, rest := raw.(sounds := raw.sounds[rest[0].s := rest[1].s]), rest[2..];
        count := count - 1;
      }
    }

    method StickersHidden(k: nat)
      requires |raw.slots| == SLOTS && k < GROUPS && GroupAt(k) == Hidden
      modifies this
      ensures |raw.slots| == SLOTS && View() == Step(old(View()), k)
    {
      if !ok || (k > 0 && rest == []) { return; }
      ghost var p := View();
      if rest == [] || !rest[0].Int? {
        ok := false;
        return;
      }
      var count := rest[0].n;
      rest := rest[1..];
      while count != 0
        invariant |raw.slots| == SLOTS && ok
        invariant ReadIds(View(), count) == Read(p, Hidden)
        decreases |rest|
      {
        if count < 0 || rest == [] || !rest[0].Wide? {
          ok := false;
          return;
        }
        raw, rest := raw.(hidden := raw.hidden + {rest[0].id}), rest[1..];
        count := count - 1;
      }
    }

    method AutoDownload(k: nat)
      requires |raw.slots| == SLOTS && k < GROUPS && GroupAt(k) == Blob
      modifies this
      ensures |raw.slots| == SLOTS && View() == Step(old(View()), k)
    {
      if !ok || (k > 0 && rest == []) { return; }
      if rest == [] || !rest[0].Bytes? {
        ok := false;
      } else {
        raw, rest := raw.(autoDownload := rest[0].b), rest[1..];
      }
    }

    // All groups in their order.
    method All()
      requires |raw.slots| == SLOTS
      modifies this
      ensures |raw.slots| == SLOTS && View() == ReadUpTo(old(View()), GROUPS)
    {
      ghost var p := View();
      FirstHalf();
      assert View() == ReadUpTo(p, 8);
      Numbers(8, 11, 1);
      assert View() == ReadUpTo(p, 9);
      Numbers(9, 12, 1);
      assert View() == ReadUpTo(p, 10);
      Numbers(10, 13, 3);
      assert View() == ReadUpTo(p, 11);
      Numbers(11, 16, 1);
      assert View() == ReadUpTo(p, 12);
      Numbers(12, 17, 1);
      assert View() == ReadUpTo(p, 13);
      Numbers(13, 18, 2);
      assert View() == ReadUpTo(p, 14);
      Numbers(14, 20, 1);
      assert View() == ReadUpTo(p, 15);
      AutoDownload(15);
      assert View() == ReadUpTo(p, 16);
      Numbers(16, 21, 1);
    }

    method FirstHalf()
      requires |raw.slots| == SLOTS
      modifies this
      ensures |raw.slots| == SLOTS && View() == ReadUpTo(old(View()), 8)
    {
      ghost var p := View();
      Numbers(0, 0, 2);
      assert View() == ReadUpTo(p, 1);
      Numbers(1, 2, 1);
      assert View() == ReadUpTo(p, 2);
      SoundOverrides(2);
      assert View() == ReadUpTo(p, 3);
      Numbers(3, 3, 1);
      assert View() == ReadUpTo(p, 4);
      Numbers(4, 4, 2);
      assert View() == ReadUpTo(p, 5);
      StickersHidden(5);
      assert View() == ReadUpTo(p, 6);
      Numbers(6, 6, 2);
      assert View() == ReadUpTo(p, 7);
      Numbers(7, 8, 3);
    }
  }

  // A stream that is written: the tokens of the first `done` parts.
  class Writer {
    var tokens: seq<Token>
    ghost const parts: seq<seq<Token>>
    ghost var done: nat

    ghost predicate Valid()
      reads this
    {
      done <= |parts| && tokens == Concat(parts, 0, done)
    }

    constructor (ghost parts: seq<seq<Token>>)
      ensures Valid() && done == 0 && this.parts == parts
    {
      this.parts := parts;
      tokens, done := [], 0;
    }

    method Put(part: seq<Token>)
      requires Valid() && done < |parts| && part == parts[done]
      modifies this
      ensures Valid() && done == old(done) + 1
    {
      ConcatEnd(parts, 0, done);
      tokens := tokens + part;
      done := done + 1;
    }

    method Numbers(ns: seq<int>)
      requires Valid() && done < |parts| && AsTokens(ns) == parts[done]
      modifies this
      ensures Valid() && done == old(done) + 1
    {
      var part := [];
      for i := 0 to |ns|
        invariant part + AsTokens(ns[i..]) == AsTokens(ns)
      {
        part := part + [Int(ns[i])];
      }
      assert part == AsTokens(ns);
      Put(part);
    }

    method SoundOverrides(keys: seq<string>, sounds: map<string, string>)
      requires forall i :: 0 <= i < |keys| ==> keys[i] in sounds
      requires Valid() && done < |parts| && [Int(|keys|)] + Pairs(keys, sounds) == parts[done]
      modifies this
      ensures Valid() && done == old(done) + 1
    {
      var part := [Int(|keys|)];
      for i := 0 to |keys|
        invariant part + Pairs(keys[i..], sounds) == [Int(|keys|)] + Pairs(keys, sounds)
      {
        part := part + [Text(keys[i]), Text(sounds[keys[i]])];
      }
      Put(part);
    }

    method StickersHidden(peers: seq<int>)
      requires Valid() && done < |parts| && [Int(|peers|)] + Ids(peers) == parts[done]
      modifies this
      ensures Valid() && done == old(done) + 1
    {
      var part := [Int(|peers|)];
      for i := 0 to |peers|
        invariant part + Ids(peers[i..]) == [Int(|peers|)] + Ids(peers)
      {
        part := part + [Wide(peers[i])];
      }
      Put(part);
    }
  }
}
