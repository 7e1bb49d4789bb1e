// Requests for message data: callbacks wait per message, messages are asked for
// in batches per channel, and callbacks may ask for more while they run.
module MessageData {
  import opened Options
  import opened Sets

  // Channel 0 stands for the messages outside channels.
  datatype Key = Key(channel: nat, msg: int)

  // Callbacks are numbered in the order they were given.
  datatype Status = Waiting(key: Key) | Ran(key: Key) | Lost(key: Key)

  datatype Entry = Entry(requestId: nat, callbacks: seq<nat>)

  // A request on its way: the messages it was sent for and that are not dealt with yet.
  datatype Batch = Batch(channel: nat, ids: set<int>)

  // One call of requestMessageData, with or without a callback.
  datatype Ask = Ask(key: Key, callback: bool)

  datatype State = State(
    entries: map<Key, Entry>, queued: bool,
    nextRequest: nat, inFlight: map<nat, Batch>,
    statuses: seq<Status>, ran: seq<nat>)

  const INITIAL := State(map[], false, 1, map[], [], [])

  // ---- The operations ----------------------------------------------------------------

  function EntryOf(s: State, key: Key): Entry {
    if key in s.entries then s.entries[key] else Entry(0, [])
  }

  function Request(s: State, a: Ask): State {
    var e := EntryOf(s, a.key);
    var e' := if a.callback then e.(callbacks := e.callbacks + [|s.statuses|]) else e;
    s.(entries := s.entries[a.key := e'],
       statuses := if a.callback then s.statuses + [Waiting(a.key)] else s.statuses,
       queued := s.queued || e.requestId == 0)
  }

  function RequestAll(s: State, asks: seq<Ask>): State {
    if asks == [] then s else Request(RequestAll(s, asks[..|asks| - 1]), asks[|asks| - 1])
  }

  // Callback `c` runs; `asks` is what it asks for.
  function RunOne(s: State, c: nat, asks: seq<Ask>): State {
    RequestAll(Started(s, c), asks)
  }

  function Started(s: State, c: nat): State {
    if c < |s.statuses| then
      s.(ran := s.ran + [c], statuses := s.statuses[c := Ran(s.statuses[c].key)])
    else s
  }

  // The entry goes, with every callback that is still in it.
  function Erase(s: State, key: Key): State
    requires key in s.entries
  {
    var e := s.entries[key];
    s.(entries := s.entries - {key},
       statuses := seq(|s.statuses|, i requires 0 <= i < |s.statuses| =>
                         if i in e.callbacks && !s.statuses[i].Ran? then Lost(key) else s.statuses[i]),
       inFlight := if e.requestId in s.inFlight
                   then var b := s.inFlight[e.requestId];
                        s.inFlight[e.requestId := b.(ids := b.ids - {key.msg})]
                   else s.inFlight)
  }

  // ---- The invariant -------------------------------------------------------------------

  predicate Distinct(s: seq<nat>) {
    forall i, j :: 0 <= i < j < |s| ==> s[i] != s[j]
  }

  // Every callback is in one place: waiting in the one entry it was given for, or done with.
  ghost predicate EntryFits(s: State, k: Key)
    requires k in s.entries
  {
    && Distinct(s.entries[k].callbacks)
    && forall c :: c in s.entries[k].callbacks ==> c < |s.statuses| && s.statuses[c] == Waiting(k)
  }

  ghost predicate StatusFits(s: State, c: nat)
    requires c < |s.statuses|
  {
    match s.statuses[c]
    case Waiting(k) => k in s.entries && c in s.entries[k].callbacks && c !in s.ran
    case Ran(_) => c in s.ran
    case Lost(_) => c !in s.ran
  }

  // An entry without a request has a resolve queued; the others are what their request asked for.
  ghost predicate Tagged(s: State, k: Key)
    requires k in s.entries
  {
    var r := s.entries[k].requestId;
    if r == 0 then s.queued
    else r in s.inFlight && s.inFlight[r].channel == k.channel && k.msg in s.inFlight[r].ids
  }

  ghost predicate BatchFits(s: State, r: nat)
    requires r in s.inFlight
  {
    && 0 < r < s.nextRequest
    && forall m :: m in s.inFlight[r].ids ==>
         var k := Key(s.inFlight[r].channel, m); k in s.entries && s.entries[k].requestId == r
  }

  ghost predicate Books(s: State) {
    && 0 < s.nextRequest
    && (forall k {:trigger Tagged(s, k)} :: k in s.entries ==> Tagged(s, k))
    && (forall r {:trigger BatchFits(s, r)} :: r in s.inFlight ==> BatchFits(s, r))
  }

  ghost predicate RanOnce(s: State) {
    Distinct(s.ran) && forall c :: c in s.ran ==> c < |s.statuses|
  }

  ghost predicate Inv(s: State) {
    && Books(s) && RanOnce(s)
    && (forall k {:trigger EntryFits(s, k)} :: k in s.entries ==> EntryFits(s, k))
    && (forall c {:trigger StatusFits(s, c)} :: 0 <= c < |s.statuses| ==> StatusFits(s, c))
  }

  // The same while the callbacks of `key` run: the first `n` of `cbs` are done, and
  // whatever was added since comes after `cbs`.
  ghost predicate Running(s: State, key: Key, cbs: seq<nat>, n: nat) {
    && Books(s) && RanOnce(s) && n <= |cbs|
    && (forall k {:trigger EntryFits(s, k)} :: k in s.entries && k != key ==> EntryFits(s, k))
    && (forall c {:trigger StatusFits(s, c)} :: 0 <= c < |s.statuses| ==> StatusFits(s, c))
    && key in s.entries && s.entries[key].requestId != 0
    && cbs <= s.entries[key].callbacks && Distinct(s.entries[key].callbacks)
    && (forall i :: 0 <= i < |s.entries[key].callbacks| ==>
          var c := s.entries[key].callbacks[i];
          c < |s.statuses| && s.statuses[c] == if i < n then Ran(key) else Waiting(key))
  }

  lemma RequestKeepsBooks(s: State, a: Ask)
    requires Books(s)
    ensures Books(Request(s, a))
  {
    var t := Request(s, a);
    forall k | k in t.entries ensures Tagged(t, k) {
      if k in s.entries { assert Tagged(s, k); }
    }
    forall r | r in t.inFlight ensures BatchFits(t, r) {
      assert BatchFits(s, r);
    }
  }

  lemma DistinctAppend(s: seq<nat>, x: nat)
    requires Distinct(s) && x !in s
    ensures Distinct(s + [x])
  {
  }

  lemma RequestEntry(s: State, a: Ask, k: Key)
    requires k in s.entries && EntryFits(s, k)
    ensures EntryFits(Request(s, a), k)
  {
    if k == a.key && a.callback {
      assert forall c :: c in s.entries[k].callbacks ==> c < |s.statuses|;
      DistinctAppend(s.entries[k].callbacks, |s.statuses|);
    }
  }

  lemma RequestStatus(s: State, a: Ask, c: nat)
    requires c < |Request(s, a).statuses| && RanOnce(s) && (c < |s.statuses| ==> StatusFits(s, c))
    ensures StatusFits(Request(s, a), c)
  {
    var t := Request(s, a);
    if c < |s.statuses| {
      assert t.statuses[c] == s.statuses[c];
    } else {
      var cbs := t.entries[a.key].callbacks;
      assert cbs[|cbs| - 1] == c;
    }
  }

  lemma RequestKeepsInv(s: State, a: Ask)
    requires Inv(s)
    ensures Inv(Request(s, a))
  {
    var t := Request(s, a);
    RequestKeepsBooks(s, a);
    forall k | k in t.entries ensures EntryFits(t, k) {
      if k in s.entries { RequestEntry(s, a, k); }
    }
    forall c | 0 <= c < |t.statuses| ensures StatusFits(t, c) {
      RequestStatus(s, a, c);
    }
  }

  lemma RequestKeepsRunning(s: State, a: Ask, key: Key, cbs: seq<nat>, n: nat)
    requires Running(s, key, cbs, n)
    ensures Running(Request(s, a), key, cbs, n)
  {
    var t := Request(s, a);
    RequestKeepsBooks(s, a);
    forall k | k in t.entries && k != key ensures EntryFits(t, k) {
      if k in s.entries { RequestEntry(s, a, k); }
    }
    forall c | 0 <= c < |t.statuses| ensures StatusFits(t, c) {
      RequestStatus(s, a, c);
    }
    if a.key == key && a.callback {
      forall c | c in s.entries[key].callbacks ensures c < |s.statuses| {
        var i :| 0 <= i < |s.entries[key].callbacks| && s.entries[key].callbacks[i] == c;
      }
      DistinctAppend(s.entries[key].callbacks, |s.statuses|);
    }
  }

  lemma {:induction false} RequestAllKeepsRunning(s: State, asks: seq<Ask>, key: Key, cbs: seq<nat>, n: nat)
    requires Running(s, key, cbs, n)
    ensures Running(RequestAll(s, asks), key, cbs, n)
  {
    if asks != [] {
      RequestAllKeepsRunning(s, asks[..|asks| - 1], key, cbs, n);
      RequestKeepsRunning(RequestAll(s, asks[..|asks| - 1]), asks[|asks| - 1], key, cbs, n);
    }
  }

  lemma RunOneKeepsRunning(s: State, asks: seq<Ask>, key: Key, cbs: seq<nat>, n: nat)
    requires Running(s, key, cbs, n) && n < |cbs|
    ensures Running(RunOne(s, cbs[n], asks), key, cbs, n + 1)
  {
    var c := cbs[n];
    var all := s.entries[key].callbacks;
    assert all[n] == c && s.statuses[c] == Waiting(key) && StatusFits(s, c);
    var t := Started(s, c);
    DistinctAppend(s.ran, c);
    forall k | k in t.entries && k != key ensures EntryFits(t, k) {
      assert EntryFits(s, k);
    }
    forall d | 0 <= d < |t.statuses| ensures StatusFits(t, d) {
      assert StatusFits(s, d);
    }
    forall k | k in t.entries ensures Tagged(t, k) { assert Tagged(s, k); }
    forall r | r in t.inFlight ensures BatchFits(t, r) { assert BatchFits(s, r); }
    RequestAllKeepsRunning(t, asks, key, cbs, n + 1);
  }

  lemma StartRunning(s: State, key: Key)
    requires Inv(s) && key in s.entries && s.entries[key].requestId != 0
    ensures Running(s, key, s.entries[key].callbacks, 0)
  {
    assert EntryFits(s, key);
  }

  lemma EraseKeepsInv(s: State, key: Key, cbs: seq<nat>)
    requires Running(s, key, cbs, |cbs|)
    ensures Inv(Erase(s, key))
    ensures var t := Erase(s, key);
            forall c :: 0 <= c < |s.statuses| ==>
              t.statuses[c] == if c in s.entries[key].callbacks[|cbs|..] then Lost(key) else s.statuses[c]
  {
    var t := Erase(s, key);
    var all := s.entries[key].callbacks;
    forall c | 0 <= c < |s.statuses|
      ensures t.statuses[c] == if c in all[|cbs|..] then Lost(key) else s.statuses[c]
    {
      if c in all {
        var i :| 0 <= i < |all| && all[i] == c;
        if i >= |cbs| { assert all[|cbs|..][i - |cbs|] == c; }
      }
    }
    forall c | c in all ensures c < |s.statuses| && s.statuses[c].key == key {
      var i :| 0 <= i < |all| && all[i] == c;
    }
    forall k | k in t.entries ensures EntryFits(t, k) {
      assert EntryFits(s, k);
      forall c | c in t.entries[k].callbacks ensures c !in all {
        assert s.statuses[c] == Waiting(k);
      }
    }
    forall c | 0 <= c < |t.statuses| ensures StatusFits(t, c) {
      assert StatusFits(s, c);
    }
    EraseKeepsBooks(s, key);
  }

  lemma EraseKeepsBooks(s: State, key: Key)
    requires Books(s) && key in s.entries
    ensures Books(Erase(s, key))
  {
    var t := Erase(s, key);
    assert Tagged(s, key);
    forall k | k in t.entries ensures Tagged(t, k) { assert Tagged(s, k); }
    forall r | r in t.inFlight ensures BatchFits(t, r) { assert BatchFits(s, r); }
  }

  // ---- An answer ---------------------------------------------------------------------------

  // What callback `c` asks for when it runs.
  type Script = nat -> seq<Ask>

  function RunUpTo(s: State, cbs: seq<nat>, n: nat, script: Script): State
    requires n <= |cbs|
  {
    if n == 0 then s else RunOne(RunUpTo(s, cbs, n - 1, script), cbs[n - 1], script(cbs[n - 1]))
  }

  lemma {:induction false} RunUpToRunning(s: State, key: Key, cbs: seq<nat>, n: nat, script: Script)
    requires Running(s, key, cbs, 0) && n <= |cbs|
    ensures Running(RunUpTo(s, cbs, n, script), key, cbs, n)
  {
    if n == 0 {
      assert RunUpTo(s, cbs, n, script) == s;
    } else {
      var m := n - 1;
      var t := RunUpTo(s, cbs, m, script);
      RunUpToRunning(s, key, cbs, m, script);
      RunOneKeepsRunning(t, script(cbs[m]), key, cbs, m);
      assert RunUpTo(s, cbs, n, script) == RunOne(t, cbs[m], script(cbs[m]));
    }
  }

  lemma {:induction false} RunUpToKeeps(s: State, cbs: seq<nat>, n: nat, script: Script, key: Key)
    requires n <= |cbs| && key in s.entries
    ensures var t := RunUpTo(s, cbs, n, script);
            && t.inFlight == s.inFlight && key in t.entries
            && t.entries[key].requestId == s.entries[key].requestId
  {
    if n > 0 {
      RunUpToKeeps(s, cbs, n - 1, script, key);
      var t := Started(RunUpTo(s, cbs, n - 1, script), cbs[n - 1]);
      AskKeepsFlight(t, script(cbs[n - 1]));
      AskKeepsEntry(t, script(cbs[n - 1]), key);
    }
  }

  lemma {:induction false} AskKeepsFlight(s: State, asks: seq<Ask>)
    ensures RequestAll(s, asks).inFlight == s.inFlight
    ensures RequestAll(s, asks).nextRequest == s.nextRequest
    ensures RequestAll(s, asks).ran == s.ran
  {
    if asks != [] { AskKeepsFlight(s, asks[..|asks| - 1]); }
  }

  // The callbacks of one message run in the order they were given, then the message goes.
  function Finish(s: State, key: Key, script: Script): (t: State)
    requires Inv(s) && key in s.entries && s.entries[key].requestId != 0
    ensures Inv(t)
    ensures var r := s.entries[key].requestId;
            && r in s.inFlight && key.msg in s.inFlight[r].ids
            && t.inFlight == s.inFlight[r := s.inFlight[r].(ids := s.inFlight[r].ids - {key.msg})]
  {
    var cbs := s.entries[key].callbacks;
    StartRunning(s, key);
    assert Tagged(s, key);
    var t := RunUpTo(s, cbs, |cbs|, script);
    RunUpToRunning(s, key, cbs, |cbs|, script);
    RunUpToKeeps(s, cbs, |cbs|, script, key);
    EraseKeepsInv(t, key, cbs);
    Erase(t, key)
  }

  lemma {:induction false} AskKeepsEntry(s: State, asks: seq<Ask>, key: Key)
    requires key in s.entries
    ensures key in RequestAll(s, asks).entries
    ensures RequestAll(s, asks).entries[key].requestId == s.entries[key].requestId
  {
    if asks != [] { AskKeepsEntry(s, asks[..|asks| - 1], key); }
  }

  ghost predicate IsLeast(m: int, ids: set<int>) {
    m in ids && forall i {:trigger i in ids} :: i in ids ==> m <= i
  }

  lemma LeastExists(ids: set<int>)
    requires ids != {}
    ensures exists m {:trigger IsLeast(m, ids)} :: IsLeast(m, ids)
  {
    HasMember(ids);
    var x :| x in ids;
    var rest := ids - {x};
    if rest == {} {
      assert forall i :: i in ids ==> i == x || i in rest;
      assert IsLeast(x, ids);
    } else {
      LeastExists(rest);
      var m :| IsLeast(m, rest);
      assert forall i :: i in ids ==> i == x || i in rest;
      assert IsLeast(if x < m then x else m, ids);
    }
  }

  ghost function Least(ids: set<int>): (m: int)
    requires ids != {}
    ensures IsLeast(m, ids)
  {
    LeastExists(ids);
    var m :| IsLeast(m, ids);
    m
  }

  // Request `r` is answered: its messages are dealt with in the order of their ids.
  ghost function Finalize(s: State, r: nat, script: Script): (t: State)
    requires Inv(s) && r in s.inFlight
    ensures Inv(t) && t.inFlight == s.inFlight - {r}
    decreases |s.inFlight[r].ids|
  {
    var b := s.inFlight[r];
    if b.ids == {} then
      AnsweredKeepsInv(s, r);
      s.(inFlight := s.inFlight - {r})
    else
      var m := Least(b.ids);
      assert BatchFits(s, r);
      var t := Finish(s, Key(b.channel, m), script);
      assert |t.inFlight[r].ids| < |b.ids|;
      Finalize(t, r, script)
  }

  lemma AnsweredKeepsInv(s: State, r: nat)
    requires Inv(s) && r in s.inFlight && s.inFlight[r].ids == {}
    ensures Inv(s.(inFlight := s.inFlight - {r}))
  {
    var t := s.(inFlight := s.inFlight - {r});
    forall k | k in t.entries ensures Tagged(t, k) && EntryFits(t, k) {
      assert Tagged(s, k) && EntryFits(s, k);
    }
    forall q | q in t.inFlight ensures BatchFits(t, q) { assert BatchFits(s, q); }
    forall c | 0 <= c < |t.statuses| ensures StatusFits(t, c) { assert StatusFits(s, c); }
  }

  // ---- Asking the server ---------------------------------------------------------------------

  function Unasked(s: State, channel: nat): set<int> {
    set k | k in s.entries && k.channel == channel && s.entries[k].requestId == 0 :: k.msg
  }

  // One request for the messages of one channel that no request was sent for yet.
  function Send(s: State, channel: nat): State {
    var ids := Unasked(s, channel);
    if ids == {} then s
    else
      s.(entries := map k | k in s.entries ::
                      if k.channel == channel && s.entries[k].requestId == 0
                      then s.entries[k].(requestId := s.nextRequest) else s.entries[k],
         nextRequest := s.nextRequest + 1,
         inFlight := s.inFlight[s.nextRequest := Batch(channel, ids)])
  }

  // A request goes out exactly when a message of the channel waits without one, and it is for
  // all of these.
  lemma SendIff(s: State, channel: nat)
    requires Inv(s)
    ensures var t := Send(s, channel);
            var some := exists k :: k in s.entries && k.channel == channel && s.entries[k].requestId == 0;
            && t.nextRequest == (if some then s.nextRequest + 1 else s.nextRequest)
            && |t.inFlight| == (if some then |s.inFlight| + 1 else |s.inFlight|)
            && (some ==>
                  && s.nextRequest in t.inFlight && t.inFlight[s.nextRequest].channel == channel
                  && forall m :: m in t.inFlight[s.nextRequest].ids <==>
                       Key(channel, m) in s.entries && s.entries[Key(channel, m)].requestId == 0)
  {
    var ids := Unasked(s, channel);
    assert s.nextRequest in s.inFlight ==> BatchFits(s, s.nextRequest);
    if k :| k in s.entries && k.channel == channel && s.entries[k].requestId == 0 { assert k.msg in ids; }
    forall m ensures m in ids <==> Key(channel, m) in s.entries && s.entries[Key(channel, m)].requestId == 0 {
      assert Key(channel, m).msg == m;
    }
    if ids != {} {
      HasMember(ids);
      var m :| m in ids;
      assert Key(channel, m) in s.entries;
    }
  }

  predicate Below(keys: set<Key>, channels: nat) {
    forall k :: k in keys ==> k.channel < channels
  }

  lemma ChannelsBounded(keys: set<Key>)
    ensures exists n: nat :: Below(keys, n)
  {
    if keys == {} {
      assert Below(keys, 0);
    } else {
      var x :| x in keys;
      ChannelsBounded(keys - {x});
      var n: nat :| Below(keys - {x}, n);
      forall k | k in keys ensures k == x || k in keys - {x} { }
      assert Below(keys, if x.channel < n then n else x.channel + 1);
    }
  }

  // Every entry in the channels below `channels` belongs to a request.
  ghost predicate AskedFor(s: State, channels: nat) {
    forall k :: k in s.entries && k.channel < channels ==> s.entries[k].requestId != 0
  }

  lemma SendKeepsInv(s: State, channel: nat)
    requires Inv(s) && s.queued && AskedFor(s, channel)
    ensures var t := Send(s, channel);
            Inv(t) && t.queued && AskedFor(t, channel + 1) && t.entries.Keys == s.entries.Keys
  {
    var t := Send(s, channel);
    forall k | k in t.entries
      ensures Tagged(t, k) && EntryFits(t, k)
      ensures k.channel < channel + 1 ==> t.entries[k].requestId != 0
    {
      assert Tagged(s, k) && EntryFits(s, k);
      if t.entries[k].requestId in s.inFlight { assert BatchFits(s, t.entries[k].requestId); }
      if k.channel == channel && s.entries[k].requestId == 0 {
        assert k.msg in Unasked(s, channel);
      }
    }
    forall r | r in t.inFlight ensures BatchFits(t, r) {
      SendBatch(s, channel, r);
    }
    forall c | 0 <= c < |t.statuses| ensures StatusFits(t, c) { assert StatusFits(s, c); }
  }

  lemma SendBatch(s: State, channel: nat, r: nat)
    requires Inv(s) && r in Send(s, channel).inFlight
    ensures BatchFits(Send(s, channel), r)
  {
    if r in s.inFlight { assert BatchFits(s, r); }
  }

  ghost predicate Sending(s: State, channels: nat, keys: set<Key>) {
    Inv(s) && s.queued && AskedFor(s, channels) && s.entries.Keys == keys
  }

  lemma SendStep(s: State, channels: nat, keys: set<Key>)
    requires Sending(s, channels, keys)
    ensures Sending(Send(s, channels), channels + 1, keys)
  {
    SendKeepsInv(s, channels);
    assert Inv(Send(s, channels));
  }

  // Channels are gone through in increasing order.
  function ResolveUpTo(s: State, channels: nat): State {
    if channels == 0 then s else Send(ResolveUpTo(s, channels - 1), channels - 1)
  }

  lemma {:induction false} ResolveUpToSending(s: State, channels: nat, keys: set<Key>)
    requires Sending(s, 0, keys)
    ensures Sending(ResolveUpTo(s, channels), channels, keys)
  {
    if channels > 0 {
      var t := ResolveUpTo(s, channels - 1);
      ResolveUpToSending(s, channels - 1, keys);
      SendStep(t, channels - 1, keys);
      assert ResolveUpTo(s, channels) == Send(t, channels - 1);
    }
  }

  lemma ResolvedKeepsInv(s: State, channels: nat)
    requires Inv(s) && AskedFor(s, channels) && Below(s.entries.Keys, channels)
    ensures Inv(s.(queued := false))
  {
    var t := s.(queued := false);
    forall k | k in t.entries ensures Tagged(t, k) && EntryFits(t, k) {
      assert k in s.entries.Keys;
      assert Tagged(s, k) && EntryFits(s, k);
    }
    forall r | r in t.inFlight ensures BatchFits(t, r) { assert BatchFits(s, r); }
    forall c | 0 <= c < |t.statuses| ensures StatusFits(t, c) { assert StatusFits(s, c); }
  }

  // The queued call runs; no entry has a channel at or above `channels`.
  function Resolve(s: State, channels: nat): State {
    ResolveUpTo(s, channels).(queued := false)
  }

  lemma ResolveKeepsInv(s: State, channels: nat)
    requires Inv(s) && s.queued && Below(s.entries.Keys, channels)
    ensures Inv(Resolve(s, channels))
  {
    ResolveUpToSending(s, channels, s.entries.Keys);
    ResolvedKeepsInv(ResolveUpTo(s, channels), channels);
  }

  // ---- Which callbacks are lost --------------------------------------------------------------

  // A callback ran that asks, with a callback, for the very message it is called for.
  ghost predicate Selfish(s: State, script: Script) {
    exists c :: c in s.ran && c < |s.statuses| && Ask(s.statuses[c].key, true) in script(c)
  }

  predicate AnyLost(s: State) {
    exists c :: 0 <= c < |s.statuses| && s.statuses[c].Lost?
  }

  ghost predicate Fair(s: State, script: Script) {
    Selfish(s, script) <==> AnyLost(s)
  }

  // While the callbacks `cbs` of `key` run, what was added after them is as good as lost.
  ghost predicate HalfFair(s: State, key: Key, cbs: seq<nat>, script: Script)
    requires key in s.entries
  {
    Selfish(s, script) <==> AnyLost(s) || |s.entries[key].callbacks| > |cbs|
  }

  // Asking only adds to the books; the entry of `key` grows by the asks for `key`.
  lemma {:induction false} AskGrows(s: State, asks: seq<Ask>, key: Key)
    requires key in s.entries
    ensures var t := RequestAll(s, asks);
            && s.statuses <= t.statuses && t.ran == s.ran && key in t.entries
            && (forall c :: |s.statuses| <= c < |t.statuses| ==> t.statuses[c].Waiting?)
            && |s.entries[key].callbacks| <= |t.entries[key].callbacks|
            && (|s.entries[key].callbacks| < |t.entries[key].callbacks| <==> Ask(key, true) in asks)
  {
    if asks != [] {
      var front, last := asks[..|asks| - 1], asks[|asks| - 1];
      AskGrows(s, front, key);
      assert asks == front + [last];
    }
  }

  lemma RunOneFair(s: State, key: Key, cbs: seq<nat>, n: nat, script: Script)
    requires Running(s, key, cbs, n) && n < |cbs| && HalfFair(s, key, cbs, script)
    ensures var t := RunOne(s, cbs[n], script(cbs[n]));
            key in t.entries && HalfFair(t, key, cbs, script)
  {
    var c := cbs[n];
    assert s.entries[key].callbacks[n] == c;
    var u := Started(s, c);
    var t := RequestAll(u, script(c));
    AskGrows(u, script(c), key);
    assert Selfish(t, script) <==> Selfish(s, script) || Ask(key, true) in script(c) by {
      RunOneSelfish(s, t, c, key, script);
    }
    assert AnyLost(t) <==> AnyLost(s) by {
      if d :| 0 <= d < |s.statuses| && s.statuses[d].Lost? { assert t.statuses[d].Lost?; }
      if d :| 0 <= d < |t.statuses| && t.statuses[d].Lost? { assert s.statuses[d].Lost?; }
    }
  }

  lemma RunOneSelfish(s: State, t: State, c: nat, key: Key, script: Script)
    requires RanOnce(s) && c < |s.statuses| <= |t.statuses| && s.statuses[c].key == key
    requires t.ran == s.ran + [c]
    requires forall d :: 0 <= d < |s.statuses| ==> t.statuses[d].key == s.statuses[d].key
    ensures Selfish(t, script) <==> Selfish(s, script) || Ask(key, true) in script(c)
  {
    if d :| d in s.ran && d < |s.statuses| && Ask(s.statuses[d].key, true) in script(d) {
      assert d in t.ran;
    }
    if Ask(key, true) in script(c) { assert c in t.ran; }
  }

  lemma {:induction false} RunUpToFair(s: State, key: Key, cbs: seq<nat>, n: nat, script: Script)
    requires Running(s, key, cbs, 0) && n <= |cbs| && HalfFair(s, key, cbs, script)
    ensures var t := RunUpTo(s, cbs, n, script); key in t.entries && HalfFair(t, key, cbs, script)
  {
    if n > 0 {
      var m := n - 1;
      var t := RunUpTo(s, cbs, m, script);
      RunUpToFair(s, key, cbs, m, script);
      RunUpToRunning(s, key, cbs, m, script);
      RunOneFair(t, key, cbs, m, script);
      assert RunUpTo(s, cbs, n, script) == RunOne(t, cbs[m], script(cbs[m]));
    }
  }

  lemma EraseFair(s: State, key: Key, cbs: seq<nat>, script: Script)
    requires Running(s, key, cbs, |cbs|) && HalfFair(s, key, cbs, script)
    ensures Fair(Erase(s, key), script)
  {
    EraseKeepsInv(s, key, cbs);
    var t := Erase(s, key);
    var extra := s.entries[key].callbacks[|cbs|..];
    assert AnyLost(t) <==> AnyLost(s) || extra != [] by {
      if c :| 0 <= c < |s.statuses| && s.statuses[c].Lost? { assert t.statuses[c].Lost?; }
      if extra != [] {
        assert extra[0] == s.entries[key].callbacks[|cbs|];
        assert t.statuses[extra[0]].Lost?;
      }
    }
    forall c | 0 <= c < |s.statuses| ensures t.statuses[c].key == s.statuses[c].key {
      if c in extra {
        var i :| 0 <= i < |extra| && extra[i] == c;
        assert s.entries[key].callbacks[|cbs| + i] == c;
      }
    }
  }

  lemma FinishFair(s: State, key: Key, script: Script)
    requires Inv(s) && key in s.entries && s.entries[key].requestId != 0 && Fair(s, script)
    ensures Fair(Finish(s, key, script), script)
  {
    var cbs := s.entries[key].callbacks;
    StartRunning(s, key);
    RunUpToRunning(s, key, cbs, |cbs|, script);
    RunUpToFair(s, key, cbs, |cbs|, script);
    EraseFair(RunUpTo(s, cbs, |cbs|, script), key, cbs, script);
  }

  lemma {:induction false} FinalizeFair(s: State, r: nat, script: Script)
    requires Inv(s) && r in s.inFlight && Fair(s, script)
    ensures Fair(Finalize(s, r, script), script)
    decreases |s.inFlight[r].ids|
  {
    var b := s.inFlight[r];
    if b.ids == {} {
      assert Finalize(s, r, script) == s.(inFlight := s.inFlight - {r});
    } else {
      var key := Key(b.channel, Least(b.ids));
      assert BatchFits(s, r);
      var t := Finish(s, key, script);
      FinishFair(s, key, script);
      assert |t.inFlight[r].ids| < |b.ids|;
      FinalizeFair(t, r, script);
      assert Finalize(s, r, script) == Finalize(t, r, script);
    }
  }

  // ---- Runs ------------------------------------------------------------------------------------

  // `Resolved` is the queued call running, `Answered` a request being done or failing.
  datatype Step = Asked(ask: Ask) | Resolved(channels: nat) | Answered(r: nat)

  ghost predicate Enabled(s: State, step: Step) {
    match step
    case Asked(_) => true
    case Resolved(n) => s.queued && Below(s.entries.Keys, n)
    case Answered(r) => r in s.inFlight
  }

  ghost function Next(s: State, step: Step, script: Script): (t: State)
    requires Inv(s)
    ensures Inv(t)
  {
    if !Enabled(s, step) then s
    else
      match step
      case Asked(a) => RequestKeepsInv(s, a); Request(s, a)
      case Resolved(n) => ResolveKeepsInv(s, n); Resolve(s, n)
      case Answered(r) => Finalize(s, r, script)
  }

  ghost function Run(s: State, steps: seq<Step>, script: Script): (t: State)
    requires Inv(s)
    ensures Inv(t)
  {
    if steps == [] then s else Next(Run(s, steps[..|steps| - 1], script), steps[|steps| - 1], script)
  }

  lemma InitialInv()
    ensures Inv(INITIAL)
  {
  }

  lemma {:induction false} ResolveKeepsStatuses(s: State, n: nat)
    ensures ResolveUpTo(s, n).statuses == s.statuses && ResolveUpTo(s, n).ran == s.ran
  {
    if n > 0 { ResolveKeepsStatuses(s, n - 1); }
  }

  lemma AskedFair(s: State, a: Ask, script: Script)
    requires Inv(s) && Fair(s, script)
    ensures Fair(Request(s, a), script)
  {
    var t := Request(s, a);
    forall c | 0 <= c < |s.statuses| ensures t.statuses[c] == s.statuses[c] { }
    if c :| 0 <= c < |s.statuses| && s.statuses[c].Lost? { assert t.statuses[c].Lost?; }
    assert Selfish(s, script) <==> Selfish(t, script) by {
      if c :| c in s.ran && c < |s.statuses| && Ask(s.statuses[c].key, true) in script(c) {
        assert t.statuses[c].key == s.statuses[c].key;
      }
    }
  }

  lemma NextFair(s: State, step: Step, script: Script)
    requires Inv(s) && Fair(s, script)
    ensures Fair(Next(s, step, script), script)
  {
    if Enabled(s, step) {
      match step
      case Asked(a) => AskedFair(s, a, script);
      case Resolved(n) => ResolveKeepsStatuses(s, n);
      case Answered(r) => FinalizeFair(s, r, script);
    }
  }

  lemma {:induction false} ReachableFair(s: State, steps: seq<Step>, script: Script)
    requires Inv(s) && Fair(s, script)
    ensures Fair(Run(s, steps, script), script)
  {
    if steps != [] {
      ReachableFair(s, steps[..|steps| - 1], script);
      NextFair(Run(s, steps[..|steps| - 1], script), steps[|steps| - 1], script);
    }
  }

  // No callback runs twice, in any run.
  // Once no request is on its way and no resolve is queued, no callback waits; and then
  // every callback has run if and only if none of those that ran asked for its own message.
  lemma EveryCallbackOnce(steps: seq<Step>, script: Script)
    ensures Inv(INITIAL)
    ensures var s := Run(INITIAL, steps, script);
            && Distinct(s.ran)
            && (s.inFlight == map[] && !s.queued ==>
                  && s.entries == map[]
                  && ((forall c: nat :: c < |s.statuses| ==> c in s.ran) <==> !Selfish(s, script)))
  {
    InitialInv();
    assert Fair(INITIAL, script);
    ReachableFair(INITIAL, steps, script);
    var s := Run(INITIAL, steps, script);
    if s.inFlight == map[] && !s.queued {
      forall k ensures k !in s.entries { assert k in s.entries ==> Tagged(s, k); }
      NobodyWaits(s, script);
    }
  }

  lemma NobodyWaits(s: State, script: Script)
    requires Inv(s) && Fair(s, script) && s.entries == map[]
    ensures (forall c: nat :: c < |s.statuses| ==> c in s.ran) <==> !Selfish(s, script)
  {
    forall c: nat | c < |s.statuses| ensures c in s.ran <==> !s.statuses[c].Lost? {
      assert StatusFits(s, c);
    }
  }

  // ---- Every ask is taken up -------------------------------------------------------------------

  // The messages that asks with a callback are for.
  function KeysOf(asks: seq<Ask>): multiset<Key> {
    if asks == [] then multiset{}
    else KeysOf(asks[..|asks| - 1]) + if asks[|asks| - 1].callback then multiset{asks[|asks| - 1].key} else multiset{}
  }

  // The messages the callbacks were given for.
  function Given(statuses: seq<Status>): multiset<Key> {
    if statuses == [] then multiset{} else Given(statuses[..|statuses| - 1]) + multiset{statuses[|statuses| - 1].key}
  }

  // What the callbacks that ran asked for.
  function Owed(ran: seq<nat>, script: Script): multiset<Key> {
    if ran == [] then multiset{} else Owed(ran[..|ran| - 1], script) + KeysOf(script(ran[|ran| - 1]))
  }

  // What the steps themselves ask for.
  function StepKeys(steps: seq<Step>): multiset<Key> {
    if steps == [] then multiset{}
    else
      var step := steps[|steps| - 1];
      StepKeys(steps[..|steps| - 1]) + if step.Asked? then KeysOf([step.ask]) else multiset{}
  }

  lemma {:induction false} SameGiven(a: seq<Status>, b: seq<Status>)
    requires |a| == |b| && forall i :: 0 <= i < |a| ==> a[i].key == b[i].key
    ensures Given(a) == Given(b)
  {
    if a != [] { SameGiven(a[..|a| - 1], b[..|b| - 1]); }
  }

  // A callback is given exactly when the ask has one, for its message; and the message has an
  // entry, which is queued unless a request was sent for it.
  lemma RequestMeans(s: State, a: Ask)
    ensures var t := Request(s, a);
            && Given(t.statuses) == Given(s.statuses) + KeysOf([a])
            && t.ran == s.ran && a.key in t.entries
            && (t.entries[a.key].requestId == 0 ==> t.queued)
            && (a.callback ==> |s.statuses| in t.entries[a.key].callbacks)
  {
    assert KeysOf([]) == multiset{} && [a][..0] == [];
    assert KeysOf([a]) == if a.callback then multiset{a.key} else multiset{};
    var t := Request(s, a);
    if a.callback {
      assert t.statuses[..|s.statuses|] == s.statuses;
      var cbs := t.entries[a.key].callbacks;
      assert cbs[|cbs| - 1] == |s.statuses|;
    }
  }

  lemma {:induction false} RequestAllMeans(s: State, asks: seq<Ask>)
    ensures Given(RequestAll(s, asks).statuses) == Given(s.statuses) + KeysOf(asks)
    ensures RequestAll(s, asks).ran == s.ran
  {
    if asks != [] {
      var front, a := asks[..|asks| - 1], asks[|asks| - 1];
      RequestAllMeans(s, front);
      RequestMeans(RequestAll(s, front), a);
      assert KeysOf([]) == multiset{} && [a][..0] == [];
    }
  }

  // From `s` to `t` the callbacks given are `more` and those that callbacks that ran asked for.
  ghost predicate GivenFor(s: State, more: multiset<Key>, t: State, script: Script) {
    Given(t.statuses) + Owed(s.ran, script) == Given(s.statuses) + more + Owed(t.ran, script)
  }

  lemma GivenOn(s: State, a: multiset<Key>, t: State, b: multiset<Key>, u: State, c: multiset<Key>, script: Script)
    requires GivenFor(s, a, t, script) && GivenFor(t, b, u, script) && c == a + b
    ensures GivenFor(s, c, u, script)
  {
    Balanced(Given(s.statuses), Owed(s.ran, script), a, Given(t.statuses), Owed(t.ran, script), b,
             Given(u.statuses), Owed(u.ran, script));
  }

  lemma Balanced(
      a0: multiset<Key>, o0: multiset<Key>, m: multiset<Key>, a1: multiset<Key>, o1: multiset<Key>,
      n: multiset<Key>, a2: multiset<Key>, o2: multiset<Key>)
    requires a1 + o0 == a0 + m + o1 && a2 + o1 == a1 + n + o2
    ensures a2 + o0 == a0 + (m + n) + o2
  {
    forall x ensures (a2 + o0)[x] == (a0 + (m + n) + o2)[x] {
      assert (a1 + o0)[x] == (a0 + m + o1)[x] && (a2 + o1)[x] == (a1 + n + o2)[x];
    }
  }

  lemma SameStatuses(s: State, t: State, script: Script)
    requires t.ran == s.ran && |t.statuses| == |s.statuses|
    requires forall i :: 0 <= i < |s.statuses| ==> t.statuses[i].key == s.statuses[i].key
    ensures GivenFor(s, multiset{}, t, script)
  {
    SameGiven(s.statuses, t.statuses);
  }

  lemma RunOneGiven(s: State, c: nat, script: Script)
    requires c < |s.statuses|
    ensures GivenFor(s, multiset{}, RunOne(s, c, script(c)), script)
  {
    var t := Started(s, c);
    SameGiven(s.statuses, t.statuses);
    assert (s.ran + [c])[..|s.ran|] == s.ran;
    RequestAllMeans(t, script(c));
  }

  lemma {:induction false} RunUpToGiven(s: State, key: Key, cbs: seq<nat>, n: nat, script: Script)
    requires Running(s, key, cbs, 0) && n <= |cbs|
    ensures GivenFor(s, multiset{}, RunUpTo(s, cbs, n, script), script)
  {
    if n == 0 {
      SameStatuses(s, s, script);
    } else {
      var m := n - 1;
      var t := RunUpTo(s, cbs, m, script);
      RunUpToGiven(s, key, cbs, m, script);
      RunUpToRunning(s, key, cbs, m, script);
      NextGiven(s, t, RunUpTo(s, cbs, n, script), key, cbs, m, script);
    }
  }

  lemma NextGiven(s: State, t: State, u: State, key: Key, cbs: seq<nat>, m: nat, script: Script)
    requires GivenFor(s, multiset{}, t, script) && Running(t, key, cbs, m) && m < |cbs|
    requires u == RunOne(t, cbs[m], script(cbs[m]))
    ensures GivenFor(s, multiset{}, u, script)
  {
    assert t.entries[key].callbacks[m] == cbs[m];
    RunOneGiven(t, cbs[m], script);
    GivenOn(s, multiset{}, t, multiset{}, u, multiset{}, script);
  }

  lemma EraseGiven(t: State, key: Key, cbs: seq<nat>, script: Script)
    requires Running(t, key, cbs, |cbs|)
    ensures GivenFor(t, multiset{}, Erase(t, key), script)
  {
    EraseKeepsInv(t, key, cbs);
    forall c | 0 <= c < |t.statuses| ensures Erase(t, key).statuses[c].key == t.statuses[c].key {
      var all := t.entries[key].callbacks;
      if c in all[|cbs|..] {
        var i :| 0 <= i < |all[|cbs|..]| && all[|cbs|..][i] == c;
        assert all[|cbs| + i] == c;
      }
    }
    SameStatuses(t, Erase(t, key), script);
  }

  lemma FinishGiven(s: State, key: Key, script: Script)
    requires Inv(s) && key in s.entries && s.entries[key].requestId != 0
    ensures GivenFor(s, multiset{}, Finish(s, key, script), script)
  {
    var cbs := s.entries[key].callbacks;
    StartRunning(s, key);
    var t := RunUpTo(s, cbs, |cbs|, script);
    RunUpToRunning(s, key, cbs, |cbs|, script);
    RunUpToGiven(s, key, cbs, |cbs|, script);
    EraseGiven(t, key, cbs, script);
    GivenOn(s, multiset{}, t, multiset{}, Erase(t, key), multiset{}, script);
  }

  lemma {:induction false} FinalizeGiven(s: State, r: nat, script: Script)
    requires Inv(s) && r in s.inFlight
    ensures GivenFor(s, multiset{}, Finalize(s, r, script), script)
    decreases |s.inFlight[r].ids|
  {
    var b := s.inFlight[r];
    if b.ids == {} {
      SameStatuses(s, Finalize(s, r, script), script);
    } else {
      var key := Key(b.channel, Least(b.ids));
      assert BatchFits(s, r);
      var t := Finish(s, key, script);
      FinishGiven(s, key, script);
      assert |t.inFlight[r].ids| < |b.ids|;
      FinalizeGiven(t, r, script);
      GivenOn(s, multiset{}, t, multiset{}, Finalize(t, r, script), multiset{}, script);
      assert Finalize(s, r, script) == Finalize(t, r, script);
    }
  }

  lemma StepGiven(s: State, step: Step, script: Script)
    requires Inv(s)
    ensures GivenFor(s, if step.Asked? then KeysOf([step.ask]) else multiset{}, Next(s, step, script), script)
  {
    if Enabled(s, step) {
      match step
      case Asked(a) => RequestMeans(s, a);
      case Resolved(n) =>
        ResolveKeepsStatuses(s, n);
        SameStatuses(s, Resolve(s, n), script);
      case Answered(r) => FinalizeGiven(s, r, script);
    } else {
      SameStatuses(s, s, script);
    }
  }

  lemma {:induction false} RunGiven(steps: seq<Step>, script: Script)
    ensures Inv(INITIAL) && GivenFor(INITIAL, StepKeys(steps), Run(INITIAL, steps, script), script)
  {
    InitialInv();
    if steps == [] {
      SameStatuses(INITIAL, INITIAL, script);
    } else {
      var front, step := steps[..|steps| - 1], steps[|steps| - 1];
      RunGiven(front, script);
      var s := Run(INITIAL, front, script);
      StepGiven(s, step, script);
      GivenOn(INITIAL, StepKeys(front), s, if step.Asked? then KeysOf([step.ask]) else multiset{},
              Next(s, step, script), StepKeys(steps), script);
    }
  }

  // Main result, for every run: the callbacks given, message by message, are those the steps
  // asked with and those the callbacks that ran asked with.
  lemma EveryAskIsGiven(steps: seq<Step>, script: Script)
    ensures Inv(INITIAL)
    ensures var s := Run(INITIAL, steps, script);
            Given(s.statuses) == StepKeys(steps) + Owed(s.ran, script)
  {
    RunGiven(steps, script);
    var s := Run(INITIAL, steps, script);
    NothingBefore(Given(s.statuses), StepKeys(steps), Owed(s.ran, script));
  }

  lemma NothingBefore(a: multiset<Key>, b: multiset<Key>, c: multiset<Key>)
    requires a + multiset{} == multiset{} + b + c
    ensures a == b + c
  {
    assert a == a + multiset{} && b == multiset{} + b;
  }

  // A callback that asks again for its own message: the second one never runs.
  function AskAgain(key: Key): Script {
    c => if c == 0 then [Ask(key, true)] else []
  }

  const FIRST := Key(0, 7)

  lemma ExampleSent()
    ensures Resolve(Request(INITIAL, Ask(FIRST, true)), 1)
         == State(map[FIRST := Entry(1, [0])], false, 2, map[1 := Batch(0, {7})], [Waiting(FIRST)], [])
  {
    var s := Request(INITIAL, Ask(FIRST, true));
    assert s.entries[FIRST].callbacks == [0] && s.entries == map[FIRST := Entry(0, [0])];
    assert s == State(map[FIRST := Entry(0, [0])], true, 1, map[], [Waiting(FIRST)], []);
    assert ResolveUpTo(s, 0) == s;
    assert FIRST.msg in Unasked(s, 0);
    assert Unasked(s, 0) == {7};
    assert ResolveUpTo(s, 1) == Send(s, 0);
    assert Send(s, 0).entries == map[FIRST := Entry(1, [0])];
    assert Send(s, 0).inFlight == map[1 := Batch(0, {7})];
  }

  lemma ExampleAnswered(s: State)
    requires s == State(map[FIRST := Entry(1, [0])], false, 2, map[1 := Batch(0, {7})], [Waiting(FIRST)], [])
    requires Inv(s)
    ensures Finalize(s, 1, AskAgain(FIRST)) == State(map[], false, 2, map[], [Ran(FIRST), Lost(FIRST)], [0])
  {
    var script := AskAgain(FIRST);
    var m := Least(s.inFlight[1].ids);
    assert 7 in s.inFlight[1].ids && m == 7;
    var u := Started(s, 0);
    var asks := script(0);
    assert asks[..0] == [] && RequestAll(u, asks[..0]) == u;
    var t := RequestAll(u, asks);
    assert t == Request(u, Ask(FIRST, true));
    assert t.entries[FIRST].callbacks == [0, 1] && t.entries == map[FIRST := Entry(1, [0, 1])];
    assert t == State(map[FIRST := Entry(1, [0, 1])], false, 2, map[1 := Batch(0, {7})],
                      [Ran(FIRST), Waiting(FIRST)], [0]);
    assert RunUpTo(s, [0], 0, script) == s;
    assert RunUpTo(s, [0], 1, script) == t;
    var v := Finish(s, FIRST, script);
    assert v == Erase(t, FIRST);
    assert v.entries == map[] && v.inFlight[1].ids == {};
    assert v.statuses == [Ran(FIRST), Lost(FIRST)];
    assert Finalize(s, 1, script) == Finalize(v, 1, script);
    assert v.inFlight - {1} == map[];
  }

  lemma RunStep(s: State, steps: seq<Step>, step: Step, script: Script)
    requires Inv(s)
    ensures Run(s, steps + [step], script) == Next(Run(s, steps, script), step, script)
  {
    assert (steps + [step])[..|steps|] == steps;
  }

  lemma AskingAgainIsLost()
    ensures Inv(INITIAL)
    ensures Run(INITIAL, [Asked(Ask(FIRST, true)), Resolved(1), Answered(1)], AskAgain(FIRST))
         == State(map[], false, 2, map[], [Ran(FIRST), Lost(FIRST)], [0])
  {
    InitialInv();
    var script := AskAgain(FIRST);
    var steps := [Asked(Ask(FIRST, true)), Resolved(1)];
    var s := Request(INITIAL, Ask(FIRST, true));
    RunStep(INITIAL, [], Asked(Ask(FIRST, true)), script);
    RunStep(INITIAL, [Asked(Ask(FIRST, true))], Resolved(1), script);
    assert [Asked(Ask(FIRST, true))] + [Resolved(1)] == steps;
    assert Below(s.entries.Keys, 1);
    ExampleSent();
    var t := Resolve(s, 1);
    assert Run(INITIAL, steps, script) == t;
    ExampleAnswered(t);
    RunStep(INITIAL, steps, Answered(1), script);
    assert steps + [Answered(1)] == [Asked(Ask(FIRST, true)), Resolved(1), Answered(1)];
  }

  // ---- The cursor over the entries of a channel ----------------------------------------------

  predicate Beyond(m: int, after: Option<int>) {
    after.None? || after.value < m
  }

  // `m` is the first message of `channel` after `after`, if there is one.
  ghost predicate Follows(entries: map<Key, Entry>, channel: nat, after: Option<int>, m: Option<int>) {
    && (m.None? ==> forall k :: k in entries && k.channel == channel ==> !Beyond(k.msg, after))
    && (m.Some? ==>
          && Key(channel, m.value) in entries && Beyond(m.value, after)
          && forall k :: k in entries && k.channel == channel && Beyond(k.msg, after) ==> m.value <= k.msg)
  }

  ghost function After(keys: set<Key>, channel: nat, i: Option<int>): set<Key> {
    set k | k in keys && k.channel == channel && i.Some? && i.value <= k.msg
  }

  // The messages of request `r` that are left are at the cursor or after it.
  ghost predicate Ahead(s: State, r: nat, i: Option<int>)
    requires r in s.inFlight
  {
    forall m :: m in s.inFlight[r].ids ==> i.Some? && i.value <= m
  }

  lemma CursorAhead(s: State, r: nat, after: Option<int>, i: Option<int>)
    requires Inv(s) && r in s.inFlight && Follows(s.entries, s.inFlight[r].channel, after, i)
    requires forall m :: m in s.inFlight[r].ids ==> Beyond(m, after)
    ensures Ahead(s, r, i)
  {
    assert BatchFits(s, r);
    forall m | m in s.inFlight[r].ids ensures i.Some? && i.value <= m {
      assert Key(s.inFlight[r].channel, m) in s.entries;
    }
  }

  lemma CursorMoves(keys: set<Key>, channel: nat, i: int, j: Option<int>)
    requires Key(channel, i) in keys && (j.Some? ==> i < j.value)
    ensures |After(keys, channel, j)| < |After(keys, channel, Some(i))|
  {
    var before, after := After(keys, channel, Some(i)), After(keys, channel, j);
    assert Key(channel, i) in before - after;
    assert after + (before - after) == before;
  }

  lemma FinishAtCursor(s: State, r: nat, i: int, script: Script)
    requires Inv(s) && r in s.inFlight && Ahead(s, r, Some(i))
    requires Key(s.inFlight[r].channel, i) in s.entries && s.entries[Key(s.inFlight[r].channel, i)].requestId == r != 0
    ensures var t := Finish(s, Key(s.inFlight[r].channel, i), script);
            && Inv(t) && r in t.inFlight && t.inFlight[r].channel == s.inFlight[r].channel
            && |t.inFlight[r].ids| < |s.inFlight[r].ids|
            && Finalize(t, r, script) == Finalize(s, r, script)
            && forall m :: m in t.inFlight[r].ids ==> i < m
  {
    var key := Key(s.inFlight[r].channel, i);
    assert Tagged(s, key);
    assert Least(s.inFlight[r].ids) == i;
    assert BatchFits(s, r);
    var t := Finish(s, key, script);
    assert t.inFlight[r].ids == s.inFlight[r].ids - {i};
    assert Finalize(s, r, script) == Finalize(t, r, script);
  }

  // Dealing with the answer to `r` has come from `s0` to `s`, with the cursor at `i`.
  ghost predicate Visiting(s0: State, s: State, r: nat, channel: nat, i: Option<int>, script: Script)
    requires Inv(s0) && r in s0.inFlight
  {
    && Inv(s) && r in s.inFlight && s.inFlight[r].channel == channel
    && Finalize(s, r, script) == Finalize(s0, r, script)
    && (i.Some? ==> Key(channel, i.value) in s.entries) && Ahead(s, r, i)
  }

  lemma NothingAhead(s: State, r: nat, script: Script)
    requires Inv(s) && r in s.inFlight && Ahead(s, r, None)
    ensures Finalize(s, r, script) == s.(inFlight := s.inFlight - {r})
    ensures Inv(Finalize(s, r, script))
  {
    HasMember(s.inFlight[r].ids);
  }

  lemma PassOver(s: State, r: nat, i: int)
    requires Inv(s) && r in s.inFlight && Ahead(s, r, Some(i))
    requires Key(s.inFlight[r].channel, i) in s.entries && s.entries[Key(s.inFlight[r].channel, i)].requestId != r
    ensures forall m :: m in s.inFlight[r].ids ==> i < m
  {
    assert BatchFits(s, r);
  }

  // ---- The class -------------------------------------------------------------------------------

  class ApiWrap {
    var entries: map<Key, Entry>
    var queued: bool
    var nextRequest: nat
    // The requests on their way, as the server knows them.
    var inFlight: map<nat, Batch>
    // What became of the callbacks.
    var statuses: seq<Status>
    var ran: seq<nat>
    // What the callbacks do.
    const script: Script

    constructor (script: Script)
      ensures View() == INITIAL && this.script == script
    {
      entries, queued, nextRequest, inFlight, statuses, ran := map[], false, 1, map[], [], [];
      this.script := script;
    }

    function View(): State
      reads this
    {
      State(entries, queued, nextRequest, inFlight, statuses, ran)
    }

    method RequestMessageData(key: Key, callback: bool)
      modifies this
      ensures View() == Request(old(View()), Ask(key, callback))
    {
      if key !in entries {
        entries := entries[key := Entry(0, [])];
      }
      var req := entries[key];
      if callback {
        req := req.(callbacks := req.callbacks + [|statuses|]);
        entries := entries[key := req];
        statuses := statuses + [Waiting(key)];
      }
      if req.requestId == 0 {
        queued := true;
      }
    }

    // A callback runs, and asks.
    method Call(c: nat)
      requires c < |statuses|
      modifies this
      ensures View() == RunOne(old(View()), c, script(c))
    {
      ran := ran + [c];
      statuses := statuses[c := Ran(statuses[c].key)];
      ghost var s := View();
      var asks := script(c);
      for i := 0 to |asks|
        invariant View() == RequestAll(s, asks[..i])
      {
        RequestMessageData(asks[i].key, asks[i].callback);
        assert asks[..i + 1][..i] == asks[..i];
      }
      assert asks[..|asks|] == asks;
    }

    // The ids of one channel that wait for a request.
    method CollectMessageIds(channel: nat) returns (ids: set<int>)
      ensures ids == Unasked(View(), channel)
    {
      ids := {};
      var left := entries.Keys;
      while left != {}
        invariant left <= entries.Keys
        invariant ids == set k | k in entries.Keys - left && k.channel == channel && entries[k].requestId == 0 :: k.msg
        decreases |left|
      {
        var k :| k in left;
        ghost var before := entries.Keys - left;
        left := left - {k};
        assert entries.Keys - left == before + {k};
        if k.channel == channel && entries[k].requestId == 0 {
          ids := ids + {k.msg};
        }
      }
    }

    // A request for them, and its id in their entries.
    method SendChannel(channel: nat)
      modifies this
      ensures View() == Send(old(View()), channel)
    {
      var ids := CollectMessageIds(channel);
      if ids != {} {
        var requestId := nextRequest;
        nextRequest := nextRequest + 1;
        inFlight := inFlight[requestId := Batch(channel, ids)];
        TagEntries(channel, requestId);
      }
    }

    method TagEntries(channel: nat, requestId: nat)
      modifies this`entries
      ensures entries == map k | k in old(entries) ::
                if k.channel == channel && old(entries)[k].requestId == 0
                then old(entries)[k].(requestId := requestId) else old(entries)[k]
    {
      ghost var was := entries;
      var left := entries.Keys;
      while left != {}
        invariant entries.Keys == was.Keys && left <= was.Keys
        invariant forall k :: k in was ==>
          entries[k] == if k !in left && k.channel == channel && was[k].requestId == 0
                        then was[k].(requestId := requestId) else was[k]
        decreases |left|
      {
        var k :| k in left;
        left := left - {k};
        if k.channel == channel && entries[k].requestId == 0 {
          entries := entries[k := entries[k].(requestId := requestId)];
        }
      }
    }

    // One past the last channel with an entry.
    method Channels() returns (n: nat)
      ensures Below(entries.Keys, n)
    {
      n := 0;
      var left := entries.Keys;
      while left != {}
        invariant left <= entries.Keys && Below(entries.Keys - left, n)
        decreases |left|
      {
        var k :| k in left;
        left := left - {k};
        if n <= k.channel { n := k.channel + 1; }
      }
    }

    // The queued call.
    method ResolveMessageDatas() returns (ghost channels: nat)
      requires queued
      modifies this
      ensures Below(old(entries.Keys), channels)
      ensures View() == Resolve(old(View()), channels)
    {
      var n := Channels();
      channels := n;
      for channel := 0 to n
        invariant View() == ResolveUpTo(old(View()), channel)
      {
        SendChannel(channel);
      }
      queued := false;
    }

    // The first message of `channel` after `after`.
    method Following(channel: nat, after: Option<int>) returns (m: Option<int>)
      ensures Follows(entries, channel, after, m)
    {
      m := None;
      var left := entries.Keys;
      while left != {}
        invariant left <= entries.Keys
        invariant m.None? ==> forall k :: k in entries && k !in left && k.channel == channel ==> !Beyond(k.msg, after)
        invariant m.Some? ==>
          && Key(channel, m.value) in entries && Beyond(m.value, after)
          && forall k :: k in entries && k !in left && k.channel == channel && Beyond(k.msg, after) ==> m.value <= k.msg
        decreases |left|
      {
        var k :| k in left;
        left := left - {k};
        if k.channel == channel && Beyond(k.msg, after) && (m.None? || k.msg < m.value) {
          m := Some(k.msg);
        }
      }
    }

    // The callbacks in the entry run; the entry goes.
    method FinishEntry(key: Key)
      requires Inv(View()) && key in entries && entries[key].requestId != 0
      modifies this
      ensures View() == Finish(old(View()), key, script)
    {
      var callbacks := entries[key].callbacks;
      ghost var s := View();
      StartRunning(s, key);
      for i := 0 to |callbacks|
        invariant View() == RunUpTo(s, callbacks, i, script)
      {
        RunUpToRunning(s, key, callbacks, i, script);
        assert View().entries[key].callbacks[i] == callbacks[i];
        Call(callbacks[i]);
      }
      RunUpToRunning(s, key, callbacks, |callbacks|, script);
      EraseEntry(key);
    }

    method EraseEntry(key: Key)
      requires key in entries
      modifies this
      ensures View() == Erase(old(View()), key)
    {
      var t := Erase(View(), key);
      statuses := t.statuses;
      inFlight := t.inFlight;
      entries := entries - {key};
    }

    // The entry at the cursor, if it is of this request.
    method VisitEntry(channel: nat, m: int, requestId: nat)
      requires Inv(View()) && requestId in inFlight && inFlight[requestId].channel == channel
      requires Key(channel, m) in entries && Ahead(View(), requestId, Some(m))
      modifies this
      ensures Inv(View()) && requestId in inFlight && inFlight[requestId].channel == channel
      ensures Finalize(View(), requestId, script) == Finalize(old(View()), requestId, script)
      ensures forall n :: n in inFlight[requestId].ids ==> m < n
      ensures |inFlight[requestId].ids| < |old(inFlight[requestId].ids)| || View() == old(View())
    {
      assert BatchFits(View(), requestId);
      var key := Key(channel, m);
      if entries[key].requestId == requestId {
        FinishAtCursor(View(), requestId, m, script);
        FinishEntry(key);
      } else {
        PassOver(View(), requestId, m);
      }
    }

    // The round of the loop at message `m`, and where the cursor goes.
    method VisitAndGo(channel: nat, m: int, requestId: nat) returns (i: Option<int>)
      requires Inv(View()) && requestId in inFlight && inFlight[requestId].channel == channel
      requires Key(channel, m) in entries && Ahead(View(), requestId, Some(m))
      modifies this
      ensures Visiting(old(View()), View(), requestId, channel, i, script)
      ensures || |inFlight[requestId].ids| < |old(inFlight[requestId].ids)|
              || (inFlight == old(inFlight)
                  && |After(entries.Keys, channel, i)| < |After(old(entries).Keys, channel, Some(m))|)
    {
      VisitEntry(channel, m, requestId);
      ghost var t := View();
      i := Following(channel, Some(m));
      CursorAhead(t, requestId, Some(m), i);
      if Key(channel, m) in entries { CursorMoves(entries.Keys, channel, m, i); }
    }

    method FinalizeMessageDataRequest(requestId: nat)
      requires Inv(View()) && requestId in inFlight
      modifies this
      ensures View() == Finalize(old(View()), requestId, script)
      ensures Inv(View())
    {
      ghost var s := View();
      var channel := inFlight[requestId].channel;
      var i := Following(channel, None);
      CursorAhead(s, requestId, None, i);
      while i.Some?
        invariant Visiting(s, View(), requestId, channel, i, script)
        decreases |inFlight[requestId].ids|, |After(entries.Keys, channel, i)|
      {
        i := VisitAndGo(channel, i.value, requestId);
      }
      NothingAhead(View(), requestId, script);
      inFlight := inFlight - {requestId};
    }
  }
}
