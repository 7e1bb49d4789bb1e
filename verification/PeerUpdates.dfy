// Peer updates wait in a short list, and in a map once the list is full, until they
// are all sent at once.
module PeerUpdates {
  import opened Options
  import opened Sets

  // Flags as the set of their bits.
  const NAME_CHANGED: nat := 0

  datatype Update = Update(peer: int, flags: set<nat>, letters: set<char>)

  // `small` and `all` are what waits; `queued` says that a call to send them is queued. `posted`
  // are the updates posted since the last time all were sent, `ever` all updates posted, `sent`
  // all updates sent.
  datatype State = State(
    small: seq<Update>, all: map<int, Update>, queued: bool,
    posted: seq<Update>, ever: seq<Update>, sent: seq<Update>)

  const INITIAL := State([], map[], false, [], [], [])

  function Merge(to: Update, from: Update): Update {
    var letters := if NAME_CHANGED !in to.flags && NAME_CHANGED in from.flags then from.letters else to.letters;
    Update(to.peer, to.flags + from.flags, letters)
  }

  function IndexOf(us: seq<Update>, peer: int): (k: nat)
    ensures k <= |us| && (k < |us| ==> us[k].peer == peer)
    ensures forall i :: 0 <= i < k ==> us[i].peer != peer
  {
    if us == [] || us[0].peer == peer then 0 else 1 + IndexOf(us[1..], peer)
  }

  function Post(s: State, u: Update): State {
    var t := s.(queued := true, posted := s.posted + [u], ever := s.ever + [u]);
    var k := IndexOf(s.small, u.peer);
    if k < |s.small| then t.(small := s.small[k := Merge(s.small[k], u)])
    else if s.all == map[] && |s.small| < 5 then t.(small := s.small + [u])
    else if u.peer in s.all then t.(all := s.all[u.peer := Merge(s.all[u.peer], u)])
    else t.(all := s.all[u.peer := u])
  }

  function PostAll(s: State, us: seq<Update>): State {
    if us == [] then s else Post(PostAll(s, us[..|us| - 1]), us[|us| - 1])
  }

  // What the handlers post when the n-th update is sent.
  type Script = nat -> seq<Update>

  function SendOne(s: State, u: Update, script: Script): State {
    PostAll(s.(sent := s.sent + [u]), script(|s.sent|))
  }

  function SendAll(s: State, batch: seq<Update>, script: Script): State {
    if batch == [] then s
    else SendOne(SendAll(s, batch[..|batch| - 1], script), batch[|batch| - 1], script)
  }

  // The values of the map in the order of its keys.
  ghost predicate Lists(all: map<int, Update>, list: seq<Update>) {
    && (forall i, j :: 0 <= i < j < |list| ==> list[i].peer < list[j].peer)
    && forall u :: u in list <==> u.peer in all && all[u.peer] == u
  }

  // The queued call is no longer queued when it runs.
  function Taken(s: State, fromQueue: bool): State {
    s.(small := [], all := map[], posted := [], queued := s.queued && !fromQueue)
  }

  function Flush(s: State, list: seq<Update>, script: Script, fromQueue: bool): State {
    if s.small == [] then s.(queued := s.queued && !fromQueue)
    else SendAll(Taken(s, fromQueue), s.small + list, script)
  }

  // ---- What an update to be sent amounts to ------------------------------------------------

  function MergedFor(us: seq<Update>, peer: int): Option<Update> {
    if us == [] then None
    else
      var u, before := us[|us| - 1], MergedFor(us[..|us| - 1], peer);
      if u.peer != peer then before
      else if before.None? then Some(u)
      else Some(Merge(before.value, u))
  }

  function FlagsOf(us: seq<Update>, peer: int): set<nat> {
    if us == [] then {}
    else FlagsOf(us[..|us| - 1], peer) + if us[|us| - 1].peer == peer then us[|us| - 1].flags else {}
  }

  // The letters of the first update of the peer that changed its name.
  function NamedFirst(us: seq<Update>, peer: int): Option<set<char>> {
    if us == [] then None
    else
      var u, before := us[|us| - 1], NamedFirst(us[..|us| - 1], peer);
      if before.None? && u.peer == peer && NAME_CHANGED in u.flags then Some(u.letters) else before
  }

  lemma MergedMore(us: seq<Update>, u: Update, peer: int)
    ensures MergedFor(us + [u], peer) ==
            var before := MergedFor(us, peer);
            if u.peer != peer then before else if before.None? then Some(u) else Some(Merge(before.value, u))
  {
    assert (us + [u])[..|us|] == us;
  }

  // Merging is: all flags of the peer, and the letters of the first change of its name.
  lemma {:induction false} MergedMeans(us: seq<Update>, peer: int)
    ensures MergedFor(us, peer).None? <==> forall i :: 0 <= i < |us| ==> us[i].peer != peer
    ensures MergedFor(us, peer).None? ==> FlagsOf(us, peer) == {} && NamedFirst(us, peer).None?
    ensures MergedFor(us, peer).Some? ==>
              var m := MergedFor(us, peer).value;
              && m.peer == peer && m.flags == FlagsOf(us, peer)
              && (NamedFirst(us, peer).Some? <==> NAME_CHANGED in m.flags)
              && (NamedFirst(us, peer).Some? ==> m.letters == NamedFirst(us, peer).value)
  {
    if us != [] {
      MergedMeans(us[..|us| - 1], peer);
      assert us == us[..|us| - 1] + [us[|us| - 1]];
    }
  }

  // ---- The invariant ---------------------------------------------------------------------------

  ghost predicate Distinct(us: seq<Update>) {
    forall i, j :: 0 <= i < j < |us| ==> us[i].peer != us[j].peer
  }

  // Each peer is in one place, merged; the map is used only when the list is full.
  ghost predicate Shape(s: State) {
    && |s.small| <= 5 && Distinct(s.small)
    && (s.all != map[] ==> |s.small| == 5)
    && (s.small != [] ==> s.queued)
    && (forall i {:trigger s.small[i]} :: 0 <= i < |s.small| ==> s.small[i].peer !in s.all)
  }

  function WaitingFor(s: State, peer: int): Option<Update> {
    var k := IndexOf(s.small, peer);
    if k < |s.small| then Some(s.small[k]) else if peer in s.all then Some(s.all[peer]) else None
  }

  // `rest` is what is taken out but not sent yet.
  ghost predicate Inv(s: State, rest: seq<Update>) {
    && Shape(s)
    && (forall p {:trigger WaitingFor(s, p)} :: WaitingFor(s, p) == MergedFor(s.posted, p))
    && (forall p {:trigger FlagsOf(s.ever, p)} ::
          FlagsOf(s.ever, p) == FlagsOf(s.sent, p) + FlagsOf(rest, p) + FlagsOf(s.posted, p))
  }

  lemma PostKeepsShape(s: State, u: Update)
    requires Shape(s)
    ensures Shape(Post(s, u))
  {
  }

  lemma IndexOfReplaced(us: seq<Update>, k: nat, u: Update, peer: int)
    requires k < |us| && us[k].peer == u.peer
    ensures IndexOf(us[k := u], peer) == IndexOf(us, peer)
  {
    var vs := us[k := u];
    var i, j := IndexOf(us, peer), IndexOf(vs, peer);
    assert forall n {:trigger vs[n]} :: 0 <= n < |us| ==> vs[n].peer == us[n].peer;
    assert i < |us| ==> vs[i].peer == peer;
    assert j < |us| ==> us[j].peer == peer;
  }

  lemma IndexOfPushed(us: seq<Update>, u: Update, peer: int)
    requires IndexOf(us, u.peer) == |us|
    ensures IndexOf(us + [u], peer)
            == if IndexOf(us, peer) < |us| then IndexOf(us, peer) else if u.peer == peer then |us| else |us| + 1
  {
    var vs := us + [u];
    var i, j := IndexOf(us, peer), IndexOf(vs, peer);
    assert forall n {:trigger vs[n]} :: 0 <= n < |us| ==> vs[n] == us[n];
    assert vs[|us|] == u;
    assert i < |us| ==> vs[i].peer == peer;
  }

  lemma PostWaits(s: State, u: Update, peer: int)
    requires Shape(s)
    ensures WaitingFor(Post(s, u), peer) ==
            var before := WaitingFor(s, peer);
            if u.peer != peer then before else if before.None? then Some(u) else Some(Merge(before.value, u))
  {
    var k := IndexOf(s.small, u.peer);
    if k < |s.small| {
      IndexOfReplaced(s.small, k, Merge(s.small[k], u), peer);
    } else if s.all == map[] && |s.small| < 5 {
      IndexOfPushed(s.small, u, peer);
    }
  }

  lemma FlagsMore(us: seq<Update>, u: Update, peer: int)
    ensures FlagsOf(us + [u], peer) == FlagsOf(us, peer) + if u.peer == peer then u.flags else {}
  {
    assert (us + [u])[..|us|] == us;
  }

  lemma PostBalances(s: State, rest: seq<Update>, u: Update, p: int)
    requires FlagsOf(s.ever, p) == FlagsOf(s.sent, p) + FlagsOf(rest, p) + FlagsOf(s.posted, p)
    ensures var t := Post(s, u);
            FlagsOf(t.ever, p) == FlagsOf(t.sent, p) + FlagsOf(rest, p) + FlagsOf(t.posted, p)
  {
    var t := Post(s, u);
    assert t.ever == s.ever + [u] && t.posted == s.posted + [u] && t.sent == s.sent;
    FlagsMore(s.ever, u, p);
    FlagsMore(s.posted, u, p);
  }

  lemma PostKeepsInv(s: State, rest: seq<Update>, u: Update)
    requires Inv(s, rest)
    ensures Inv(Post(s, u), rest)
  {
    var t := Post(s, u);
    PostKeepsShape(s, u);
    forall p ensures WaitingFor(t, p) == MergedFor(t.posted, p) {
      assert WaitingFor(s, p) == MergedFor(s.posted, p);
      PostWaits(s, u, p);
      MergedMore(s.posted, u, p);
      assert t.posted == s.posted + [u];
    }
    forall p ensures FlagsOf(t.ever, p) == FlagsOf(t.sent, p) + FlagsOf(rest, p) + FlagsOf(t.posted, p) {
      PostBalances(s, rest, u, p);
    }
  }

  lemma {:induction false} PostAllKeepsInv(s: State, rest: seq<Update>, us: seq<Update>)
    requires Inv(s, rest)
    ensures Inv(PostAll(s, us), rest)
  {
    if us != [] {
      PostAllKeepsInv(s, rest, us[..|us| - 1]);
      PostKeepsInv(PostAll(s, us[..|us| - 1]), rest, us[|us| - 1]);
    }
  }

  // ---- Sending ---------------------------------------------------------------------------------

  lemma {:induction false} FlagsHead(us: seq<Update>, peer: int)
    requires us != []
    ensures FlagsOf(us, peer) == (if us[0].peer == peer then us[0].flags else {}) + FlagsOf(us[1..], peer)
  {
    if |us| > 1 {
      FlagsHead(us[..|us| - 1], peer);
      assert us[..|us| - 1][1..] == us[1..][..|us| - 2];
    } else {
      assert us[..0] == [] && us[1..] == [];
    }
  }

  lemma SentKeepsInv(s: State, rest: seq<Update>)
    requires Inv(s, rest) && rest != []
    ensures Inv(s.(sent := s.sent + [rest[0]]), rest[1..])
  {
    var t := s.(sent := s.sent + [rest[0]]);
    forall p ensures WaitingFor(t, p) == MergedFor(t.posted, p) {
      assert WaitingFor(s, p) == MergedFor(s.posted, p);
    }
    forall p ensures FlagsOf(t.ever, p) == FlagsOf(t.sent, p) + FlagsOf(rest[1..], p) + FlagsOf(t.posted, p) {
      FlagsHead(rest, p);
      FlagsMore(s.sent, rest[0], p);
    }
  }

  lemma SendOneKeepsInv(s: State, rest: seq<Update>, script: Script)
    requires Inv(s, rest) && rest != []
    ensures Inv(SendOne(s, rest[0], script), rest[1..])
  {
    SentKeepsInv(s, rest);
    PostAllKeepsInv(s.(sent := s.sent + [rest[0]]), rest[1..], script(|s.sent|));
  }

  lemma {:induction false} SendAllKeepsInv(s: State, batch: seq<Update>, n: nat, script: Script)
    requires Inv(s, batch) && n <= |batch|
    ensures Inv(SendAll(s, batch[..n], script), batch[n..])
  {
    if n == 0 {
      assert batch[..0] == [] && batch[0..] == batch;
    } else {
      var m := n - 1;
      SendAllKeepsInv(s, batch, m, script);
      var t := SendAll(s, batch[..m], script);
      SendOneKeepsInv(t, batch[m..], script);
      assert batch[..n][..m] == batch[..m] && batch[m..][1..] == batch[n..];
      assert SendAll(s, batch[..n], script) == SendOne(t, batch[m], script);
    }
  }

  // What the handlers post while updates number `from` to `from + n` are sent.
  function Posts(script: Script, from: nat, n: nat): seq<Update> {
    if n == 0 then [] else Posts(script, from, n - 1) + script(from + n - 1)
  }

  lemma PostLogs(s: State, u: Update)
    ensures var t := Post(s, u);
            t.sent == s.sent && t.posted == s.posted + [u] && t.ever == s.ever + [u]
  {
  }

  lemma {:induction false} PostAllLogs(s: State, us: seq<Update>)
    ensures PostAll(s, us).sent == s.sent && PostAll(s, us).posted == s.posted + us
    ensures PostAll(s, us).ever == s.ever + us
  {
    if us != [] {
      var front, u := us[..|us| - 1], us[|us| - 1];
      PostAllLogs(s, front);
      PostLogs(PostAll(s, front), u);
      assert us == front + [u];
    }
  }

  lemma SendOneLogs(s: State, u: Update, script: Script)
    ensures var t := SendOne(s, u, script);
            t.sent == s.sent + [u] && t.posted == s.posted + script(|s.sent|)
  {
    PostAllLogs(s.(sent := s.sent + [u]), script(|s.sent|));
  }

  lemma JoinRight(a: seq<Update>, b: seq<Update>, c: seq<Update>)
    ensures (a + b) + c == a + (b + c)
  {
  }

  lemma {:induction false} SendAllLogs(s: State, batch: seq<Update>, script: Script)
    ensures var t := SendAll(s, batch, script);
            t.sent == s.sent + batch && t.posted == s.posted + Posts(script, |s.sent|, |batch|)
  {
    if batch != [] {
      var front, u := batch[..|batch| - 1], batch[|batch| - 1];
      SendAllLogs(s, front, script);
      SendOneLogs(SendAll(s, front, script), u, script);
      assert batch == front + [u];
      JoinRight(s.sent, front, [u]);
      JoinRight(s.posted, Posts(script, |s.sent|, |front|), script(|s.sent| + |front|));
    }
  }

  // The batch holds one update per peer that was posted for, merged, and nothing else.
  ghost predicate IsMerged(batch: seq<Update>, posted: seq<Update>) {
    Distinct(batch) && forall u :: u in batch <==> MergedFor(posted, u.peer) == Some(u)
  }

  lemma IndexOfMember(us: seq<Update>, i: nat)
    requires Distinct(us) && i < |us|
    ensures IndexOf(us, us[i].peer) == i
  {
  }

  lemma WaitingMembers(s: State, list: seq<Update>, u: Update)
    requires Shape(s) && Lists(s.all, list)
    ensures u in s.small + list <==> WaitingFor(s, u.peer) == Some(u)
  {
    if u in s.small {
      var i :| 0 <= i < |s.small| && s.small[i] == u;
      IndexOfMember(s.small, i);
    }
    var k := IndexOf(s.small, u.peer);
    assert u in list <==> u.peer in s.all && s.all[u.peer] == u;
    if k < |s.small| { assert s.small[k].peer !in s.all; }
  }

  lemma BatchIsMerged(s: State, list: seq<Update>)
    requires Inv(s, []) && Lists(s.all, list)
    ensures IsMerged(s.small + list, s.posted)
  {
    forall u ensures u in s.small + list <==> MergedFor(s.posted, u.peer) == Some(u) {
      WaitingMembers(s, list, u);
    }
    forall i, j | 0 <= i < |s.small| && 0 <= j < |list| ensures s.small[i].peer != list[j].peer {
      assert list[j] in list;
    }
  }

  lemma {:induction false} FlagsOfDistinct(batch: seq<Update>, peer: int)
    requires Distinct(batch)
    ensures forall u :: u in batch && u.peer == peer ==> FlagsOf(batch, peer) == u.flags
    ensures (forall u :: u in batch ==> u.peer != peer) ==> FlagsOf(batch, peer) == {}
  {
    if batch != [] {
      var front, last := batch[..|batch| - 1], batch[|batch| - 1];
      FlagsOfDistinct(front, peer);
      assert batch == front + [last];
      assert forall i :: 0 <= i < |front| ==> front[i].peer != last.peer;
    }
  }

  lemma BatchFlags(batch: seq<Update>, posted: seq<Update>, peer: int)
    requires IsMerged(batch, posted)
    ensures FlagsOf(batch, peer) == FlagsOf(posted, peer)
  {
    MergedMeans(posted, peer);
    FlagsOfDistinct(batch, peer);
    if MergedFor(posted, peer).Some? {
      assert MergedFor(posted, peer).value in batch;
    } else {
      forall u | u in batch ensures u.peer != peer {
        assert MergedFor(posted, u.peer) == Some(u);
      }
    }
  }

  lemma TakenKeepsInv(s: State, list: seq<Update>, fromQueue: bool)
    requires Inv(s, []) && Lists(s.all, list)
    ensures Inv(Taken(s, fromQueue), s.small + list)
  {
    var t, batch := Taken(s, fromQueue), s.small + list;
    BatchIsMerged(s, list);
    forall p ensures FlagsOf(t.ever, p) == FlagsOf(t.sent, p) + FlagsOf(batch, p) + FlagsOf(t.posted, p) {
      BatchFlags(batch, s.posted, p);
      assert FlagsOf(s.ever, p) == FlagsOf(s.sent, p) + FlagsOf([], p) + FlagsOf(s.posted, p);
    }
  }

  // Main result: all that was posted is sent, once and merged; what the handlers post
  // meanwhile waits for the next time. An empty short list means that nothing waits.
  lemma FlushSendsAll(s: State, list: seq<Update>, script: Script, fromQueue: bool)
    requires Inv(s, []) && Lists(s.all, list)
    ensures Inv(Flush(s, list, script, fromQueue), [])
    ensures s.small == [] ==> s.posted == [] && list == []
    ensures IsMerged(s.small + list, s.posted)
    ensures var t := Flush(s, list, script, fromQueue);
            t.sent == s.sent + (s.small + list)
            && t.posted == Posts(script, |s.sent|, |s.small + list|)
  {
    BatchIsMerged(s, list);
    if s.small == [] {
      NothingWaits(s, list);
      IdleKeepsInv(s, fromQueue);
    } else {
      var batch := s.small + list;
      TakenKeepsInv(s, list, fromQueue);
      SendAllKeepsInv(Taken(s, fromQueue), batch, |batch|, script);
      SendAllLogs(Taken(s, fromQueue), batch, script);
      assert batch[..|batch|] == batch && batch[|batch|..] == [];
    }
  }

  lemma {:induction false} PostAllQueues(s: State, us: seq<Update>)
    ensures PostAll(s, us).queued == (s.queued || us != [])
  {
    if us != [] { PostAllQueues(s, us[..|us| - 1]); }
  }

  lemma {:induction false} SendAllQueues(s: State, batch: seq<Update>, script: Script)
    ensures SendAll(s, batch, script).queued == (s.queued || Posts(script, |s.sent|, |batch|) != [])
  {
    if batch != [] {
      var front, u := batch[..|batch| - 1], batch[|batch| - 1];
      var t := SendAll(s, front, script);
      SendAllQueues(s, front, script);
      SendAllLogs(s, front, script);
      PostAllQueues(t.(sent := t.sent + [u]), script(|t.sent|));
    }
  }

  // After a flush a call is queued exactly when one was queued that is not the one running,
  // or when a handler posted.
  lemma QueuedAfterIff(s: State, list: seq<Update>, script: Script, fromQueue: bool)
    requires Inv(s, []) && Lists(s.all, list)
    ensures Flush(s, list, script, fromQueue).queued
        <==> (s.queued && !fromQueue) || Posts(script, |s.sent|, |s.small + list|) != []
  {
    if s.small == [] {
      NothingWaits(s, list);
    } else {
      SendAllQueues(Taken(s, fromQueue), s.small + list, script);
    }
  }

  lemma FlushKeepsInv(s: State, list: seq<Update>, script: Script, fromQueue: bool)
    requires Inv(s, []) && Lists(s.all, list)
    ensures Inv(Flush(s, list, script, fromQueue), [])
  {
    FlushSendsAll(s, list, script, fromQueue);
  }

  lemma IdleKeepsInv(s: State, fromQueue: bool)
    requires Inv(s, []) && s.small == []
    ensures Inv(s.(queued := s.queued && !fromQueue), [])
  {
    var t := s.(queued := s.queued && !fromQueue);
    forall p ensures WaitingFor(t, p) == MergedFor(t.posted, p) {
      assert WaitingFor(s, p) == MergedFor(s.posted, p);
    }
    forall p ensures FlagsOf(t.ever, p) == FlagsOf(t.sent, p) + FlagsOf([], p) + FlagsOf(t.posted, p) {
      assert FlagsOf(s.ever, p) == FlagsOf(s.sent, p) + FlagsOf([], p) + FlagsOf(s.posted, p);
    }
  }

  lemma ListedAreThere(all: map<int, Update>, list: seq<Update>)
    requires Lists(all, list)
    ensures list != [] ==> all != map[]
  {
    if list != [] {
      assert list[0] in list;
      assert list[0].peer in all;
    }
  }

  lemma NothingWaits(s: State, list: seq<Update>)
    requires Inv(s, []) && Lists(s.all, list) && s.small == []
    ensures s.posted == [] && list == []
  {
    ListedAreThere(s.all, list);
    assert s.posted != [] ==> MergedFor(s.posted, s.posted[|s.posted| - 1].peer).Some?;
    forall p ensures MergedFor(s.posted, p).None? {
      assert WaitingFor(s, p) == MergedFor(s.posted, p);
    }
  }

  // ---- Runs --------------------------------------------------------------------------------------

  datatype Step = Posted(update: Update) | Flushed(list: seq<Update>, script: Script, fromQueue: bool)

  ghost predicate IsStep(s: State, step: Step, t: State) {
    match step
    case Posted(u) => t == Post(s, u)
    case Flushed(list, script, fromQueue) => Lists(s.all, list) && t == Flush(s, list, script, fromQueue)
  }

  ghost predicate IsRun(states: seq<State>, steps: seq<Step>) {
    && |states| == |steps| + 1 && states[0] == INITIAL
    && forall i :: 0 <= i < |steps| ==> IsStep(states[i], steps[i], states[i + 1])
  }

  lemma InitialInv()
    ensures Inv(INITIAL, [])
  {
  }

  lemma {:induction false} ReachableInv(states: seq<State>, steps: seq<Step>)
    requires IsRun(states, steps)
    ensures Inv(states[|steps|], [])
    decreases |steps|
  {
    var n := |steps|;
    if n == 0 {
      InitialInv();
    } else {
      ReachableInv(states[..n], steps[..n - 1]);
      var s, t := states[n - 1], states[n];
      assert IsStep(s, steps[n - 1], t);
      match steps[n - 1]
      case Posted(u) => PostKeepsInv(s, [], u);
      case Flushed(list, script, fromQueue) => FlushSendsAll(s, list, script, fromQueue);
    }
  }

  // Main result, for every run: what waits is queued to be sent, each peer waits in one
  // place, and every flag ever posted for a peer was sent for it or waits for it.
  lemma NoFlagIsLost(states: seq<State>, steps: seq<Step>, peer: int)
    requires IsRun(states, steps)
    ensures var s := states[|steps|];
            && Shape(s)
            && (WaitingFor(s, peer).Some? ==> s.queued)
            && FlagsOf(s.ever, peer) == FlagsOf(s.sent, peer)
                 + if WaitingFor(s, peer).Some? then WaitingFor(s, peer).value.flags else {}
  {
    ReachableInv(states, steps);
    var s := states[|steps|];
    MergedMeans(s.posted, peer);
    assert WaitingFor(s, peer) == MergedFor(s.posted, peer);
    assert FlagsOf(s.ever, peer) == FlagsOf(s.sent, peer) + FlagsOf([], peer) + FlagsOf(s.posted, peer);
  }

  // ---- The functions of the source ----------------------------------------------------------------

  lemma HasLeast(keys: set<int>)
    requires keys != {}
    ensures exists k {:trigger k in keys} :: k in keys && forall i :: i in keys ==> k <= i
  {
    HasMember(keys);
    var x :| x in keys;
    var rest := keys - {x};
    assert forall i :: i in keys ==> i == x || i in rest;
    if rest == {} {
      assert forall i :: i in keys ==> x <= i;
    } else {
      HasLeast(rest);
      var m :| m in rest && forall i :: i in rest ==> m <= i;
      var k := if x < m then x else m;
      assert k in keys && forall i :: i in keys ==> k <= i;
    }
  }

  // All but the keys in `left`, which come later.
  ghost predicate ListsUpTo(all: map<int, Update>, left: set<int>, list: seq<Update>) {
    && left <= all.Keys
    && (forall i, j :: 0 <= i < j < |list| ==> list[i].peer < list[j].peer)
    && (forall u :: u in list <==> u.peer in all && u.peer !in left && all[u.peer] == u)
    && (forall i, p :: 0 <= i < |list| && p in left ==> list[i].peer < p)
  }

  lemma ListsMore(all: map<int, Update>, left: set<int>, list: seq<Update>, k: int)
    requires ListsUpTo(all, left, list) && k in left && (forall i :: i in left ==> k <= i) && all[k].peer == k
    ensures ListsUpTo(all, left - {k}, list + [all[k]])
  {
    var more := list + [all[k]];
    forall i, p | 0 <= i < |more| && p in left - {k} ensures more[i].peer < p {
      assert i < |list| ==> more[i] == list[i];
    }
    forall i, j | 0 <= i < j < |more| ensures more[i].peer < more[j].peer {
      assert more[i] == list[i];
    }
    forall u ensures u in more <==> u.peer in all && u.peer !in left - {k} && all[u.peer] == u {
      assert u in more <==> u in list || u == all[k];
    }
  }

  class Updates {
    var smallUpdates: seq<Update>
    var allUpdates: map<int, Update>
    var queued: bool
    // What happened so far.
    var posted: seq<Update>
    var ever: seq<Update>
    var sent: seq<Update>

    constructor ()
      ensures View() == INITIAL
    {
      smallUpdates, allUpdates, queued, posted, ever, sent := [], map[], false, [], [], [];
    }

    function View(): State
      reads this
    {
      State(smallUpdates, allUpdates, queued, posted, ever, sent)
    }

    method PeerUpdatedDelayed(update: Update)
      modifies this
      ensures View() == Post(old(View()), update)
    {
      queued := true;
      posted, ever := posted + [update], ever + [update];
      ghost var k := IndexOf(smallUpdates, update.peer);
      var existingUpdatesCount := |smallUpdates|;
      for i := 0 to existingUpdatesCount
        invariant i <= k
      {
        if smallUpdates[i].peer == update.peer {
          assert i == k;
          smallUpdates := smallUpdates[i := Merge(smallUpdates[i], update)];
          return;
        }
      }
      if allUpdates == map[] {
        if existingUpdatesCount < 5 {
          smallUpdates := smallUpdates + [update];
        } else {
          allUpdates := allUpdates[update.peer := update];
        }
      } else {
        if update.peer in allUpdates {
          allUpdates := allUpdates[update.peer := Merge(allUpdates[update.peer], update)];
          return;
        }
        allUpdates := allUpdates[update.peer := update];
      }
    }

    method PostAllDelayed(updates: seq<Update>)
      modifies this
      ensures View() == PostAll(old(View()), updates)
    {
      for i := 0 to |updates|
        invariant View() == PostAll(old(View()), updates[..i])
      {
        PeerUpdatedDelayed(updates[i]);
        assert updates[..i + 1][..i] == updates[..i];
      }
      assert updates[..|updates|] == updates;
    }

    // The observers are told, and post.
    method Notify(batch: seq<Update>, script: Script)
      modifies this
      ensures View() == SendAll(old(View()), batch, script)
    {
      for i := 0 to |batch|
        invariant View() == SendAll(old(View()), batch[..i], script)
      {
        ghost var s := View();
        sent := sent + [batch[i]];
        PostAllDelayed(script(|sent| - 1));
        assert View() == SendOne(s, batch[i], script);
        assert batch[..i + 1][..i] == batch[..i];
      }
      assert batch[..|batch|] == batch;
    }

    // The values in the order of their keys.
    method Values(all: map<int, Update>) returns (list: seq<Update>)
      requires forall p :: p in all ==> all[p].peer == p
      ensures Lists(all, list)
    {
      list := [];
      var left := all.Keys;
      while left != {}
        invariant ListsUpTo(all, left, list)
        decreases |left|
      {
        HasLeast(left);
        var k :| k in left && forall i :: i in left ==> k <= i;
        ListsMore(all, left, list, k);
        list := list + [all[k]];
        left := left - {k};
      }
    }

    method PeerUpdatedSendDelayed(script: Script, fromQueue: bool) returns (ghost list: seq<Update>)
      requires Inv(View(), [])
      modifies this
      ensures Lists(old(allUpdates), list)
      ensures View() == Flush(old(View()), list, script, fromQueue) && Inv(View(), [])
    {
      assert forall p :: p in allUpdates ==> allUpdates[p].peer == p by {
        PeersMatch(View());
      }
      var values := Values(allUpdates);
      list := values;
      FlushKeepsInv(View(), list, script, fromQueue);
      if fromQueue { queued := false; }
      if smallUpdates == [] { return; }
      var smallList := smallUpdates;
      smallUpdates, allUpdates, posted := [], map[], [];
      assert View() == Taken(old(View()), fromQueue);
      SendTaken(smallList, values, script);
    }

    method SendTaken(smallList: seq<Update>, allList: seq<Update>, script: Script)
      modifies this
      ensures View() == SendAll(old(View()), smallList + allList, script)
    {
      SendBoth(View(), smallList, allList, script);
      Notify(smallList, script);
      Notify(allList, script);
    }
  }

  lemma PeersMatch(s: State)
    requires Inv(s, [])
    ensures forall p :: p in s.all ==> s.all[p].peer == p
  {
    forall p | p in s.all ensures s.all[p].peer == p {
      MergedMeans(s.posted, p);
      assert WaitingFor(s, p) == MergedFor(s.posted, p);
      assert forall i :: 0 <= i < |s.small| ==> s.small[i].peer !in s.all;
    }
  }

  lemma {:induction false} SendBoth(s: State, a: seq<Update>, b: seq<Update>, script: Script)
    ensures SendAll(s, a + b, script) == SendAll(SendAll(s, a, script), b, script)
    decreases |b|
  {
    if b == [] {
      assert a + b == a;
    } else {
      SendBoth(s, a, b[..|b| - 1], script);
      assert (a + b)[..|a + b| - 1] == a + b[..|b| - 1];
    }
  }
}
