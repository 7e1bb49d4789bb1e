// The guards of the timer are guards of BinaryGuard: every run of the timer, with the
// flags as a set, is a run of guards with their cells on the heap.
module TimerGuards {
  import opened Options
  import T = ConcurrentTimer
  import G = BinaryGuard

  // ---- The guards a timer holds ---------------------------------------------------------

  // The shots whose closure, with the guard inside, is on its way or executing.
  function Travelling(s: T.State): set<T.Shot> {
    set k | k in s.queued + T.OptionSeq(s.armed) + T.Posted(s.posted) + T.OptionSeq(s.executing)
  }

  // What the timer holds, as far as guards go.
  datatype Pairs = Pairs(running: Option<T.Shot>, travelling: set<T.Shot>, up: set<T.Shot>, next: T.Shot)

  function PairsOf(s: T.State): Pairs {
    Pairs(s.running, Travelling(s), s.up, s.nextShot)
  }

  // The timer keeps guard 0, shot k travels with guard k + 1, and its cell is cell k.
  function Holder(k: T.Shot): G.Holder {
    G.Guard(k + 1)
  }

  const OWN := G.Guard(0)

  predicate HasCell(p: Pairs, c: T.Shot) {
    c in p.travelling || p.running == Some(c)
  }

  predicate Holds(p: Pairs, h: G.Holder) {
    h.Guard? && if h.id == 0 then p.running.Some? else h.id - 1 in p.travelling
  }

  function CellOf(p: Pairs, h: G.Holder): T.Shot
    requires Holds(p, h)
  {
    if h.id == 0 then p.running.value else h.id - 1
  }

  // The heap holds a cell for each shot somebody holds, its flag up as the timer has it.
  ghost predicate Matches(p: Pairs, g: G.State) {
    && g.next == p.next && g.deleting == {}
    && (forall h {:trigger h in g.holders} :: h in g.holders <==> Holds(p, h))
    && (forall h {:trigger g.holders[h]} :: h in g.holders ==> g.holders[h] == CellOf(p, h))
    && (forall c {:trigger c in g.flags} :: c in g.flags <==> HasCell(p, c))
    && (forall c {:trigger g.flags[c]} :: c in g.flags ==> (g.flags[c] <==> c in p.up))
    && (forall c :: c in p.up ==> HasCell(p, c))
  }

  function Own(p: Pairs, c: T.Shot): set<G.Holder> {
    if p.running == Some(c) then {OWN} else {}
  }

  function Other(p: Pairs, c: T.Shot): set<G.Holder> {
    if c in p.travelling then {Holder(c)} else {}
  }

  lemma HoldersAre(p: Pairs, g: G.State, c: T.Shot)
    requires Matches(p, g)
    ensures G.HoldersOf(g, c) == Own(p, c) + Other(p, c)
  {
    forall h ensures h in G.HoldersOf(g, c) <==> h in Own(p, c) + Other(p, c) {
      assert h in g.holders <==> Holds(p, h);
      assert h in g.holders ==> g.holders[h] == CellOf(p, h);
    }
  }

  // A flag is up exactly while the timer and the shot both hold the cell.
  lemma UpMeansBoth(p: Pairs, g: G.State, c: T.Shot)
    requires Matches(p, g) && G.Inv(g) && HasCell(p, c)
    ensures c in p.up <==> p.running == Some(c) && c in p.travelling
  {
    HoldersAre(p, g, c);
    assert |Own(p, c) + Other(p, c)| == |Own(p, c)| + |Other(p, c)|;
    assert c in g.flags && (g.flags[c] <==> c in p.up);
    assert |G.HoldersOf(g, c)| == if g.flags[c] then 2 else 1;
  }

  // ---- Runs of guards ------------------------------------------------------------------------

  ghost predicate Reaches(g: G.State) {
    exists gs, es :: G.IsRun(gs, es) && gs[|es|] == g
  }

  lemma ReachesNext(g: G.State, e: G.Step)
    requires Reaches(g) && G.Enabled(g, e)
    ensures Reaches(G.Next(g, e)) && G.Inv(g)
  {
    var gs, es :| G.IsRun(gs, es) && gs[|es|] == g;
    G.ReachableInv(gs, es);
    var hs, fs := gs + [G.Next(g, e)], es + [e];
    forall i | 0 <= i < |fs| ensures G.Enabled(hs[i], fs[i]) && hs[i + 1] == G.Next(hs[i], fs[i]) {
      if i < |es| { assert G.Enabled(gs[i], es[i]) && gs[i + 1] == G.Next(gs[i], es[i]); }
    }
    assert G.IsRun(hs, fs) && hs[|fs|] == G.Next(g, e);
  }

  lemma ReachesInv(g: G.State)
    requires Reaches(g)
    ensures G.Inv(g)
  {
    var gs, es :| G.IsRun(gs, es) && gs[|es|] == g;
    G.ReachableInv(gs, es);
  }

  // A guard that lets go, through its exchange and perhaps its delete.
  lemma ReachesDestroyed(g: G.State, id: nat)
    requires Reaches(g) && G.Destroy(0) !in g.holders && G.Destroy(0) !in g.deleting
    ensures Reaches(G.Destroyed(g, id, 0))
  {
    if G.Guard(id) in g.holders {
      var t := G.Next(g, G.Take(id, 0));
      ReachesNext(g, G.Take(id, 0));
      ReachesNext(t, G.Exchange(0));
      var u := G.Next(t, G.Exchange(0));
      if G.Destroy(0) in u.deleting { ReachesNext(u, G.Delete(0)); }
    }
  }

  // ---- What each operation does to the guards -----------------------------------------------

  function WithoutShot(p: Pairs, k: T.Shot): Pairs {
    p.(travelling := p.travelling - {k}, up := p.up - {k})
  }

  function WithoutOwn(p: Pairs): Pairs {
    if p.running.Some? then p.(running := None, up := p.up - {p.running.value}) else p
  }

  function WithPair(p: Pairs): Pairs {
    p.(running := Some(p.next), travelling := p.travelling + {p.next}, up := p.up + {p.next}, next := p.next + 1)
  }

  // What is left of the heap when a guard has let go.
  lemma AfterDestroy(g: G.State, id: nat)
    requires G.Inv(g) && g.deleting == {} && G.Destroy(0) !in g.holders && G.Guard(id) in g.holders
    ensures var c, t := g.holders[G.Guard(id)], G.Destroyed(g, id, 0);
            && c in g.flags && t.holders == g.holders - {G.Guard(id)}
            && t.flags == (if g.flags[c] then g.flags[c := false] else g.flags - {c})
            && t.deleting == {} && t.next == g.next
  {
    var t := G.Next(g, G.Take(id, 0));
    assert t.holders - {G.Destroy(0)} == g.holders - {G.Guard(id)};
  }

  lemma NobodyLetsGo(p: Pairs, g: G.State)
    requires Matches(p, g)
    ensures G.Destroy(0) !in g.holders && G.Destroy(0) !in g.deleting
  {
    assert !Holds(p, G.Destroy(0));
  }

  // A closure is destroyed, with its guard.
  lemma ShotLetsGo(p: Pairs, g: G.State, k: T.Shot)
    requires Matches(p, g) && G.Inv(g) && k in p.travelling
    ensures Matches(WithoutShot(p, k), G.Destroyed(g, k + 1, 0))
  {
    var q, t := WithoutShot(p, k), G.Destroyed(g, k + 1, 0);
    NobodyLetsGo(p, g);
    assert Holds(p, Holder(k)) && Holder(k) in g.holders;
    AfterDestroy(g, k + 1);
    UpMeansBoth(p, g, k);
    LetGoMatches(p, g, Holder(k), q, t);
  }

  // The guard of the timer is reset.
  lemma OwnLetsGo(p: Pairs, g: G.State)
    requires Matches(p, g) && G.Inv(g)
    ensures Matches(WithoutOwn(p), G.Destroyed(g, 0, 0))
  {
    NobodyLetsGo(p, g);
    assert OWN in g.holders <==> Holds(p, OWN);
    if p.running.Some? {
      AfterDestroy(g, 0);
      UpMeansBoth(p, g, p.running.value);
      LetGoMatches(p, g, OWN, WithoutOwn(p), G.Destroyed(g, 0, 0));
    }
  }

  // One holder less; its cell is freed unless the flag was up, and then the flag goes down.
  lemma LetGoMatches(p: Pairs, g: G.State, h: G.Holder, q: Pairs, t: G.State)
    requires Matches(p, g) && Holds(p, h) && h in g.holders && g.holders[h] in g.flags
    requires var c := g.holders[h];
             && (c in p.up <==> p.running == Some(c) && c in p.travelling)
             && t.flags == (if g.flags[c] then g.flags[c := false] else g.flags - {c})
             && q.up == p.up - {c}
    requires t.holders == g.holders - {h} && t.deleting == {} && t.next == g.next
    requires q == if h == OWN then WithoutOwn(p) else WithoutShot(p, h.id - 1)
    ensures Matches(q, t)
  {
    var c := g.holders[h];
    assert c == CellOf(p, h);
    forall k ensures k in t.holders <==> Holds(q, k) {
      assert k in g.holders <==> Holds(p, k);
    }
    forall k | k in t.holders ensures t.holders[k] == CellOf(q, k) {
      assert k in g.holders && g.holders[k] == CellOf(p, k);
    }
    forall d ensures d in t.flags <==> HasCell(q, d) {
      assert d in g.flags <==> HasCell(p, d);
    }
    forall d | d in t.flags ensures t.flags[d] <==> d in q.up {
      assert d in g.flags && (g.flags[d] <==> d in p.up);
    }
  }

  // make_guard().
  lemma PairIsMade(p: Pairs, g: G.State)
    requires Matches(p, g) && G.Inv(g) && p.running.None? && p.next !in p.travelling
    ensures G.Enabled(g, G.Make(0, p.next + 1)) && Matches(WithPair(p), G.Next(g, G.Make(0, p.next + 1)))
  {
    var q := WithPair(p);
    assert OWN in g.holders <==> Holds(p, OWN);
    assert Holder(p.next) in g.holders <==> Holds(p, Holder(p.next));
    var t := G.Next(g, G.Make(0, p.next + 1));
    forall k ensures k in t.holders <==> Holds(q, k) {
      assert k in g.holders <==> Holds(p, k);
    }
    forall k | k in t.holders ensures t.holders[k] == CellOf(q, k) {
      if k in g.holders { assert g.holders[k] == CellOf(p, k); }
    }
    forall d ensures d in t.flags <==> HasCell(q, d) {
      assert d in g.flags <==> HasCell(p, d);
    }
    forall d | d in t.flags ensures t.flags[d] <==> d in q.up {
      if d in g.flags { assert g.flags[d] <==> d in p.up; }
    }
  }

  // ---- Every step of the timer ------------------------------------------------------------------

  ghost predicate Linked(p: Pairs) {
    exists g :: Reaches(g) && Matches(p, g)
  }

  lemma LinkedWithoutShot(p: Pairs, k: T.Shot)
    requires Linked(p) && k in p.travelling
    ensures Linked(WithoutShot(p, k))
  {
    var g :| Reaches(g) && Matches(p, g);
    ReachesInv(g);
    NobodyLetsGo(p, g);
    ReachesDestroyed(g, k + 1);
    ShotLetsGo(p, g, k);
  }

  lemma LinkedWithoutOwn(p: Pairs)
    requires Linked(p)
    ensures Linked(WithoutOwn(p))
  {
    var g :| Reaches(g) && Matches(p, g);
    ReachesInv(g);
    NobodyLetsGo(p, g);
    ReachesDestroyed(g, 0);
    OwnLetsGo(p, g);
  }

  lemma LinkedWithPair(p: Pairs)
    requires Linked(p) && p.running.None? && p.next !in p.travelling
    ensures Linked(WithPair(p))
  {
    var g :| Reaches(g) && Matches(p, g);
    ReachesInv(g);
    PairIsMade(p, g);
    ReachesNext(g, G.Make(0, p.next + 1));
  }

  lemma OnceInLine(a: seq<T.Shot>, k: T.Shot, b: seq<T.Shot>, bound: nat)
    requires T.Ordered(a + [k] + b, bound)
    ensures k !in a && k !in b && k < bound
  {
    var l := a + [k] + b;
    assert l[|a|] == k;
    forall i | 0 <= i < |a| ensures a[i] != k { assert l[i] == a[i]; }
    forall i | 0 <= i < |b| ensures b[i] != k { assert l[|a| + 1 + i] == b[i]; }
  }

  // The shot that executes was delivered, and every shot on its way was scheduled.
  ghost predicate Inv(s: T.State) {
    && T.Inv(s)
    && (s.executing.Some? ==> s.executing.value in s.delivered)
    && (forall k :: k in s.delivered ==> k < s.nextShot)
    && (forall k :: k in Travelling(s) ==> k < s.nextShot)
  }

  lemma TravellingBelow(s: T.State)
    requires T.Inv(s) && (s.executing.Some? ==> s.executing.value in s.delivered)
    ensures Inv(s)
  {
    var l := T.Line(s);
    forall k | k in l ensures k < s.nextShot {
      var i :| 0 <= i < |l| && l[i] == k;
    }
    assert forall k ::
        k in s.delivered || k in s.queued || k in T.OptionSeq(s.armed) || k in T.Posted(s.posted) ==> k in l;
  }

  lemma PostedTravels(s: T.State, t: T.State, k: T.Shot, timeout: int)
    requires t.posted == s.posted + [T.CallDelayed(k, timeout)]
    requires t.queued == s.queued && t.armed == s.armed && t.executing == s.executing
    ensures Travelling(t) == Travelling(s) + {k}
  {
    T.PostedMore(s.posted, T.CallDelayed(k, timeout));
    var ahead := s.queued + T.OptionSeq(s.armed);
    assert T.Posted(t.posted) == T.Posted(s.posted) + [k];
  }

  lemma SchedulePairs(s: T.State, timeout: int)
    ensures PairsOf(T.CancelAndSchedule(s, timeout)) == WithPair(WithoutOwn(PairsOf(s)))
  {
    PostedTravels(s, T.CancelAndSchedule(s, timeout), s.nextShot, timeout);
  }

  lemma ScheduleLinks(s: T.State, timeout: int)
    requires Inv(s) && Linked(PairsOf(s))
    ensures Linked(PairsOf(T.CancelAndSchedule(s, timeout)))
  {
    var p := PairsOf(s);
    SchedulePairs(s, timeout);
    LinkedWithoutOwn(p);
    assert p.next !in p.travelling;
    LinkedWithPair(WithoutOwn(p));
  }

  lemma StartLinks(s: T.State, timeout: int, repeat: T.Repeat)
    requires Inv(s) && Linked(PairsOf(s))
    ensures Linked(PairsOf(T.StartTimer(s, timeout, repeat)))
  {
    var u := s.(repeat := repeat, adjusted := false, timeout := timeout);
    assert T.Line(u) == T.Line(s) && Travelling(u) == Travelling(s) && PairsOf(u) == PairsOf(s);
    ScheduleLinks(u, timeout);
  }

  lemma CancelLinks(s: T.State)
    requires Linked(PairsOf(s))
    ensures Linked(PairsOf(T.CancelShot(s)))
  {
    var t := T.CancelShot(s);
    LinkedWithoutOwn(PairsOf(s));
    assert Travelling(t) == Travelling(s);
    assert PairsOf(t) == WithoutOwn(PairsOf(s));
  }

  lemma TimerEventLinks(s: T.State)
    requires Inv(s) && Linked(PairsOf(s))
    ensures Linked(PairsOf(T.TimerEvent(s)))
  {
    if s.repeat == T.Interval {
      if s.adjusted { StartLinks(s, s.timeout, s.repeat); }
    } else {
      CancelLinks(s);
    }
  }

  // A shot leaves for good: `t` has the others.
  lemma ShotGone(s: T.State, t: T.State, k: T.Shot)
    requires Linked(PairsOf(s)) && k in Travelling(s) && Travelling(t) == Travelling(s) - {k}
    requires t.up == s.up - {k} && t.running == s.running && t.nextShot == s.nextShot
    ensures Linked(PairsOf(t))
  {
    LinkedWithoutShot(PairsOf(s), k);
    assert PairsOf(t) == WithoutShot(PairsOf(s), k);
  }

  lemma NobodyGone(s: T.State, t: T.State)
    requires Linked(PairsOf(s)) && Travelling(t) == Travelling(s)
    requires t.up == s.up && t.running == s.running && t.nextShot == s.nextShot
    ensures Linked(PairsOf(t))
  {
    assert PairsOf(t) == PairsOf(s);
  }

  // The clock's thread drops what was armed.
  function Disarmed(s: T.State): T.State {
    T.Drop(s, s.armed).(armed := None)
  }

  lemma DisarmLinks(s: T.State)
    requires Inv(s) && Linked(PairsOf(s))
    ensures Linked(PairsOf(Disarmed(s)))
    ensures T.Ordered(T.Line(Disarmed(s)), s.nextShot)
  {
    var t := Disarmed(s);
    var front, tail := s.delivered + s.queued, T.Posted(s.posted);
    T.CutOut(T.Line(s), front, T.OptionSeq(s.armed), tail, s.nextShot);
    assert T.Line(t) == front + tail;
    if s.armed.Some? {
      var k := s.armed.value;
      OnceInLine(front, k, tail, s.nextShot);
      assert Travelling(t) == Travelling(s) - {k};
      ShotGone(s, t, k);
    } else {
      NobodyGone(s, t);
    }
  }

  // The closure of `k` runs on the clock's thread: `s` still has it, `t` is what is left.
  lemma RunLinks(s: T.State, t: T.State, k: T.Shot)
    requires Linked(PairsOf(s)) && k in Travelling(s)
    requires Travelling(t) == Travelling(s) - {k} && t.up == s.up && t.running == s.running && t.nextShot == s.nextShot
    ensures Linked(PairsOf(T.Run(t, k)))
  {
    var u := T.Run(t, k);
    if k in t.up {
      assert u.queued == t.queued + [k];
      assert Travelling(u) == Travelling(t) + {k};
      NobodyGone(s, u);
    } else {
      assert Travelling(u) == Travelling(t);
      ShotGone(s, u, k);
    }
  }

  // The first event is taken: the shot in it, if any, is in nobody's hands for a moment.
  lemma TakeTravels(d: T.State, t: T.State)
    requires d.posted != [] && d.armed.None? && t == d.(posted := d.posted[1..])
    requires T.Ordered(T.Line(d), d.nextShot) && (d.executing.Some? ==> d.executing.value in d.delivered)
    ensures d.posted[0].CancelTimer? ==> Travelling(t) == Travelling(d)
    ensures d.posted[0].CallDelayed? ==>
              var k := d.posted[0].shot;
              k in Travelling(d) && Travelling(t) == Travelling(d) - {k}
  {
    T.PostedHead(d.posted);
    var rest := T.Posted(t.posted);
    if d.posted[0].CallDelayed? {
      var k, front := d.posted[0].shot, d.delivered + d.queued;
      assert T.Line(d) == front + [k] + rest;
      OnceInLine(front, k, rest, d.nextShot);
      assert T.Posted(d.posted) == [k] + rest;
      assert k !in d.queued && k !in d.delivered;
    } else {
      assert T.Posted(d.posted) == rest;
    }
  }

  lemma DelayedLinks(d: T.State, t: T.State, k: T.Shot, timeout: int)
    requires Linked(PairsOf(d)) && d.armed.None? && d.posted != [] && d.posted[0] == T.CallDelayed(k, timeout)
    requires t == d.(posted := d.posted[1..]) && k in Travelling(d) && Travelling(t) == Travelling(d) - {k}
    ensures Linked(PairsOf(if timeout > 0 then t.(armed := Some(k)) else T.Run(t, k)))
  {
    if timeout > 0 {
      var u := t.(armed := Some(k));
      assert Travelling(u) == Travelling(t) + {k};
      NobodyGone(d, u);
    } else {
      RunLinks(d, t, k);
    }
  }

  lemma ProcessLinks(s: T.State)
    requires Inv(s) && T.Enabled(s, T.Process) && Linked(PairsOf(s))
    ensures Linked(PairsOf(T.Next(s, T.Process)))
  {
    var d := Disarmed(s);
    var t := d.(posted := s.posted[1..]);
    DisarmLinks(s);
    TakeTravels(d, t);
    assert t == T.Drop(s, s.armed).(posted := s.posted[1..], armed := None);
    match s.posted[0]
    case CancelTimer => NobodyGone(d, t);
    case CallDelayed(k, timeout) => DelayedLinks(d, t, k, timeout);
  }

  lemma FireLinks(s: T.State)
    requires Inv(s) && T.Enabled(s, T.Fire) && Linked(PairsOf(s))
    ensures Linked(PairsOf(T.Next(s, T.Fire)))
  {
    var k := s.armed.value;
    var t := s.(armed := None);
    OnceInLine(s.delivered + s.queued, k, T.Posted(s.posted), s.nextShot);
    assert Travelling(t) == Travelling(s) - {k};
    RunLinks(s, t, k);
  }

  lemma HeadTravels(s: T.State, t: T.State)
    requires Inv(s) && s.queued != [] && s.executing.None? && t == s.(queued := s.queued[1..])
    ensures var k := s.queued[0]; k in Travelling(s) && Travelling(t) == Travelling(s) - {k}
  {
    var k, rest := s.queued[0], s.queued[1..] + T.OptionSeq(s.armed) + T.Posted(s.posted);
    assert T.Line(s) == s.delivered + [k] + rest;
    OnceInLine(s.delivered, k, rest, s.nextShot);
    assert s.queued == [k] + s.queued[1..];
  }

  lemma DeliverLinks(s: T.State)
    requires Inv(s) && T.Enabled(s, T.Deliver) && Linked(PairsOf(s))
    ensures Linked(PairsOf(T.Next(s, T.Deliver)))
  {
    var k := s.queued[0];
    var t := s.(queued := s.queued[1..]);
    HeadTravels(s, t);
    if k in s.up {
      var u := t.(executing := Some(k), delivered := t.delivered + [k]);
      assert Travelling(u) == Travelling(t) + {k};
      NobodyGone(s, u);
      DeliveredInv(s, u);
      TimerEventLinks(u);
    } else {
      var u := T.Drop(t, Some(k));
      assert Travelling(u) == Travelling(t);
      ShotGone(s, u, k);
    }
  }

  lemma DeliveredInv(s: T.State, u: T.State)
    requires Inv(s) && s.queued != []
    requires u == s.(queued := s.queued[1..], executing := Some(s.queued[0]), delivered := s.delivered + [s.queued[0]])
    ensures Inv(u)
  {
    var k := s.queued[0];
    assert s.queued == [k] + s.queued[1..];
    assert T.Line(u) == T.Line(s);
    assert u.delivered[|s.delivered|] == k;
    TravellingBelow(u);
  }

  lemma ReturnLinks(s: T.State)
    requires Inv(s) && T.Enabled(s, T.Return) && Linked(PairsOf(s))
    ensures Linked(PairsOf(T.Next(s, T.Return)))
  {
    var k, t := s.executing.value, T.Next(s, T.Return);
    var on := s.queued + T.OptionSeq(s.armed) + T.Posted(s.posted);
    DeliveredIsGone(s.delivered, on, k, s.nextShot, T.Line(s));
    assert Travelling(t) == Travelling(s) - {k};
    ShotGone(s, t, k);
  }

  lemma DeliveredIsGone(delivered: seq<T.Shot>, on: seq<T.Shot>, k: T.Shot, bound: nat, line: seq<T.Shot>)
    requires line == delivered + on && T.Ordered(line, bound) && k in delivered
    ensures k !in on
  {
    var i :| 0 <= i < |delivered| && delivered[i] == k;
    forall j | 0 <= j < |on| ensures on[j] != k {
      assert line[i] == k && line[|delivered| + j] == on[j];
    }
  }

  lemma NextLinks(s: T.State, e: T.Step)
    requires Inv(s) && T.Enabled(s, e) && Linked(PairsOf(s))
    ensures Inv(T.Next(s, e)) && Linked(PairsOf(T.Next(s, e)))
  {
    T.NextKeepsInv(s, e);
    ExecutingDelivered(s, e);
    TravellingBelow(T.Next(s, e));
    match e
    case Start(timeout, repeat) => StartLinks(s, timeout, repeat);
    case Cancel => CancelLinks(s);
    case Adjust(remaining) =>
      if T.Active(s) {
        ScheduleLinks(s, remaining);
        NobodyGone(T.CancelAndSchedule(s, remaining), T.AdjustShot(s, remaining));
      }
    case Process => ProcessLinks(s);
    case Fire => FireLinks(s);
    case Deliver => DeliverLinks(s);
    case Return => ReturnLinks(s);
  }

  lemma ExecutingDelivered(s: T.State, e: T.Step)
    requires Inv(s) && T.Enabled(s, e)
    ensures var t := T.Next(s, e); t.executing.Some? ==> t.executing.value in t.delivered
  {
    if e.Deliver? {
      assert s.queued[0] in s.delivered + [s.queued[0]];
    }
  }

  // ---- Main results, for every run of the timer -----------------------------------------------------

  lemma InitialLinked()
    ensures Inv(T.INITIAL) && Linked(PairsOf(T.INITIAL))
  {
    assert T.Line(T.INITIAL) == [];
    TravellingBelow(T.INITIAL);
    assert G.IsRun([G.INITIAL], []) && [G.INITIAL][0] == G.INITIAL;
    assert Matches(PairsOf(T.INITIAL), G.INITIAL);
  }

  lemma {:induction false} RunLinked(states: seq<T.State>, steps: seq<T.Step>)
    requires T.IsRun(states, steps)
    ensures Inv(states[|steps|]) && Linked(PairsOf(states[|steps|]))
    decreases |steps|
  {
    var n := |steps|;
    if n == 0 {
      InitialLinked();
    } else {
      RunLinked(states[..n], steps[..n - 1]);
      var s, e := states[n - 1], steps[n - 1];
      assert T.Enabled(s, e) && states[n] == T.Next(s, e);
      NextLinks(s, e);
    }
  }

  // Every run of the timer is a run of guards that ends with the cells, holders and flags
  // of its shots.
  lemma TimerIsGuardRun(states: seq<T.State>, steps: seq<T.Step>)
      returns (gs: seq<G.State>, es: seq<G.Step>)
    requires T.IsRun(states, steps)
    ensures G.IsRun(gs, es) && Matches(PairsOf(states[|steps|]), gs[|es|])
  {
    RunLinked(states, steps);
    var g :| Reaches(g) && Matches(PairsOf(states[|steps|]), g);
    gs, es :| G.IsRun(gs, es) && gs[|es|] == g;
  }

  // A flag is up exactly while the timer holds the shot and the shot is on its way.
  lemma FlagsAreShared(states: seq<T.State>, steps: seq<T.Step>, c: T.Shot)
    requires T.IsRun(states, steps)
    ensures var s := states[|steps|]; c in s.up <==> s.running == Some(c) && c in Travelling(s)
  {
    RunLinked(states, steps);
    var p := PairsOf(states[|steps|]);
    var g :| Reaches(g) && Matches(p, g);
    ReachesInv(g);
    if HasCell(p, c) { UpMeansBoth(p, g, c); }
  }

  // The cells that were made and that nobody holds any more were freed, once each.
  lemma CellsAreFreed(states: seq<T.State>, steps: seq<T.Step>) returns (gs: seq<G.State>, es: seq<G.Step>)
    requires T.IsRun(states, steps)
    ensures G.IsRun(gs, es)
    ensures var s, deleted := states[|steps|], gs[|es|].deleted;
            && (forall c: T.Shot :: c in deleted <==> c < s.nextShot && c !in Travelling(s) && s.running != Some(c))
            && (forall i, j :: 0 <= i < j < |deleted| ==> deleted[i] != deleted[j])
  {
    gs, es := TimerIsGuardRun(states, steps);
    G.ReachableInv(gs, es);
    var s, g := states[|steps|], gs[|es|];
    forall c: T.Shot ensures c in g.deleted <==> c < s.nextShot && c !in Travelling(s) && s.running != Some(c) {
      assert c in g.flags <==> HasCell(PairsOf(s), c);
      if c in g.deleted {
        var i :| 0 <= i < |g.deleted| && g.deleted[i] == c;
      }
    }
  }
}
