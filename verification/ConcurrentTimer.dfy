// A timer used on one queue whose clock runs on another thread. The two sides
// meet only through a pair of guards per scheduled shot: one half stays in the
// timer, the other travels with the shot.
module ConcurrentTimer {
  import opened Options

  type Shot = nat  // numbered in the order they were scheduled

  datatype Repeat = Interval | SingleShot

  datatype Event = CallDelayed(shot: Shot, timeout: int) | CancelTimer

  datatype State = State(
    // on the queue of the owner
    running: Option<Shot>,     // whose guard the timer holds
    repeat: Repeat, timeout: int, adjusted: bool,
    queued: seq<Shot>,         // shots handed to the owner's queue
    executing: Option<Shot>,   // the shot whose timerEvent and callback are running
    // on the thread of the clock
    posted: seq<Event>, armed: Option<Shot>,
    // on the heap: shots whose flag is up
    up: set<Shot>,
    nextShot: Shot,
    delivered: seq<Shot>)      // shots that reached timerEvent

  const INITIAL := State(None, Interval, 0, false, [], None, [], None, {}, 0, [])

  // Either half of a pair letting go takes the flag down.
  function Drop(s: State, shot: Option<Shot>): State {
    if shot.Some? then s.(up := s.up - {shot.value}) else s
  }

  predicate Active(s: State) {
    s.running.Some? && s.running.value in s.up
  }

  function CancelAndSchedule(s: State, timeout: int): State {
    var t := Drop(s, s.running);
    t.(running := Some(t.nextShot), up := t.up + {t.nextShot}, nextShot := t.nextShot + 1,
       posted := t.posted + [CallDelayed(t.nextShot, timeout)])
  }

  function StartTimer(s: State, timeout: int, repeat: Repeat): State {
    CancelAndSchedule(s.(repeat := repeat, adjusted := false, timeout := timeout), timeout)
  }

  // The guard goes first, and the test after it is made on what is left.
  function CancelShot(s: State): State {
    var t := Drop(s, s.running).(running := None);
    if Active(t) then t.(posted := t.posted + [CancelTimer]) else t
  }

  function AdjustShot(s: State, remaining: int): State {
    if Active(s) then CancelAndSchedule(s, remaining).(adjusted := true) else s
  }

  // What timerEvent does before the callback.
  function TimerEvent(s: State): State {
    if s.repeat == Interval then
      if s.adjusted then StartTimer(s, s.timeout, s.repeat) else s
    else CancelShot(s)
  }

  // The closure on the clock's thread: hand the shot on, or let it go.
  function Run(s: State, shot: Shot): State {
    if shot in s.up then s.(queued := s.queued + [shot]) else Drop(s, Some(shot))
  }

  datatype Step =
    | Start(timeout: int, repeat: Repeat)
    | Cancel
    | Adjust(remaining: int)
    | Process           // the clock's thread takes its next event
    | Fire              // the clock's timer goes off
    | Deliver           // the owner's queue takes its next shot
    | Return            // the callback of the delivered shot returns

  predicate Enabled(s: State, e: Step) {
    match e
    case Process => s.posted != []
    case Fire => s.armed.Some?
    case Deliver => s.queued != [] && s.executing.None?
    case Return => s.executing.Some?
    case Adjust(_) => s.executing.None?
    case _ => true
  }

  function Next(s: State, e: Step): State
    requires Enabled(s, e)
  {
    match e
    case Start(timeout, repeat) => StartTimer(s, timeout, repeat)
    case Cancel => CancelShot(s)
    case Adjust(remaining) => AdjustShot(s, remaining)
    case Process =>
      var t := Drop(s, s.armed).(posted := s.posted[1..], armed := None);
      match s.posted[0] {
        case CancelTimer => t
        case CallDelayed(shot, timeout) =>
          if timeout > 0 then t.(armed := Some(shot)) else Run(t, shot)
      }
    case Fire => Run(s.(armed := None), s.armed.value)
    case Deliver =>
      var shot := s.queued[0];
      var t := s.(queued := s.queued[1..]);
      if shot in t.up then
        TimerEvent(t.(executing := Some(shot), delivered := t.delivered + [shot]))
      else Drop(t, Some(shot))
    case Return => Drop(s, s.executing).(executing := None)
  }

  ghost predicate IsRun(states: seq<State>, steps: seq<Step>) {
    && |states| == |steps| + 1 && states[0] == INITIAL
    && forall i :: 0 <= i < |steps| ==> Enabled(states[i], steps[i]) && states[i + 1] == Next(states[i], steps[i])
  }

  // ---- The invariant -------------------------------------------------------------

  // Only the latest shot can have its flag up, and only while the timer holds it.
  ghost predicate OnlyLatest(s: State) {
    && (s.running.Some? ==> s.running.value + 1 == s.nextShot)
    && (forall x :: x in s.up ==> s.running == Some(x))
  }

  // The shots on their way, from the latest posted back to the one executing.
  function ShotOf(e: Event): seq<Shot> {
    if e.CallDelayed? then [e.shot] else []
  }

  function Posted(es: seq<Event>): seq<Shot> {
    if es == [] then [] else Posted(es[..|es| - 1]) + ShotOf(es[|es| - 1])
  }

  ghost predicate Increasing(s: seq<Shot>) {
    forall i, j :: 0 <= i < j < |s| ==> s[i] < s[j]
  }

  ghost predicate Ordered(s: seq<Shot>, bound: nat) {
    Increasing(s) && forall i :: 0 <= i < |s| ==> s[i] < bound
  }

  function OptionSeq(o: Option<Shot>): seq<Shot> {
    if o.Some? then [o.value] else []
  }

  // Every shot moves along one line and is in one place at a time.
  function Line(s: State): seq<Shot> {
    s.delivered + s.queued + OptionSeq(s.armed) + Posted(s.posted)
  }

  ghost predicate Inv(s: State) {
    && OnlyLatest(s)
    && Ordered(Line(s), s.nextShot)
  }

  lemma {:induction false} PostedHead(es: seq<Event>)
    requires es != []
    ensures Posted(es) == ShotOf(es[0]) + Posted(es[1..])
  {
    if |es| > 1 {
      var n := |es| - 1;
      PostedHead(es[..n]);
      assert es[..n][1..] == es[1..][..n - 1];
    } else {
      assert es[..0] == [] && es[1..] == [];
    }
  }

  lemma PostedMore(es: seq<Event>, e: Event)
    ensures Posted(es + [e]) == Posted(es) + ShotOf(e)
  {
    assert (es + [e])[..|es|] == es;
  }

  // The line with something taken out of its middle.
  lemma CutOut(l: seq<Shot>, a: seq<Shot>, x: seq<Shot>, b: seq<Shot>, bound: nat)
    requires l == a + x + b && Ordered(l, bound)
    ensures Ordered(a + b, bound)
  {
    var m := a + b;
    forall i, j | 0 <= i < j < |m| ensures m[i] < m[j] < bound && m[i] < bound {
      var i', j' := if i < |a| then i else i + |x|, if j < |a| then j else j + |x|;
      assert m[i] == l[i'] && m[j] == l[j'];
    }
    forall i | 0 <= i < |m| ensures m[i] < bound {
      assert m[i] == l[if i < |a| then i else i + |x|];
    }
  }

  lemma Extended(l: seq<Shot>, x: Shot)
    requires Ordered(l, x)
    ensures Ordered(l + [x], x + 1)
  {
  }

  lemma JoinRight(a: seq<Shot>, b: seq<Shot>, c: seq<Shot>)
    ensures a + (b + c) == (a + b) + c
  {
  }

  lemma ScheduleKeepsInv(s: State, timeout: int)
    requires Inv(s)
    ensures Inv(CancelAndSchedule(s, timeout))
  {
    var t := CancelAndSchedule(s, timeout);
    assert OnlyLatest(t);
    var ahead := s.delivered + s.queued + OptionSeq(s.armed);
    PostedMore(s.posted, CallDelayed(s.nextShot, timeout));
    JoinRight(ahead, Posted(s.posted), [s.nextShot]);
    assert Line(s) == ahead + Posted(s.posted);
    assert Line(t) == ahead + (Posted(s.posted) + [s.nextShot]);
    Extended(Line(s), s.nextShot);
  }

  // Dropping a flag or changing the other fields leaves the line as it is.
  lemma SameLine(s: State, t: State)
    requires Inv(s) && Line(t) == Line(s) && t.nextShot == s.nextShot
    requires t.up <= s.up && (t.running == s.running || (t.running.None? && t.up == {}))
    ensures Inv(t)
  {
  }

  lemma CancelKeepsInv(s: State)
    requires Inv(s)
    ensures Inv(CancelShot(s)) && CancelShot(s).up == {} && CancelShot(s).posted == s.posted
  {
    var t := CancelShot(s);
    assert forall x :: x in s.up ==> s.running == Some(x);
    SameLine(s, t);
  }

  lemma TimerEventKeepsInv(s: State)
    requires Inv(s)
    ensures Inv(TimerEvent(s)) && s.delivered == TimerEvent(s).delivered
  {
    if s.repeat == Interval {
      if s.adjusted {
        var t := s.(repeat := s.repeat, adjusted := false, timeout := s.timeout);
        SameLine(s, t);
        ScheduleKeepsInv(t, s.timeout);
      }
    } else {
      CancelKeepsInv(s);
    }
  }

  // The armed shot gives way to the next event; what is left is still a line.
  lemma ProcessLine(s: State, front: seq<Shot>, head: seq<Shot>, tail: seq<Shot>)
    requires Inv(s) && s.posted != []
    requires front == s.delivered + s.queued && head == ShotOf(s.posted[0]) && tail == Posted(s.posted[1..])
    ensures Ordered(front + head + tail, s.nextShot) && Ordered(front + tail, s.nextShot)
  {
    assert Line(s) == front + OptionSeq(s.armed) + (head + tail) by { PostedHead(s.posted); }
    CutOut(Line(s), front, OptionSeq(s.armed), head + tail, s.nextShot);
    assert front + (head + tail) == front + head + tail;
    CutOut(front + head + tail, front, head, tail, s.nextShot);
  }

  lemma ProcessedLine(s: State)
    requires Enabled(s, Process)
    ensures var t, front := Next(s, Process), s.delivered + s.queued;
            || Line(t) == front + ShotOf(s.posted[0]) + Posted(s.posted[1..])
            || Line(t) == front + Posted(s.posted[1..])
  {
    var t := Next(s, Process);
    var front, tail := s.delivered + s.queued, Posted(s.posted[1..]);
    assert t.delivered == s.delivered && t.posted == s.posted[1..];
    match s.posted[0]
    case CancelTimer =>
      assert Line(t) == front + tail;
    case CallDelayed(shot, timeout) =>
      if timeout > 0 || shot in Drop(s, s.armed).up {
        assert Line(t) == front + [shot] + tail;
      } else {
        assert Line(t) == front + tail;
      }
  }

  lemma ProcessKeepsInv(s: State)
    requires Inv(s) && Enabled(s, Process)
    ensures Inv(Next(s, Process))
  {
    var t := Next(s, Process);
    assert OnlyLatest(t);
    ProcessLine(s, s.delivered + s.queued, ShotOf(s.posted[0]), Posted(s.posted[1..]));
    ProcessedLine(s);
    assert t.nextShot == s.nextShot;
  }

  lemma FireKeepsInv(s: State)
    requires Inv(s) && Enabled(s, Fire)
    ensures Inv(Next(s, Fire))
  {
    var t := Next(s, Fire);
    var front, tail := s.delivered + s.queued, Posted(s.posted);
    CutOut(Line(s), front, [s.armed.value], tail, s.nextShot);
    assert Line(t) == Line(s) || Line(t) == front + tail;
  }

  lemma DeliveredLine(s: State)
    requires s.queued != []
    ensures var rest := s.queued[1..] + OptionSeq(s.armed) + Posted(s.posted);
            Line(s) == s.delivered + [s.queued[0]] + rest
  {
    assert s.queued == [s.queued[0]] + s.queued[1..];
  }

  lemma LiveDelivered(s: State)
    requires Inv(s) && s.queued != []
    ensures Inv(s.(queued := s.queued[1..], executing := Some(s.queued[0]), delivered := s.delivered + [s.queued[0]]))
  {
    var t := s.(queued := s.queued[1..], executing := Some(s.queued[0]), delivered := s.delivered + [s.queued[0]]);
    DeliveredLine(s);
    var on := OptionSeq(s.armed) + Posted(s.posted);
    assert Line(t) == Line(s);
    SameLine(s, t);
  }

  lemma DeadDropped(s: State)
    requires Inv(s) && s.queued != []
    ensures Inv(Drop(s.(queued := s.queued[1..]), Some(s.queued[0])))
  {
    var t := Drop(s.(queued := s.queued[1..]), Some(s.queued[0]));
    var rest := s.queued[1..] + OptionSeq(s.armed) + Posted(s.posted);
    DeliveredLine(s);
    CutOut(Line(s), s.delivered, [s.queued[0]], rest, s.nextShot);
    assert Line(t) == s.delivered + rest;
  }

  lemma DeliverKeepsInv(s: State)
    requires Inv(s) && Enabled(s, Deliver)
    ensures Inv(Next(s, Deliver))
  {
    if s.queued[0] in s.up {
      LiveDelivered(s);
      TimerEventKeepsInv(s.(queued := s.queued[1..], executing := Some(s.queued[0]),
                            delivered := s.delivered + [s.queued[0]]));
    } else {
      DeadDropped(s);
    }
  }

  lemma NextKeepsInv(s: State, e: Step)
    requires Inv(s) && Enabled(s, e)
    ensures Inv(Next(s, e))
  {
    match e
    case Start(timeout, repeat) =>
      var t := s.(repeat := repeat, adjusted := false, timeout := timeout);
      SameLine(s, t);
      ScheduleKeepsInv(t, timeout);
    case Cancel => CancelKeepsInv(s);
    case Adjust(remaining) =>
      if Active(s) {
        ScheduleKeepsInv(s, remaining);
        SameLine(CancelAndSchedule(s, remaining), AdjustShot(s, remaining));
      }
    case Process => ProcessKeepsInv(s);
    case Fire => FireKeepsInv(s);
    case Deliver => DeliverKeepsInv(s);
    case Return => SameLine(s, Next(s, Return));
  }

  lemma {:induction false} ReachableInv(states: seq<State>, steps: seq<Step>)
    requires IsRun(states, steps)
    ensures Inv(states[|steps|])
    decreases |steps|
  {
    if steps != [] {
      var n := |steps| - 1;
      ReachableInv(states[..|states| - 1], steps[..n]);
      assert Enabled(states[n], steps[n]) && states[n + 1] == Next(states[n], steps[n]);
      NextKeepsInv(states[n], steps[n]);
    } else {
      assert Line(INITIAL) == [];
    }
  }

  // ---- Main results, for every run -------------------------------------------------

  // At most one shot has its flag up, and it is the one scheduled last.
  lemma AtMostOneLive(states: seq<State>, steps: seq<Step>, x: Shot, y: Shot)
    requires IsRun(states, steps) && x in states[|steps|].up && y in states[|steps|].up
    ensures x == y && x + 1 == states[|steps|].nextShot && Active(states[|steps|])
  {
    ReachableInv(states, steps);
  }

  // Shots reach timerEvent in the order they were scheduled, each at most once.
  lemma DeliveredInOrder(states: seq<State>, steps: seq<Step>)
    requires IsRun(states, steps)
    ensures Increasing(states[|steps|].delivered) && |states[|steps|].delivered| <= states[|steps|].nextShot
  {
    ReachableInv(states, steps);
    var s := states[|steps|];
    var rest := s.queued + OptionSeq(s.armed) + Posted(s.posted);
    assert Line(s) == s.delivered + rest + [];
    CutOut(Line(s), s.delivered, rest, [], s.nextShot);
    assert s.delivered + [] == s.delivered;
    Pigeonhole(s.delivered, s.nextShot);
  }

  lemma {:induction false} Pigeonhole(s: seq<Shot>, bound: nat)
    requires Ordered(s, bound)
    ensures |s| <= bound
  {
    if s != [] {
      var n := |s| - 1;
      Pigeonhole(s[..n], s[n]);
    }
  }

  // No shot before `cut` can reach timerEvent any more.
  ghost predicate CutOff(s: State, cut: Shot) {
    cut <= s.nextShot && forall x :: x in s.up ==> cut <= x
  }

  lemma NextKeepsCutOff(s: State, e: Step, cut: Shot)
    requires Enabled(s, e) && CutOff(s, cut)
    ensures CutOff(Next(s, e), cut)
    ensures Next(s, e).delivered == s.delivered
         || (exists x :: cut <= x && Next(s, e).delivered == s.delivered + [x])
  {
    if e.Deliver? && s.queued[0] in s.up {
      var x := s.queued[0];
      assert cut <= x && Next(s, e).delivered == s.delivered + [x];
    }
  }

  // Main result: a shot scheduled before a start, adjust or cancel is never delivered after it.
  lemma {:induction false} NoStaleShot(states: seq<State>, steps: seq<Step>, k: nat)
    requires IsRun(states, steps) && k < |steps|
    requires steps[k].Start? || steps[k].Cancel? || steps[k].Adjust?
    ensures CutOff(states[|steps|], states[k].nextShot)
    ensures states[k].delivered <= states[|steps|].delivered
    ensures forall i :: |states[k].delivered| <= i < |states[|steps|].delivered| ==>
              states[k].nextShot <= states[|steps|].delivered[i]
    decreases |steps|
  {
    var n := |steps| - 1;
    assert Enabled(states[n], steps[n]) && states[n + 1] == Next(states[n], steps[n]);
    ReachableInv(states[..n + 1], steps[..n]);
    if k == n {
      CutsOff(states[n], steps[n]);
    } else {
      NoStaleShot(states[..n + 1], steps[..n], k);
      NextKeepsCutOff(states[n], steps[n], states[k].nextShot);
    }
  }

  lemma CutsOff(s: State, e: Step)
    requires Inv(s) && Enabled(s, e) && (e.Start? || e.Cancel? || e.Adjust?)
    ensures CutOff(Next(s, e), s.nextShot) && Next(s, e).delivered == s.delivered
  {
    if e.Cancel? { CancelKeepsInv(s); }
  }

  // ---- When shots are scheduled -----------------------------------------------------

  // The time a step schedules a shot for, if it does: a start, an adjustment of a timer that
  // is active, and the delivery of a living shot to a repeating timer that was adjusted.
  function Schedules(s: State, e: Step): Option<int>
    requires Enabled(s, e)
  {
    match e
    case Start(timeout, _) => Some(timeout)
    case Adjust(remaining) => if s.running.Some? && s.running.value in s.up then Some(remaining) else None
    case Deliver =>
      if s.queued[0] in s.up && s.repeat == Interval && s.adjusted then Some(s.timeout) else None
    case _ => None
  }

  // Main result: the clock is told of a new shot, with this time, exactly then, and the shot is
  // the one the timer holds; no other event is posted.
  lemma ScheduledIff(s: State, e: Step)
    requires Inv(s) && Enabled(s, e)
    ensures var t, before := Next(s, e), if e.Process? then s.posted[1..] else s.posted;
            match Schedules(s, e) {
              case Some(timeout) =>
                && t.posted == before + [CallDelayed(s.nextShot, timeout)] && t.nextShot == s.nextShot + 1
                && t.running == Some(s.nextShot) && s.nextShot in t.up
              case None => t.posted == before && t.nextShot == s.nextShot
            }
  {
    if e.Cancel? { CancelPostsNothing(s); }
    if e.Deliver? && s.queued[0] in s.up && s.repeat == SingleShot {
      CancelPostsNothing(s.(queued := s.queued[1..], executing := Some(s.queued[0]),
                            delivered := s.delivered + [s.queued[0]]));
    }
  }

  // What the timer remembers: the time and kind of the last start, and whether the shot was
  // moved since it was last scheduled by a start or a repetition.
  lemma RemembersIff(s: State, e: Step)
    requires Enabled(s, e)
    ensures var t := Next(s, e);
            && t.timeout == (if e.Start? then e.timeout else s.timeout)
            && t.repeat == (if e.Start? then e.repeat else s.repeat)
            && (t.adjusted <==>
                  match e
                  case Start(_, _) => false
                  case Adjust(_) => s.adjusted || (s.running.Some? && s.running.value in s.up)
                  case Deliver => s.adjusted && !(s.queued[0] in s.up && s.repeat == Interval)
                  case _ => s.adjusted)
  {
  }

  // Main result: a living shot is never lost on its way. The clock arms it or hands it on, hands
  // it on when its time comes, and the owner's queue brings it to timerEvent.
  lemma LivingShotArrives(s: State, e: Step)
    requires Inv(s) && Enabled(s, e)
    ensures var t := Next(s, e);
            && (e.Process? && s.posted[0].CallDelayed? && s.posted[0].shot in s.up ==>
                  var shot := s.posted[0].shot;
                  && t.posted == s.posted[1..] && shot in t.up
                  && (s.posted[0].timeout > 0 ==> t.armed == Some(shot) && t.queued == s.queued)
                  && (s.posted[0].timeout <= 0 ==> t.armed.None? && t.queued == s.queued + [shot]))
            && (e.Fire? && s.armed.value in s.up ==> t.queued == s.queued + [s.armed.value] && t.up == s.up)
            && (e.Deliver? ==>
                  && t.queued == s.queued[1..]
                  && t.delivered == s.delivered + (if s.queued[0] in s.up then [s.queued[0]] else []))
  {
    if e.Process? && s.posted[0].CallDelayed? {
      if s.armed.Some? { ArmedIsOther(s); }
    }
  }

  // The shot armed is not the one whose event comes next.
  lemma ArmedIsOther(s: State)
    requires Inv(s) && s.posted != [] && s.posted[0].CallDelayed? && s.armed.Some?
    ensures s.armed.value != s.posted[0].shot
  {
    PostedHead(s.posted);
    var l, i := Line(s), |s.delivered| + |s.queued|;
    assert l[i] == s.armed.value && l[i + 1] == s.posted[0].shot;
  }

  // ---- What the guards cost --------------------------------------------------------

  // The flag is down before cancel() looks at it, so it never tells the clock's
  // thread: the cancelled shot stays armed and its guard alone stops it.
  lemma CancelPostsNothing(s: State)
    ensures CancelShot(s).posted == s.posted && CancelShot(s).armed == s.armed
  {
  }

  // A repeating timer goes on after its callback exactly when it was adjusted since it
  // was started; otherwise nothing is scheduled and no flag is up.
  lemma IntervalGoesOnIff(s: State)
    requires Inv(s) && Enabled(s, Deliver) && s.queued[0] in s.up && s.repeat == Interval
    ensures var t := Next(Next(s, Deliver), Return);
            && t.delivered == s.delivered + [s.queued[0]]
            && (Active(t) <==> s.adjusted)
            && (if s.adjusted then t.posted == s.posted + [CallDelayed(s.nextShot, s.timeout)]
                else t.posted == s.posted && t.up == {})
  {
    assert s.running == Some(s.queued[0]) && s.nextShot !in {s.queued[0]};
  }

  // The smallest run that shows it: a repeating timer has called back once and is dead.
  lemma IntervalFiresOnce() returns (states: seq<State>, steps: seq<Step>)
    ensures IsRun(states, steps) && steps == [Start(5, Interval), Process, Fire, Deliver, Return]
    ensures var t := states[5];
            t.delivered == [0] && t.repeat == Interval && !Active(t)
            && t.posted == [] && t.armed.None? && t.queued == []
  {
    steps := [Start(5, Interval), Process, Fire, Deliver, Return];
    var s1 := INITIAL.(running := Some(0), timeout := 5, posted := [CallDelayed(0, 5)], up := {0}, nextShot := 1);
    var s2 := s1.(posted := [], armed := Some(0));
    var s3 := s2.(armed := None, queued := [0]);
    var s4 := s3.(queued := [], executing := Some(0), delivered := [0]);
    var s5 := s4.(executing := None, up := {});
    IntervalDelivered(s3, s4, s5);
    states := [INITIAL, s1, s2, s3, s4, s5];
  }

  lemma IntervalDelivered(s3: State, s4: State, s5: State)
    requires s3.up == {0} && s3.queued == [0] && s3.delivered == [] && s3.executing.None?
    requires s3.repeat == Interval && !s3.adjusted
    requires s4 == s3.(queued := [], executing := Some(0), delivered := [0])
    requires s5 == s4.(executing := None, up := {})
    ensures Next(s3, Deliver) == s4 && Next(s4, Return) == s5
  {
    assert s4.up - {0} == {};
  }

  // The smallest run in which a cancelled shot stays armed on the clock's thread.
  lemma CancelLeavesArmed() returns (states: seq<State>, steps: seq<Step>)
    ensures IsRun(states, steps) && steps == [Start(5, SingleShot), Process, Cancel]
    ensures var t := states[3]; !Active(t) && t.armed == Some(0) && t.posted == []
  {
    steps := [Start(5, SingleShot), Process, Cancel];
    var s1 := INITIAL.(running := Some(0), repeat := SingleShot, timeout := 5,
                       posted := [CallDelayed(0, 5)], up := {0}, nextShot := 1);
    var s2 := s1.(posted := [], armed := Some(0));
    var s3 := s2.(running := None, up := {});
    states := [INITIAL, s1, s2, s3];
    assert s2.up - {0} == {};
  }

  // ---- The timer and the object on the clock's thread ---------------------------------

  class Timer {
    var running: Option<Shot>
    var repeat: Repeat
    var timeout: int
    var adjusted: bool
    var queued: seq<Shot>
    var executing: Option<Shot>
    var posted: seq<Event>
    var armed: Option<Shot>
    var up: set<Shot>
    var nextShot: Shot
    var delivered: seq<Shot>

    function View(): State
      reads this
    {
      State(running, repeat, timeout, adjusted, queued, executing, posted, armed, up, nextShot, delivered)
    }

    constructor ()
      ensures View() == INITIAL
    {
      running, repeat, timeout, adjusted := None, Interval, 0, false;
      queued, executing, posted, armed := [], None, [], None;
      up, nextShot, delivered := {}, 0, [];
    }

    method LetGo(shot: Option<Shot>)
      modifies `up
      ensures View() == Drop(old(View()), shot)
    {
      if shot.Some? { up := up - {shot.value}; }
    }

    method CancelAndScheduleShot(remaining: int)
      modifies this
      ensures View() == CancelAndSchedule(old(View()), remaining)
    {
      LetGo(running);
      var shot := nextShot;
      running, up, nextShot := Some(shot), up + {shot}, shot + 1;
      posted := posted + [CallDelayed(shot, remaining)];
    }

    method StartShots(timeout0: int, repeat0: Repeat)
      modifies this
      ensures View() == StartTimer(old(View()), timeout0, repeat0)
    {
      repeat, adjusted, timeout := repeat0, false, timeout0;
      CancelAndScheduleShot(timeout0);
    }

    method CancelShots()
      modifies this
      ensures View() == CancelShot(old(View()))
    {
      LetGo(running);
      running := None;
      posted := posted + (if Active(View()) then [CancelTimer] else []);
    }

    method AdjustTime(remaining: int)
      modifies this
      ensures View() == AdjustShot(old(View()), remaining)
    {
      if Active(View()) {
        CancelAndScheduleShot(remaining);
        adjusted := true;
      }
    }

    method OnTimerEvent()
      modifies this
      ensures View() == TimerEvent(old(View()))
    {
      if repeat == Interval {
        if adjusted { StartShots(timeout, repeat); }
      } else {
        CancelShots();
      }
    }

    method RunClosure(shot: Shot)
      modifies this
      ensures View() == Run(old(View()), shot)
    {
      if shot in up { queued := queued + [shot]; } else { LetGo(Some(shot)); }
    }

    method ProcessEvent()
      requires Enabled(View(), Process)
      modifies this
      ensures View() == Next(old(View()), Process)
    {
      var e := posted[0];
      posted := posted[1..];
      LetGo(armed);
      armed := None;
      match e {
        case CancelTimer =>
        case CallDelayed(shot, delay) =>
          if delay > 0 { armed := Some(shot); } else { RunClosure(shot); }
      }
    }

    method CallNow()
      requires Enabled(View(), Fire)
      modifies this
      ensures View() == Next(old(View()), Fire)
    {
      var shot := armed.value;
      armed := None;
      RunClosure(shot);
    }

    method DeliverShot()
      requires Enabled(View(), Deliver)
      modifies this
      ensures View() == Next(old(View()), Deliver)
    {
      var shot := queued[0];
      queued := queued[1..];
      if shot in up {
        executing, delivered := Some(shot), delivered + [shot];
        OnTimerEvent();
      } else {
        LetGo(Some(shot));
      }
    }
  }
}
