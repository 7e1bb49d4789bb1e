// When differences are asked for: one deadline for the account and one per
// channel, each kind served by a single-shot timer. Times are milliseconds,
// zero means no deadline, and one handler reads the clock once.
module DifferenceTimers {
  import opened Options
  import opened Sets

  type Channel = int

  datatype From = Unknown | PtsGapOrShortPoll | AfterFail

  datatype State = State(
    ptsDeadline: int, channelPts: map<Channel, int>, ptsTimer: Option<int>,
    failDeadline: int, channelFail: map<Channel, int>, failTimer: Option<int>,
    requesting: bool, inited: set<Channel>, channelRequesting: set<Channel>,
    failTimeout: int, channelFailTimeout: map<Channel, int>,
    sentDifferences: nat, sentChannels: multiset<Channel>,
    inFlight: set<Channel>)  // channels whose request has no answer yet

  // ---- Deadlines and timers -------------------------------------------------

  ghost predicate Pending(d: int, deadline: int, m: map<Channel, int>) {
    (deadline != 0 && d == deadline) || exists c :: c in m && m[c] == d
  }

  // The timer is due no later than any deadline.
  ghost predicate Armed(timer: Option<int>, deadline: int, m: map<Channel, int>) {
    forall d :: Pending(d, deadline, m) ==> timer.Some? && timer.value <= d
  }

  // The timer is due exactly at the earliest deadline, and idle if there is none.
  ghost predicate Exact(timer: Option<int>, deadline: int, m: map<Channel, int>) {
    Armed(timer, deadline, m) && (timer.Some? ==> Pending(timer.value, deadline, m))
  }

  function Due(m: map<Channel, int>, now: int): set<Channel> {
    set c | c in m && m[c] <= now
  }

  // ---- The requests ----------------------------------------------------------

  function AskDifference(s: State): State {
    var s1 := s.(ptsDeadline := 0);
    if s1.requesting then s1
    else s1.(failDeadline := 0, requesting := true, sentDifferences := s1.sentDifferences + 1)
  }

  function AskChannel(s: State, c: Channel, from: From): State {
    var s1 := if from != PtsGapOrShortPoll then s.(channelPts := s.channelPts - {c}) else s;
    if c !in s1.inited || c in s1.channelRequesting then s1
    else
      var s2 := if from != AfterFail then s1.(channelFail := s1.channelFail - {c}) else s1;
      s2.(channelRequesting := s2.channelRequesting + {c}, sentChannels := s2.sentChannels + multiset{c},
            inFlight := s2.inFlight + {c})
  }

  // The call made while sweeping a map leaves that map alone: this is what `from` is for.
  lemma SweptMapUntouched(s: State, c: Channel)
    ensures AskChannel(s, c, PtsGapOrShortPoll).channelPts == s.channelPts
    ensures AskChannel(s, c, AfterFail).channelFail == s.channelFail
  {
  }

  // The channels of `due` that are in fact asked.
  function Asked(s: State, due: set<Channel>): set<Channel> {
    due * s.inited - s.channelRequesting
  }

  // ---- The sweeps, without their loops ---------------------------------------

  // The map a sweep goes over.
  function Swept(s: State, from: From): map<Channel, int> {
    if from == AfterFail then s.channelFail else s.channelPts
  }

  // A sweep has taken the channels of `due` out of its map and asked for them.
  function Taken(g: State, due: set<Channel>, from: From): State {
    var asked := Asked(g, due);
    g.(channelPts := g.channelPts - due,
       channelFail := g.channelFail - (if from == AfterFail then due else asked),
       channelRequesting := g.channelRequesting + asked,
       sentChannels := g.sentChannels + multiset(asked),
       inFlight := g.inFlight + asked)
  }

  function PtsSwept(s: State, now: int, timer: Option<int>): State {
    var g := if s.ptsDeadline != 0 && s.ptsDeadline <= now then AskDifference(s) else s;
    Taken(g, Due(g.channelPts, now), PtsGapOrShortPoll).(ptsTimer := timer)
  }

  function FailSwept(s: State, now: int, timer: Option<int>): State {
    var g := if s.failDeadline != 0 && s.failDeadline <= now then AskDifference(s.(requesting := false)) else s;
    Taken(g, Due(g.channelFail, now), AfterFail).(failTimer := timer)
  }

  ghost predicate SweepPts(s: State, now: int, t: State) {
    t == PtsSwept(s, now, t.ptsTimer) && Exact(t.ptsTimer, t.ptsDeadline, t.channelPts)
  }

  ghost predicate SweepFail(s: State, now: int, t: State) {
    t == FailSwept(s, now, t.failTimer) && Exact(t.failTimer, t.failDeadline, t.channelFail)
  }

  // ---- A changed deadline ----------------------------------------------------

  datatype Deadlines = Deadlines(global: int, perChannel: map<Channel, int>)

  // The new deadlines, or none when nothing changed.
  function TimeChanged(ch: Option<Channel>, ms: int, ds: Deadlines, now: int): Option<Deadlines> {
    match ch
    case Some(c) =>
      if ms <= 0 then
        if c in ds.perChannel then Some(ds.(perChannel := ds.perChannel - {c})) else None
      else if c in ds.perChannel && ds.perChannel[c] <= now + ms then None
      else Some(ds.(perChannel := ds.perChannel[c := now + ms]))
    case None =>
      if ms <= 0 then
        if ds.global != 0 then Some(ds.(global := 0)) else None
      else if ds.global != 0 && ds.global <= now + ms then None
      else Some(ds.(global := now + ms))
  }

  ghost predicate StartPts(s: State, ch: Option<Channel>, ms: int, now: int, t: State) {
    match TimeChanged(ch, ms, Deadlines(s.ptsDeadline, s.channelPts), now)
    case None => t == s
    case Some(ds) => SweepPts(s.(ptsDeadline := ds.global, channelPts := ds.perChannel), now, t)
  }

  function TimeoutOf(s: State, ch: Option<Channel>): int {
    match ch
    case None => s.failTimeout
    case Some(c) => if c in s.channelFailTimeout then s.channelFailTimeout[c] else 1
  }

  function Backoff(timeout: int): int {
    if timeout < 64 then timeout * 2 else timeout
  }

  function WithTimeout(s: State, ch: Option<Channel>, timeout: int): State {
    match ch
    case None => s.(failTimeout := timeout)
    case Some(c) => s.(channelFailTimeout := s.channelFailTimeout[c := timeout])
  }

  ghost predicate StartFail(s: State, ch: Option<Channel>, now: int, t: State) {
    var timeout := TimeoutOf(s, ch);
    var s1 := WithTimeout(s, ch, Backoff(timeout));
    match TimeChanged(ch, timeout * 1000, Deadlines(s.failDeadline, s.channelFail), now)
    case None => t == s1
    case Some(ds) => SweepFail(s1.(failDeadline := ds.global, channelFail := ds.perChannel), now, t)
  }

  // ---- All steps -------------------------------------------------------------

  datatype Event =
    | PtsStart(ch: Option<Channel>, ms: int, now: int)
    | DifferenceFailed(now: int)
    | ChannelFailed(c: Channel, now: int)
    | PtsTimerFired(now: int)
    | FailTimerFired(now: int)
    | GotState
    | GotDifference(again: bool)
    | GotDifferenceTooLong
    | GotChannelDifference(c: Channel, inits: bool, isFinal: bool)
    | AskForDifference
    | AskForChannel(c: Channel)
    | ChannelInited(c: Channel)

  ghost predicate Next(s: State, e: Event, t: State) {
    match e
    case PtsStart(ch, ms, now) => StartPts(s, ch, ms, now, t)
    case DifferenceFailed(now) => StartFail(s, None, now, t)
    case ChannelFailed(c, now) => c in s.inFlight && StartFail(s.(inFlight := s.inFlight - {c}), Some(c), now, t)
    case PtsTimerFired(now) => SweepPts(s.(ptsTimer := None), now, t)
    case FailTimerFired(now) => SweepFail(s.(failTimer := None), now, t)
    case GotState => t == s.(requesting := false)
    case GotDifference(again) =>
      var s1 := s.(failTimeout := 1, requesting := false);
      t == if again then AskDifference(s1) else s1
    case GotDifferenceTooLong => t == s.(failTimeout := 1)
    case GotChannelDifference(c, inits, isFinal) =>
      c in s.inFlight &&
      var s1 := s.(channelFailTimeout := s.channelFailTimeout - {c},
                   inited := if inits then s.inited + {c} else s.inited - {c},
                   channelRequesting := s.channelRequesting - {c},
                   inFlight := s.inFlight - {c});
      t == if isFinal then s1 else AskChannel(s1, c, Unknown)
    case AskForDifference => t == AskDifference(s)
    case AskForChannel(c) => t == AskChannel(s, c, Unknown)
    case ChannelInited(c) => t == s.(inited := s.inited + {c})
  }

  const INITIAL := State(0, map[], None, 0, map[], None, true, {}, {}, 1, map[], 0, multiset{}, {})

  ghost predicate IsRun(states: seq<State>, es: seq<Event>) {
    && |states| == |es| + 1 && states[0] == INITIAL
    && forall i :: 0 <= i < |es| ==> Next(states[i], es[i], states[i + 1])
  }

  // ---- No deadline is slept through -------------------------------------------

  ghost predicate AllArmed(s: State) {
    Armed(s.ptsTimer, s.ptsDeadline, s.channelPts) && Armed(s.failTimer, s.failDeadline, s.channelFail)
  }

  lemma FewerDeadlinesStayArmed(
      timer: Option<int>, d: int, m: map<Channel, int>, d': int, m': map<Channel, int>)
    requires Armed(timer, d, m) && (d' == 0 || d' == d)
    requires m'.Keys <= m.Keys && forall c :: c in m' ==> m'[c] == m[c]
    ensures Armed(timer, d', m')
  {
    forall x | Pending(x, d', m') ensures timer.Some? && timer.value <= x {
      assert Pending(x, d, m);
    }
  }

  lemma AskKeepsArmed(s: State, c: Channel, from: From)
    requires AllArmed(s)
    ensures AllArmed(AskDifference(s)) && AllArmed(AskChannel(s, c, from))
  {
    var t := AskDifference(s);
    FewerDeadlinesStayArmed(s.ptsTimer, s.ptsDeadline, s.channelPts, t.ptsDeadline, t.channelPts);
    FewerDeadlinesStayArmed(s.failTimer, s.failDeadline, s.channelFail, t.failDeadline, t.channelFail);
    var u := AskChannel(s, c, from);
    FewerDeadlinesStayArmed(s.ptsTimer, s.ptsDeadline, s.channelPts, u.ptsDeadline, u.channelPts);
    FewerDeadlinesStayArmed(s.failTimer, s.failDeadline, s.channelFail, u.failDeadline, u.channelFail);
  }

  lemma SweepPtsArms(s: State, now: int, t: State)
    requires SweepPts(s, now, t) && Armed(s.failTimer, s.failDeadline, s.channelFail)
    ensures AllArmed(t)
  {
    FewerDeadlinesStayArmed(s.failTimer, s.failDeadline, s.channelFail, t.failDeadline, t.channelFail);
  }

  lemma SweepFailArms(s: State, now: int, t: State)
    requires SweepFail(s, now, t) && Armed(s.ptsTimer, s.ptsDeadline, s.channelPts)
    ensures AllArmed(t)
  {
    FewerDeadlinesStayArmed(s.ptsTimer, s.ptsDeadline, s.channelPts, t.ptsDeadline, t.channelPts);
  }

  lemma StartKeepsArmed(s: State, ch: Option<Channel>, ms: int, now: int, t: State)
    requires AllArmed(s)
    ensures StartPts(s, ch, ms, now, t) ==> AllArmed(t)
    ensures StartFail(s, ch, now, t) ==> AllArmed(t)
  {
    match TimeChanged(ch, ms, Deadlines(s.ptsDeadline, s.channelPts), now) {
      case None =>
      case Some(ds) =>
        if StartPts(s, ch, ms, now, t) {
          SweepPtsArms(s.(ptsDeadline := ds.global, channelPts := ds.perChannel), now, t);
        }
    }
    var timeout := TimeoutOf(s, ch);
    var s1 := WithTimeout(s, ch, Backoff(timeout));
    match TimeChanged(ch, timeout * 1000, Deadlines(s.failDeadline, s.channelFail), now) {
      case None =>
      case Some(ds) =>
        if StartFail(s, ch, now, t) {
          SweepFailArms(s1.(failDeadline := ds.global, channelFail := ds.perChannel), now, t);
        }
    }
  }

  lemma NextKeepsArmed(s: State, e: Event, t: State)
    requires AllArmed(s) && Next(s, e, t)
    ensures AllArmed(t)
  {
    match e
    case PtsStart(ch, ms, now) => StartKeepsArmed(s, ch, ms, now, t);
    case DifferenceFailed(now) => StartKeepsArmed(s, None, 0, now, t);
    case ChannelFailed(c, now) => StartKeepsArmed(s.(inFlight := s.inFlight - {c}), Some(c), 0, now, t);
    case PtsTimerFired(now) => SweepPtsArms(s.(ptsTimer := None), now, t);
    case FailTimerFired(now) => SweepFailArms(s.(failTimer := None), now, t);
    case GotDifference(again) => AskKeepsArmed(s.(failTimeout := 1, requesting := false), 0, Unknown);
    case GotChannelDifference(c, inits, isFinal) =>
      var s1 := s.(channelFailTimeout := s.channelFailTimeout - {c},
                   inited := if inits then s.inited + {c} else s.inited - {c},
                   channelRequesting := s.channelRequesting - {c},
                   inFlight := s.inFlight - {c});
      AskKeepsArmed(s1, c, Unknown);
    case AskForDifference => AskKeepsArmed(s, 0, Unknown);
    case AskForChannel(c) => AskKeepsArmed(s, c, Unknown);
    case _ =>
  }

  // Main result: in every reachable state each timer is running and due no later
  // than the earliest deadline it serves.
  lemma {:induction false} ReachableArmed(states: seq<State>, es: seq<Event>)
    requires IsRun(states, es)
    ensures AllArmed(states[|es|])
    decreases |es|
  {
    if es != [] {
      var n := |es| - 1;
      ReachableArmed(states[..|states| - 1], es[..n]);
      assert Next(states[n], es[n], states[n + 1]);
      NextKeepsArmed(states[n], es[n], states[n + 1]);
    }
  }

  // How often channel `c` is asked by a sweep that finds it due or not.
  predicate GoesOut(s: State, c: Channel, due: bool) {
    due && c in s.inited && c !in s.channelRequesting
  }

  // A sweep that found the channels of `due` due asked for these, once each, unless they are
  // not known or already being asked, and marked exactly those.
  ghost predicate AsksDue(s: State, due: set<Channel>, t: State) {
    && (forall c :: t.sentChannels[c] == s.sentChannels[c] + if GoesOut(s, c, c in due) then 1 else 0)
    && (forall c :: c in t.channelRequesting <==> c in s.channelRequesting || GoesOut(s, c, c in due))
    && (forall c :: c in t.inFlight <==> c in s.inFlight || GoesOut(s, c, c in due))
    && t.inited == s.inited && t.failTimeout == s.failTimeout && t.channelFailTimeout == s.channelFailTimeout
  }

  // `m'` is `m` without the channels of `gone`.
  ghost predicate Loses(m: map<Channel, int>, gone: set<Channel>, m': map<Channel, int>) {
    forall c :: (c in m' <==> c in m && c !in gone) && (c in m' ==> m'[c] == m[c])
  }

  // The channels of `due` that a request goes out for.
  function OutTo(s: State, due: set<Channel>): set<Channel> {
    set c | c in due && GoesOut(s, c, true)
  }

  lemma TakenAsks(g: State, due: set<Channel>, from: From)
    ensures AsksDue(g, due, Taken(g, due, from))
    ensures Asked(g, due) == OutTo(g, due)
  {
    var t := Taken(g, due, from);
    forall c ensures t.sentChannels[c] == g.sentChannels[c] + if GoesOut(g, c, c in due) then 1 else 0 {
      assert c in Asked(g, due) <==> GoesOut(g, c, c in due);
    }
  }

  // Main result: a sweep leaves only future deadlines, and its timer runs while there are any.
  lemma SweepLeavesTheFuture(s: State, now: int, t: State)
    requires SweepPts(s, now, t)
    ensures forall d :: Pending(d, t.ptsDeadline, t.channelPts) ==> now < d
    ensures t.ptsTimer.None? <==> t.ptsDeadline == 0 && t.channelPts == map[]
  {
    assert t.ptsDeadline != 0 ==> Pending(t.ptsDeadline, t.ptsDeadline, t.channelPts);
    assert forall c :: c in t.channelPts ==> Pending(t.channelPts[c], t.ptsDeadline, t.channelPts);
  }

  // Main result: a due account deadline is answered with a request for a difference, unless one
  // is on its way, and nothing else is.
  lemma SweepAsksForAccount(s: State, now: int, t: State)
    requires SweepPts(s, now, t)
    ensures var due := s.ptsDeadline != 0 && s.ptsDeadline <= now;
            && t.ptsDeadline == (if due then 0 else s.ptsDeadline)
            && (t.requesting <==> s.requesting || due)
            && t.sentDifferences == s.sentDifferences + (if due && !s.requesting then 1 else 0)
            && t.failDeadline == if due && !s.requesting then 0 else s.failDeadline
  {
  }

  // Main result: each due channel is answered with one request, unless it is not known or
  // already being asked, and no other channel is; the deadline after a failure goes with it.
  lemma SweepAsksForChannels(s: State, now: int, t: State)
    requires SweepPts(s, now, t)
    ensures var due := Due(s.channelPts, now);
            && AsksDue(s, due, t) && Loses(s.channelPts, due, t.channelPts)
            && Loses(s.channelFail, OutTo(s, due), t.channelFail) && t.failTimer == s.failTimer
  {
    var g := if s.ptsDeadline != 0 && s.ptsDeadline <= now then AskDifference(s) else s;
    var due := Due(s.channelPts, now);
    TakenAsks(g, due, PtsGapOrShortPoll);
    SweptFrom(s, g, due, PtsGapOrShortPoll, Taken(g, due, PtsGapOrShortPoll));
  }

  // What a request for the account changes is not what the sweep of the channels looks at.
  lemma SweptFrom(s: State, g: State, due: set<Channel>, from: From, t: State)
    requires g.channelPts == s.channelPts && g.channelFail == s.channelFail && g.inited == s.inited
    requires g.channelRequesting == s.channelRequesting && g.sentChannels == s.sentChannels
    requires g.inFlight == s.inFlight && g.failTimeout == s.failTimeout
    requires g.channelFailTimeout == s.channelFailTimeout && t == Taken(g, due, from)
    requires AsksDue(g, due, t) && Asked(g, due) == OutTo(g, due)
    ensures AsksDue(s, due, t) && Loses(s.channelPts, due, t.channelPts)
    ensures Loses(s.channelFail, if from == AfterFail then due else OutTo(s, due), t.channelFail)
  {
    forall c ensures GoesOut(g, c, c in due) == GoesOut(s, c, c in due) { }
    assert OutTo(g, due) == OutTo(s, due);
  }

  lemma RetrySweepLeavesTheFuture(s: State, now: int, t: State)
    requires SweepFail(s, now, t)
    ensures forall d :: Pending(d, t.failDeadline, t.channelFail) ==> now < d
    ensures t.failTimer.None? <==> t.failDeadline == 0 && t.channelFail == map[]
  {
    assert t.failDeadline != 0 ==> Pending(t.failDeadline, t.failDeadline, t.channelFail);
    assert forall c :: c in t.channelFail ==> Pending(t.channelFail[c], t.failDeadline, t.channelFail);
  }

  // A due retry of the account always leads to a new request, and takes its other deadline.
  lemma RetrySweepAsksForAccount(s: State, now: int, t: State)
    requires SweepFail(s, now, t)
    ensures var due := s.failDeadline != 0 && s.failDeadline <= now;
            && t.failDeadline == (if due then 0 else s.failDeadline)
            && (t.requesting <==> s.requesting || due)
            && t.sentDifferences == s.sentDifferences + (if due then 1 else 0)
            && t.ptsDeadline == if due then 0 else s.ptsDeadline
  {
  }

  lemma RetrySweepAsksForChannels(s: State, now: int, t: State)
    requires SweepFail(s, now, t)
    ensures var due := Due(s.channelFail, now);
            && AsksDue(s, due, t) && Loses(s.channelFail, due, t.channelFail)
            && Loses(s.channelPts, due, t.channelPts) && t.ptsTimer == s.ptsTimer
  {
    var g := if s.failDeadline != 0 && s.failDeadline <= now then AskDifference(s.(requesting := false)) else s;
    var due := Due(s.channelFail, now);
    TakenAsks(g, due, AfterFail);
    SweptFrom(s, g, due, AfterFail, Taken(g, due, AfterFail));
  }

  // ---- What the other events come to ----------------------------------------------------

  // The deadline of the account or of a channel, if there is one.
  function DeadlineOf(ds: Deadlines, ch: Option<Channel>): Option<int> {
    match ch
    case None => if ds.global == 0 then None else Some(ds.global)
    case Some(c) => if c in ds.perChannel then Some(ds.perChannel[c]) else None
  }

  function Earlier(a: Option<int>, b: int): int {
    if a.Some? && a.value < b then a.value else b
  }

  // Main result: a start sets the deadline to the earlier of the one there was and `ms` from
  // now, or takes it away when `ms` is not positive; the other deadlines stay; and it counts
  // as a change exactly when a deadline changed.
  lemma TimeChangedMeans(ch: Option<Channel>, ms: int, ds: Deadlines, now: int)
    requires now + ms != 0
    ensures var r := TimeChanged(ch, ms, ds, now);
            var after := if r.Some? then r.value else ds;
            && DeadlineOf(after, ch) == (if ms <= 0 then None else Some(Earlier(DeadlineOf(ds, ch), now + ms)))
            && (forall other :: other != ch ==> DeadlineOf(after, other) == DeadlineOf(ds, other))
            && (r.Some? <==> exists x :: DeadlineOf(after, x) != DeadlineOf(ds, x))
  {
    var r := TimeChanged(ch, ms, ds, now);
    if r.Some? { assert DeadlineOf(r.value, ch) != DeadlineOf(ds, ch); }
  }

  function PtsDeadlines(s: State): Deadlines {
    Deadlines(s.ptsDeadline, s.channelPts)
  }

  function FailDeadlines(s: State): Deadlines {
    Deadlines(s.failDeadline, s.channelFail)
  }

  // Main result: after a start with the sweep it may lead to, the deadline it is about is the
  // earlier of the one there was and `ms` from now, or is gone.
  lemma StartMeans(s: State, ch: Option<Channel>, ms: int, now: int, t: State)
    requires StartPts(s, ch, ms, now, t) && now >= 0
    ensures DeadlineOf(PtsDeadlines(t), ch)
         == if ms <= 0 then None else Some(Earlier(DeadlineOf(PtsDeadlines(s), ch), now + ms))
  {
    if now + ms != 0 { TimeChangedMeans(ch, ms, PtsDeadlines(s), now); }
  }

  // Main result: a failed request sets its deadline by its delay, one second for a channel that
  // did not fail before, and doubles that delay up to 64 seconds; the other delays stay.
  lemma FailureMeans(s: State, ch: Option<Channel>, now: int, t: State)
    requires StartFail(s, ch, now, t) && TimeoutOf(s, ch) >= 1 && now >= 0
    ensures var delay := match ch
                         case None => s.failTimeout
                         case Some(c) => if c in s.channelFailTimeout then s.channelFailTimeout[c] else 1;
            && DeadlineOf(FailDeadlines(t), ch)
               == Some(Earlier(DeadlineOf(FailDeadlines(s), ch), now + 1000 * delay))
            && TimeoutOf(t, ch) == (if delay < 64 then 2 * delay else delay)
            && forall other :: other != ch ==> TimeoutOf(t, other) == TimeoutOf(s, other)
  {
    FailureDelays(s, ch, now, t);
    FailureDeadline(s, ch, now, t);
  }

  lemma FailureDelays(s: State, ch: Option<Channel>, now: int, t: State)
    requires StartFail(s, ch, now, t)
    ensures TimeoutOf(t, ch) == Backoff(TimeoutOf(s, ch))
    ensures forall other :: other != ch ==> TimeoutOf(t, other) == TimeoutOf(s, other)
  {
    var s1 := WithTimeout(s, ch, Backoff(TimeoutOf(s, ch)));
    assert t.failTimeout == s1.failTimeout && t.channelFailTimeout == s1.channelFailTimeout;
  }

  lemma FailureDeadline(s: State, ch: Option<Channel>, now: int, t: State)
    requires StartFail(s, ch, now, t) && TimeoutOf(s, ch) >= 1 && now >= 0
    ensures DeadlineOf(FailDeadlines(t), ch)
         == Some(Earlier(DeadlineOf(FailDeadlines(s), ch), now + 1000 * TimeoutOf(s, ch)))
  {
    var timeout := TimeoutOf(s, ch);
    var r := TimeChanged(ch, timeout * 1000, FailDeadlines(s), now);
    TimeChangedMeans(ch, timeout * 1000, FailDeadlines(s), now);
    if r.Some? {
      var s1 := WithTimeout(s, ch, Backoff(timeout));
      FutureStays(s1.(failDeadline := r.value.global, channelFail := r.value.perChannel), ch, now, t);
    }
  }

  // A deadline in the future is still there after the sweep.
  lemma FutureStays(s: State, ch: Option<Channel>, now: int, t: State)
    requires SweepFail(s, now, t) && DeadlineOf(FailDeadlines(s), ch).Some?
    requires DeadlineOf(FailDeadlines(s), ch).value > now
    ensures DeadlineOf(FailDeadlines(t), ch) == DeadlineOf(FailDeadlines(s), ch)
  {
    RetrySweepAsksForAccount(s, now, t);
    RetrySweepAsksForChannels(s, now, t);
  }

  // Main result: what an answer, or asking, does to the requests and the delays.
  lemma AnswersMean(s: State, e: Event, t: State)
    requires Next(s, e, t)
    ensures e.GotState? ==> !t.requesting && t.sentDifferences == s.sentDifferences && t.failTimeout == s.failTimeout
    ensures e.GotDifference? ==>
              && t.failTimeout == 1 && t.requesting == e.again
              && t.sentDifferences == s.sentDifferences + (if e.again then 1 else 0)
    ensures e.GotDifferenceTooLong? ==> t.failTimeout == 1 && t.requesting == s.requesting
    ensures e.AskForDifference? ==>
              t.requesting && t.sentDifferences == s.sentDifferences + (if s.requesting then 0 else 1)
    ensures e.GotState? || e.GotDifference? || e.GotDifferenceTooLong? || e.AskForDifference? ==>
              && t.channelRequesting == s.channelRequesting && t.sentChannels == s.sentChannels
              && t.channelPts == s.channelPts && t.channelFail == s.channelFail
  {
  }

  // The answer for a channel ends its request and resets its delay; when it is not final and
  // the channel is known, the next request goes out, and both its deadlines are gone.
  lemma ChannelAnswerMeans(s: State, c: Channel, inits: bool, isFinal: bool, t: State)
    requires Next(s, GotChannelDifference(c, inits, isFinal), t)
    ensures var again := inits && !isFinal;
            && TimeoutOf(t, Some(c)) == 1 && (c in t.inited <==> inits)
            && (c in t.channelRequesting <==> again) && (c in t.inFlight <==> again)
            && t.sentChannels[c] == s.sentChannels[c] + (if again then 1 else 0)
            && (again ==> c !in t.channelPts && c !in t.channelFail)
            && (isFinal ==> t.channelPts == s.channelPts && t.channelFail == s.channelFail)
            && forall d :: d != c ==>
                 && (d in t.channelRequesting <==> d in s.channelRequesting) && (d in t.inited <==> d in s.inited)
                 && t.sentChannels[d] == s.sentChannels[d] && TimeoutOf(t, Some(d)) == TimeoutOf(s, Some(d))
  {
  }

  // Asking for a channel: a request goes out exactly when it is known and not being asked.
  lemma AskChannelMeans(s: State, c: Channel, from: From)
    ensures var t, goes := AskChannel(s, c, from), c in s.inited && c !in s.channelRequesting;
            && t.sentChannels == (if goes then s.sentChannels + multiset{c} else s.sentChannels)
            && (c in t.channelRequesting <==> c in s.channelRequesting || goes)
            && (c in t.inFlight <==> c in s.inFlight || goes)
            && (from != PtsGapOrShortPoll ==> c !in t.channelPts)
            && (goes && from != AfterFail ==> c !in t.channelFail)
            && t.requesting == s.requesting && t.sentDifferences == s.sentDifferences
  {
  }

  // ---- Back-off ----------------------------------------------------------------

  predicate IsBackoff(x: int) {
    x == 1 || x == 2 || x == 4 || x == 8 || x == 16 || x == 32 || x == 64
  }

  ghost predicate AllBackoff(s: State) {
    IsBackoff(s.failTimeout) && forall c :: c in s.channelFailTimeout ==> IsBackoff(s.channelFailTimeout[c])
  }

  lemma FailureKeepsBackoff(s: State, ch: Option<Channel>, now: int, t: State)
    requires StartFail(s, ch, now, t) && AllBackoff(s)
    ensures AllBackoff(t)
  {
    var s1 := WithTimeout(s, ch, Backoff(TimeoutOf(s, ch)));
    assert AllBackoff(s1);
    assert t.failTimeout == s1.failTimeout && t.channelFailTimeout == s1.channelFailTimeout;
  }

  // No delay is new but a reset one, and none is changed.
  ghost predicate DelaysFrom(s: State, t: State) {
    && (t.failTimeout == s.failTimeout || t.failTimeout == 1)
    && forall c :: c in t.channelFailTimeout ==>
         c in s.channelFailTimeout && t.channelFailTimeout[c] == s.channelFailTimeout[c]
  }

  lemma StartKeepsDelays(s: State, ch: Option<Channel>, ms: int, now: int, t: State)
    requires StartPts(s, ch, ms, now, t)
    ensures DelaysFrom(s, t)
  {
  }

  lemma SweepsKeepDelays(s: State, now: int, t: State)
    ensures SweepPts(s.(ptsTimer := None), now, t) ==> DelaysFrom(s, t)
    ensures SweepFail(s.(failTimer := None), now, t) ==> DelaysFrom(s, t)
  {
  }

  lemma NextKeepsBackoff(s: State, e: Event, t: State)
    requires Next(s, e, t) && AllBackoff(s)
    ensures AllBackoff(t)
  {
    match e
    case DifferenceFailed(now) => FailureKeepsBackoff(s, None, now, t);
    case ChannelFailed(c, now) => FailureKeepsBackoff(s.(inFlight := s.inFlight - {c}), Some(c), now, t);
    case PtsStart(ch, ms, now) => StartKeepsDelays(s, ch, ms, now, t);
    case PtsTimerFired(now) => SweepsKeepDelays(s, now, t);
    case FailTimerFired(now) => SweepsKeepDelays(s, now, t);
    case _ => assert DelaysFrom(s, t);
  }

  // The retry delays are 1, 2, 4, .., 64 seconds in every reachable state.
  lemma {:induction false} ReachableBackoff(states: seq<State>, es: seq<Event>)
    requires IsRun(states, es)
    ensures AllBackoff(states[|es|])
    decreases |es|
  {
    if es != [] {
      var n := |es| - 1;
      ReachableBackoff(states[..|states| - 1], es[..n]);
      assert Next(states[n], es[n], states[n + 1]);
      NextKeepsBackoff(states[n], es[n], states[n + 1]);
    }
  }

  // ---- A channel whose request failed --------------------------------------------

  // Still marked as requesting, though no answer is on its way.
  ghost predicate Stuck(s: State, c: Channel) {
    c in s.channelRequesting && c !in s.inFlight
  }

  // The error handler sets a deadline but leaves the mark, so the sweep that the
  // deadline leads to skips the channel.
  lemma FailureSticks(s: State, c: Channel, now: int, t: State)
    requires s.inFlight <= s.channelRequesting && Next(s, ChannelFailed(c, now), t)
    ensures Stuck(t, c)
  {
  }

  // A retry goes out exactly when the channel is known and not marked as requesting.
  lemma RetryIff(s: State, now: int, t: State, c: Channel)
    requires SweepFail(s, now, t) && c in s.channelFail && s.channelFail[c] <= now
    ensures t.sentChannels[c] == s.sentChannels[c] + 1 <==> c in s.inited && c !in s.channelRequesting
  {
    var g := if s.failDeadline != 0 && s.failDeadline <= now then AskDifference(s.(requesting := false)) else s;
    assert c in Asked(g, Due(g.channelFail, now)) <==> c in s.inited && c !in s.channelRequesting;
  }

  // The smallest run that shows it: asked, failed, deadline passed, not asked again.
  const AFTER_FAILURE := INITIAL.(
    inited := {7}, channelRequesting := {7}, sentChannels := multiset{7},
    channelFailTimeout := map[7 := 2], channelFail := map[7 := 1001], failTimer := Some(1001))

  lemma FailureExample(s: State)
    requires s == INITIAL.(inited := {7}, channelRequesting := {7}, sentChannels := multiset{7}, inFlight := {7})
    ensures Next(s, ChannelFailed(7, 1), AFTER_FAILURE)
  {
    assert s.inFlight - {7} == {};
    var t := AFTER_FAILURE.(failTimer := None);
    assert Due(map[7 := 1001], 1) == {};
    TakenNone(t, AfterFail);
    assert Pending(1001, 0, t.channelFail);
    assert SweepFail(t, 1, AFTER_FAILURE);
  }

  lemma RetryExample()
    ensures Next(AFTER_FAILURE, FailTimerFired(1001), RETRIED)
  {
    var s := AFTER_FAILURE.(failTimer := None);
    assert Due(s.channelFail, 1001) == {7};
    assert Asked(s, {7}) == {};
    assert s.channelFail - {7} == map[];
  }

  const KNOWN := INITIAL.(inited := {7})
  const ASKED := KNOWN.(channelRequesting := {7}, sentChannels := multiset{7}, inFlight := {7})
  const RETRIED := AFTER_FAILURE.(channelFail := map[], failTimer := None)

  lemma AskedExample()
    ensures Next(INITIAL, ChannelInited(7), KNOWN) && Next(KNOWN, AskForChannel(7), ASKED)
  {
    assert INITIAL.inited + {7} == {7};
    var s := AskChannel(KNOWN, 7, Unknown);
    assert s.channelPts == map[] && s.channelFail == map[];
    assert s.channelRequesting == {7} && s.inFlight == {7} && s.sentChannels == multiset{7};
  }

  lemma FailedRetryExample() returns (states: seq<State>, es: seq<Event>)
    ensures IsRun(states, es) && es == [ChannelInited(7), AskForChannel(7), ChannelFailed(7, 1), FailTimerFired(1001)]
    ensures 7 in states[3].channelFail && states[3].channelFail[7] == 1001
    ensures states[4].sentChannels[7] == 1 && states[4].channelFail == map[] && states[4].failTimer == None
  {
    AskedExample();
    FailureExample(ASKED);
    RetryExample();
    es := [ChannelInited(7), AskForChannel(7), ChannelFailed(7, 1), FailTimerFired(1001)];
    states := [INITIAL, KNOWN, ASKED, AFTER_FAILURE, RETRIED];
  }

  // Nothing was sent for `c` between `s` and `t`, and it is stuck in both.
  ghost predicate StaysStuck(s: State, t: State, c: Channel) {
    Stuck(s, c) && Stuck(t, c) && t.sentChannels[c] == s.sentChannels[c]
  }

  lemma TakenStaysStuck(g: State, due: set<Channel>, from: From, c: Channel)
    requires Stuck(g, c)
    ensures StaysStuck(g, Taken(g, due, from), c)
  {
    assert c !in Asked(g, due);
  }

  lemma SweepStaysStuck(s: State, now: int, t: State, c: Channel)
    requires Stuck(s, c) && SweepPts(s, now, t)
    ensures StaysStuck(s, t, c)
  {
    var g := if s.ptsDeadline != 0 && s.ptsDeadline <= now then AskDifference(s) else s;
    TakenStaysStuck(g, Due(g.channelPts, now), PtsGapOrShortPoll, c);
  }

  lemma RetrySweepStaysStuck(s: State, now: int, t: State, c: Channel)
    requires Stuck(s, c) && SweepFail(s, now, t)
    ensures StaysStuck(s, t, c)
  {
    var g := if s.failDeadline != 0 && s.failDeadline <= now then AskDifference(s.(requesting := false)) else s;
    TakenStaysStuck(g, Due(g.channelFail, now), AfterFail, c);
  }

  lemma StartStaysStuck(s: State, ch: Option<Channel>, ms: int, now: int, t: State, c: Channel)
    requires Stuck(s, c) && StartPts(s, ch, ms, now, t)
    ensures StaysStuck(s, t, c)
  {
    match TimeChanged(ch, ms, Deadlines(s.ptsDeadline, s.channelPts), now) {
      case None =>
      case Some(ds) => SweepStaysStuck(s.(ptsDeadline := ds.global, channelPts := ds.perChannel), now, t, c);
    }
  }

  lemma StartFailStaysStuck(s: State, ch: Option<Channel>, now: int, t: State, c: Channel)
    requires Stuck(s, c) && StartFail(s, ch, now, t)
    ensures StaysStuck(s, t, c)
  {
    var timeout := TimeoutOf(s, ch);
    var s1 := WithTimeout(s, ch, Backoff(timeout));
    assert StaysStuck(s, s1, c);
    match TimeChanged(ch, timeout * 1000, Deadlines(s.failDeadline, s.channelFail), now) {
      case None =>
      case Some(ds) => RetrySweepStaysStuck(s1.(failDeadline := ds.global, channelFail := ds.perChannel), now, t, c);
    }
  }

  lemma NextKeepsStuck(s: State, e: Event, t: State, c: Channel)
    requires Next(s, e, t) && Stuck(s, c)
    ensures StaysStuck(s, t, c)
  {
    match e
    case PtsStart(ch, ms, now) => StartStaysStuck(s, ch, ms, now, t, c);
    case DifferenceFailed(now) => StartFailStaysStuck(s, None, now, t, c);
    case ChannelFailed(d, now) =>
      assert d != c;
      StartFailStaysStuck(s.(inFlight := s.inFlight - {d}), Some(d), now, t, c);
    case PtsTimerFired(now) => SweepStaysStuck(s.(ptsTimer := None), now, t, c);
    case FailTimerFired(now) => RetrySweepStaysStuck(s.(failTimer := None), now, t, c);
    case GotChannelDifference(d, _, _) => assert d != c;
    case _ =>
  }

  // Main result: once its request failed a channel is never asked again,
  // whatever deadlines are set for it and however often the timers fire.
  lemma {:induction false} FailedChannelNeverAskedAgain(states: seq<State>, es: seq<Event>, k: nat, c: Channel)
    requires IsRun(states, es) && k < |es| && es[k].ChannelFailed? && es[k].c == c
    ensures Stuck(states[|es|], c) && states[|es|].sentChannels[c] == states[k].sentChannels[c]
    decreases |es|
  {
    var n := |es| - 1;
    assert Next(states[n], es[n], states[n + 1]);
    if k == n {
      InFlightAreMarked(states[..|states| - 1], es[..n]);
      FailureSticks(states[n], c, es[n].now, states[n + 1]);
    } else {
      FailedChannelNeverAskedAgain(states[..|states| - 1], es[..n], k, c);
      NextKeepsStuck(states[n], es[n], states[n + 1], c);
    }
  }

  lemma {:induction false} InFlightAreMarked(states: seq<State>, es: seq<Event>)
    requires IsRun(states, es)
    ensures states[|es|].inFlight <= states[|es|].channelRequesting
    decreases |es|
  {
    if es != [] {
      var n := |es| - 1;
      InFlightAreMarked(states[..|states| - 1], es[..n]);
      assert Next(states[n], es[n], states[n + 1]);
    }
  }

  // ---- The scheduler itself -------------------------------------------------------

  // A wait of zero stands for "none", as in the loops below.
  function TimerFor(wait: int, now: int): Option<int> {
    if wait == 0 then None else Some(now + wait)
  }

  // Deadlines looked at so far: those of the channels not in `todo`.
  function Seen(m: map<Channel, int>, todo: set<Channel>): map<Channel, int> {
    map c | c in m && c !in todo :: m[c]
  }

  lemma KeepLater(m: map<Channel, int>, todo: set<Channel>, c: Channel, wait: int, deadline: int, now: int)
    requires c in todo && c in m && m[c] > now && 0 <= wait
    requires Exact(TimerFor(wait, now), deadline, Seen(m, todo))
    ensures var d := m[c] - now;
            var wait' := if wait != 0 then (if wait < d then wait else d) else d;
            0 < wait' && Exact(TimerFor(wait', now), deadline, Seen(m, todo - {c}))
  {
    var d := m[c] - now;
    var wait' := if wait != 0 then (if wait < d then wait else d) else d;
    var before, after := Seen(m, todo), Seen(m, todo - {c});
    assert c in after && after[c] == now + d;
    forall x | Pending(x, deadline, after) ensures now + wait' <= x {
      if x != now + d && !(deadline != 0 && x == deadline) {
        var k :| k in after && after[k] == x;
        assert k in before && before[k] == x;
        assert Pending(x, deadline, before);
      }
      assert deadline != 0 && x == deadline ==> Pending(x, deadline, before);
    }
    if wait' == wait {
      assert Pending(now + wait, deadline, before);
      assert forall k :: k in before ==> k in after && after[k] == before[k];
    }
    assert Pending(now + wait', deadline, after);
  }

  lemma DropDue(m: map<Channel, int>, todo: set<Channel>, c: Channel, timer: Option<int>, deadline: int)
    requires c in todo && Exact(timer, deadline, Seen(m, todo))
    ensures Exact(timer, deadline, Seen(m - {c}, todo - {c}))
  {
    assert Seen(m - {c}, todo - {c}) == Seen(m, todo);
  }

  class Scheduler {
    var getDifferenceTimeByPts: int
    var channelTimeByPts: map<Channel, int>
    var byPtsTimer: Option<int>
    var getDifferenceTimeAfterFail: int
    var channelTimeAfterFail: map<Channel, int>
    var failDifferenceTimer: Option<int>
    var requesting: bool
    var inited: set<Channel>
    var channelRequesting: set<Channel>
    var failDifferenceTimeout: int
    var channelFailTimeout: map<Channel, int>
    var sentDifferences: nat
    var sentChannels: multiset<Channel>
    var inFlight: set<Channel>

    function View(): State
      reads this
    {
      State(getDifferenceTimeByPts, channelTimeByPts, byPtsTimer,
            getDifferenceTimeAfterFail, channelTimeAfterFail, failDifferenceTimer,
            requesting, inited, channelRequesting, failDifferenceTimeout, channelFailTimeout,
            sentDifferences, sentChannels, inFlight)
    }

    constructor ()
      ensures View() == INITIAL
    {
      getDifferenceTimeByPts, channelTimeByPts, byPtsTimer := 0, map[], None;
      getDifferenceTimeAfterFail, channelTimeAfterFail, failDifferenceTimer := 0, map[], None;
      requesting, inited, channelRequesting := true, {}, {};
      failDifferenceTimeout, channelFailTimeout := 1, map[];
      sentDifferences, sentChannels, inFlight := 0, multiset{}, {};
    }

    method GetDifference()
      modifies this
      ensures View() == AskDifference(old(View()))
    {
      getDifferenceTimeByPts := 0;
      if requesting { return; }
      getDifferenceTimeAfterFail := 0;
      requesting := true;
      sentDifferences := sentDifferences + 1;
    }

    method GetChannelDifference(c: Channel, from: From)
      modifies this
      ensures View() == AskChannel(old(View()), c, from)
    {
      if from != PtsGapOrShortPoll { channelTimeByPts := channelTimeByPts - {c}; }
      if c !in inited || c in channelRequesting { return; }
      if from != AfterFail { channelTimeAfterFail := channelTimeAfterFail - {c}; }
      ghost var s := View();
      channelRequesting := channelRequesting + {c};
      sentChannels := sentChannels + multiset{c};
      inFlight := inFlight + {c};
      assert View() == s.(channelRequesting := s.channelRequesting + {c}, inFlight := s.inFlight + {c},
                          sentChannels := s.sentChannels + multiset{c});
    }

    method GetDifferenceByPts(now: int)
      modifies this
      ensures SweepPts(old(View()), now, View())
    {
      var wait := 0;
      if getDifferenceTimeByPts != 0 {
        if getDifferenceTimeByPts > now {
          wait := getDifferenceTimeByPts - now;
        } else {
          GetDifference();
        }
      }
      ExactAlone(wait, getDifferenceTimeByPts, now);
      wait := SweepChannelsByPts(now, wait);
      byPtsTimer := if wait != 0 then Some(now + wait) else None;
    }

    // One channel: its deadline counts, or it is due and asked.
    method SweepOneByPts(c: Channel, now: int, wait0: int, ghost todo: set<Channel>) returns (wait: int)
      requires c in todo && todo <= channelTimeByPts.Keys
      requires 0 <= wait0 && Exact(TimerFor(wait0, now), getDifferenceTimeByPts, Seen(channelTimeByPts, todo))
      modifies this
      ensures View() == Round(old(View()), c, now, PtsGapOrShortPoll)
      ensures todo - {c} <= channelTimeByPts.Keys
      ensures 0 <= wait && Exact(TimerFor(wait, now), getDifferenceTimeByPts, Seen(channelTimeByPts, todo - {c}))
    {
      wait := wait0;
      if channelTimeByPts[c] > now {
        KeepLater(channelTimeByPts, todo, c, wait, getDifferenceTimeByPts, now);
        var d := channelTimeByPts[c] - now;
        wait := if wait != 0 then (if wait < d then wait else d) else d;
      } else {
        DropDue(channelTimeByPts, todo, c, TimerFor(wait, now), getDifferenceTimeByPts);
        GetChannelDifference(c, PtsGapOrShortPoll);
        channelTimeByPts := channelTimeByPts - {c};
      }
    }

    // The loop over the channels, in any order.
    method SweepChannelsByPts(now: int, wait0: int) returns (wait: int)
      requires 0 <= wait0 && Exact(TimerFor(wait0, now), getDifferenceTimeByPts, map[])
      modifies this
      ensures View() == Taken(old(View()), Due(old(channelTimeByPts), now), PtsGapOrShortPoll)
      ensures 0 <= wait && Exact(TimerFor(wait, now), getDifferenceTimeByPts, channelTimeByPts)
    {
      wait := wait0;
      ghost var g := View();
      ghost var seen: seq<Channel> := [];
      var todo := channelTimeByPts.Keys;
      assert Seen(channelTimeByPts, todo) == map[];
      while todo != {}
        invariant todo <= channelTimeByPts.Keys
        invariant Enumerates(seen, g.channelPts.Keys - todo) && todo <= g.channelPts.Keys
        invariant View() == Loop(g, seen, now, PtsGapOrShortPoll)
        invariant 0 <= wait && Exact(TimerFor(wait, now), getDifferenceTimeByPts, Seen(channelTimeByPts, todo))
        decreases todo
      {
        HasMember(todo);
        var c :| c in todo;
        wait := SweepOneByPts(c, now, wait, todo);
        EnumeratesMore(seen, g.channelPts.Keys, todo, c);
        seen, todo := seen + [c], todo - {c};
      }
      assert Seen(channelTimeByPts, todo) == channelTimeByPts;
      LoopEnds(g, seen, now, PtsGapOrShortPoll);
    }

    method GetDifferenceAfterFail(now: int)
      modifies this
      ensures SweepFail(old(View()), now, View())
    {
      var wait := 0;
      if getDifferenceTimeAfterFail != 0 {
        if getDifferenceTimeAfterFail > now {
          wait := getDifferenceTimeAfterFail - now;
        } else {
          requesting := false;
          GetDifference();
        }
      }
      ExactAlone(wait, getDifferenceTimeAfterFail, now);
      wait := SweepChannelsAfterFail(now, wait);
      failDifferenceTimer := if wait != 0 then Some(now + wait) else None;
    }

    // One channel: its deadline counts, or it is due and asked.
    method SweepOneAfterFail(c: Channel, now: int, wait0: int, ghost todo: set<Channel>) returns (wait: int)
      requires c in todo && todo <= channelTimeAfterFail.Keys
      requires 0 <= wait0 && Exact(TimerFor(wait0, now), getDifferenceTimeAfterFail, Seen(channelTimeAfterFail, todo))
      modifies this
      ensures View() == Round(old(View()), c, now, AfterFail)
      ensures todo - {c} <= channelTimeAfterFail.Keys
      ensures 0 <= wait
      ensures Exact(TimerFor(wait, now), getDifferenceTimeAfterFail, Seen(channelTimeAfterFail, todo - {c}))
    {
      wait := wait0;
      if channelTimeAfterFail[c] > now {
        KeepLater(channelTimeAfterFail, todo, c, wait, getDifferenceTimeAfterFail, now);
        var d := channelTimeAfterFail[c] - now;
        wait := if wait != 0 then (if wait < d then wait else d) else d;
      } else {
        DropDue(channelTimeAfterFail, todo, c, TimerFor(wait, now), getDifferenceTimeAfterFail);
        GetChannelDifference(c, AfterFail);
        channelTimeAfterFail := channelTimeAfterFail - {c};
      }
    }

    method SweepChannelsAfterFail(now: int, wait0: int) returns (wait: int)
      requires 0 <= wait0 && Exact(TimerFor(wait0, now), getDifferenceTimeAfterFail, map[])
      modifies this
      ensures View() == Taken(old(View()), Due(old(channelTimeAfterFail), now), AfterFail)
      ensures 0 <= wait && Exact(TimerFor(wait, now), getDifferenceTimeAfterFail, channelTimeAfterFail)
    {
      wait := wait0;
      ghost var g := View();
      ghost var seen: seq<Channel> := [];
      var todo := channelTimeAfterFail.Keys;
      assert Seen(channelTimeAfterFail, todo) == map[];
      while todo != {}
        invariant todo <= channelTimeAfterFail.Keys
        invariant Enumerates(seen, g.channelFail.Keys - todo) && todo <= g.channelFail.Keys
        invariant View() == Loop(g, seen, now, AfterFail)
        invariant 0 <= wait && Exact(TimerFor(wait, now), getDifferenceTimeAfterFail, Seen(channelTimeAfterFail, todo))
        decreases todo
      {
        HasMember(todo);
        var c :| c in todo;
        wait := SweepOneAfterFail(c, now, wait, todo);
        EnumeratesMore(seen, g.channelFail.Keys, todo, c);
        seen, todo := seen + [c], todo - {c};
      }
      assert Seen(channelTimeAfterFail, todo) == channelTimeAfterFail;
      LoopEnds(g, seen, now, AfterFail);
    }

    // The deadlines of one kind, passed in and out.
    method GetDifferenceTimeChanged(
        ch: Option<Channel>, ms: int, channelCurTime0: map<Channel, int>, curTime0: int, now: int)
        returns (changed: bool, channelCurTime: map<Channel, int>, curTime: int)
      ensures changed == TimeChanged(ch, ms, Deadlines(curTime0, channelCurTime0), now).Some?
      ensures changed ==>
                TimeChanged(ch, ms, Deadlines(curTime0, channelCurTime0), now)
                == Some(Deadlines(curTime, channelCurTime))
      ensures !changed ==> channelCurTime == channelCurTime0 && curTime == curTime0
    {
      channelCurTime, curTime := channelCurTime0, curTime0;
      match ch {
        case Some(c) =>
          if ms <= 0 {
            if c !in channelCurTime { return false, channelCurTime, curTime; }
            channelCurTime := channelCurTime - {c};
          } else {
            var when := now + ms;
            if c in channelCurTime {
              if channelCurTime[c] <= when { return false, channelCurTime, curTime; }
              channelCurTime := channelCurTime[c := when];
            } else {
              channelCurTime := channelCurTime[c := when];
            }
          }
        case None =>
          if ms <= 0 {
            if curTime == 0 { return false, channelCurTime, curTime; }
            curTime := 0;
          } else {
            var when := now + ms;
            if curTime != 0 && curTime <= when { return false, channelCurTime, curTime; }
            curTime := when;
          }
      }
      return true, channelCurTime, curTime;
    }

    method PtsWaiterStartTimerFor(ch: Option<Channel>, ms: int, now: int)
      modifies this
      ensures Next(old(View()), PtsStart(ch, ms, now), View())
    {
      var changed, perChannel, global :=
        GetDifferenceTimeChanged(ch, ms, channelTimeByPts, getDifferenceTimeByPts, now);
      if changed {
        getDifferenceTimeByPts, channelTimeByPts := global, perChannel;
        assert View() == old(View()).(ptsDeadline := global, channelPts := perChannel);
        GetDifferenceByPts(now);
      }
    }

    // The delay of the account or of a channel, one second if the channel has none yet.
    method FailTimeoutOf(ch: Option<Channel>) returns (timeout: int)
      modifies `channelFailTimeout
      ensures timeout == TimeoutOf(old(View()), ch) && View() == WithTimeout(old(View()), ch, timeout)
    {
      match ch {
        case None =>
          timeout := failDifferenceTimeout;
        case Some(c) =>
          if c !in channelFailTimeout { channelFailTimeout := channelFailTimeout[c := 1]; }
          timeout := channelFailTimeout[c];
          assert old(channelFailTimeout)[c := timeout] == channelFailTimeout;
      }
    }

    method SetFailTimeout(ch: Option<Channel>, timeout: int)
      modifies this
      ensures View() == WithTimeout(old(View()), ch, timeout)
    {
      match ch {
        case None => failDifferenceTimeout := timeout;
        case Some(c) => channelFailTimeout := channelFailTimeout[c := timeout];
      }
    }

    method FailDifferenceStartTimerFor(ch: Option<Channel>, now: int)
      modifies this
      ensures StartFail(old(View()), ch, now, View())
    {
      ghost var s := View();
      var timeout := FailTimeoutOf(ch);
      ghost var s1 := View();
      var changed, perChannel, global :=
        GetDifferenceTimeChanged(ch, timeout * 1000, channelTimeAfterFail, getDifferenceTimeAfterFail, now);
      if changed {
        getDifferenceTimeAfterFail, channelTimeAfterFail := global, perChannel;
        assert View() == s1.(failDeadline := global, channelFail := perChannel);
        GetDifferenceAfterFail(now);
      }
      ghost var t := View();
      SetFailTimeout(ch, if timeout < 64 then timeout * 2 else timeout);
      DoubledLater(s, ch, timeout, now, s1, t);
    }

    method PtsTimerEvent(now: int)
      modifies this
      ensures Next(old(View()), PtsTimerFired(now), View())
    {
      byPtsTimer := None;
      GetDifferenceByPts(now);
    }

    method FailTimerEvent(now: int)
      modifies this
      ensures Next(old(View()), FailTimerFired(now), View())
    {
      failDifferenceTimer := None;
      GetDifferenceAfterFail(now);
    }
  }

  // The sweep does not look at the delays, so it makes no difference when they are doubled.
  lemma DoubledLater(s: State, ch: Option<Channel>, timeout: int, now: int, s1: State, t: State)
    requires timeout == TimeoutOf(s, ch) && s1 == WithTimeout(s, ch, timeout)
    requires match TimeChanged(ch, timeout * 1000, Deadlines(s.failDeadline, s.channelFail), now)
             case None => t == s1
             case Some(ds) => SweepFail(s1.(failDeadline := ds.global, channelFail := ds.perChannel), now, t)
    ensures StartFail(s, ch, now, WithTimeout(t, ch, Backoff(timeout)))
  {
    var doubled := Backoff(timeout);
    SetTwice(s, ch, timeout, doubled);
    match TimeChanged(ch, timeout * 1000, Deadlines(s.failDeadline, s.channelFail), now) {
      case None =>
      case Some(ds) =>
        var u := s1.(failDeadline := ds.global, channelFail := ds.perChannel);
        SweepKeepsTimeouts(u, ch, doubled, now, t);
        SetTwice(s, ch, timeout, doubled);
        assert WithTimeout(u, ch, doubled)
            == WithTimeout(s, ch, doubled).(failDeadline := ds.global, channelFail := ds.perChannel);
    }
  }

  lemma SetTwice(s: State, ch: Option<Channel>, a: int, b: int)
    ensures WithTimeout(WithTimeout(s, ch, a), ch, b) == WithTimeout(s, ch, b)
  {
    if ch.Some? {
      var m := s.channelFailTimeout;
      assert m[ch.value := a][ch.value := b] == m[ch.value := b];
    }
  }

  lemma TakenKeepsTimeouts(g: State, due: set<Channel>, ch: Option<Channel>, timeout: int)
    ensures Taken(WithTimeout(g, ch, timeout), due, AfterFail) == WithTimeout(Taken(g, due, AfterFail), ch, timeout)
  {
  }

  lemma AskKeepsTimeouts(s: State, ch: Option<Channel>, timeout: int)
    ensures AskDifference(WithTimeout(s, ch, timeout).(requesting := false))
         == WithTimeout(AskDifference(s.(requesting := false)), ch, timeout)
  {
  }

  lemma FailSweptKeepsTimeouts(u: State, ch: Option<Channel>, timeout: int, now: int, timer: Option<int>)
    ensures FailSwept(WithTimeout(u, ch, timeout), now, timer) == WithTimeout(FailSwept(u, now, timer), ch, timeout)
  {
    var v := WithTimeout(u, ch, timeout);
    var due := u.failDeadline != 0 && u.failDeadline <= now;
    var g := if due then AskDifference(u.(requesting := false)) else u;
    var h := if due then AskDifference(v.(requesting := false)) else v;
    AskKeepsTimeouts(u, ch, timeout);
    assert h == WithTimeout(g, ch, timeout) && h.channelFail == g.channelFail;
    TakenKeepsTimeouts(g, Due(g.channelFail, now), ch, timeout);
  }

  lemma SweepKeepsTimeouts(u: State, ch: Option<Channel>, timeout: int, now: int, t: State)
    requires SweepFail(u, now, t)
    ensures SweepFail(WithTimeout(u, ch, timeout), now, WithTimeout(t, ch, timeout))
  {
    FailSweptKeepsTimeouts(u, ch, timeout, now, t.failTimer);
    var w := WithTimeout(t, ch, timeout);
    assert w.failTimer == t.failTimer && w.failDeadline == t.failDeadline && w.channelFail == t.channelFail;
  }

  lemma ExactAlone(wait: int, deadline: int, now: int)
    requires wait == if deadline != 0 && deadline > now then deadline - now else 0
    requires deadline == 0 || deadline > now
    ensures Exact(TimerFor(wait, now), deadline, map[])
  {
    if deadline != 0 { assert Pending(now + wait, deadline, map[]); }
  }

  // What one round of a sweep does.
  function Round(s: State, c: Channel, now: int, from: From): State {
    if c in Swept(s, from) && Swept(s, from)[c] <= now then
      var t := AskChannel(s, c, from);
      if from == AfterFail then t.(channelFail := t.channelFail - {c}) else t.(channelPts := t.channelPts - {c})
    else s
  }

  function Loop(g: State, seen: seq<Channel>, now: int, from: From): State {
    if seen == [] then g else Round(Loop(g, seen[..|seen| - 1], now, from), seen[|seen| - 1], now, from)
  }

  ghost predicate Enumerates(seen: seq<Channel>, all: set<Channel>) {
    if seen == [] then all == {}
    else
      var c := seen[|seen| - 1];
      c in all && Enumerates(seen[..|seen| - 1], all - {c})
  }

  lemma EnumeratesMore(seen: seq<Channel>, all: set<Channel>, todo: set<Channel>, c: Channel)
    requires Enumerates(seen, all - todo) && c in todo && todo <= all
    ensures Enumerates(seen + [c], all - (todo - {c}))
  {
    assert (seen + [c])[..|seen|] == seen && all - (todo - {c}) - {c} == all - todo;
  }

  lemma NoneLess(m: map<Channel, int>, a: set<Channel>)
    ensures m - {} == m && a + {} == a
  {
  }

  lemma TakenNone(g: State, from: From)
    ensures Taken(g, {}, from) == g
  {
    assert Asked(g, {}) == {};
    NoneLess(g.channelPts, g.channelRequesting);
    NoneLess(g.channelFail, g.inFlight);
    assert g.sentChannels + multiset(Asked(g, {})) == g.sentChannels;
  }

  lemma MinusOneMore(m: map<Channel, int>, a: set<Channel>, c: Channel)
    ensures m - (a + {c}) == (m - a) - {c}
  {
  }

  lemma OneMoreSent(before: set<Channel>, sent: multiset<Channel>, a: set<Channel>, c: Channel)
    ensures before + (a + {c}) == (before + a) + {c}
    ensures c !in a ==> sent + multiset(a + {c}) == (sent + multiset(a)) + multiset{c}
  {
    if c !in a { OneMoreCounted(a, c); }
  }

  lemma OneMoreCounted(a: set<Channel>, c: Channel)
    requires c !in a
    ensures multiset(a + {c}) == multiset(a) + multiset{c}
  {
  }

  lemma AskedOneMore(g: State, due: set<Channel>, c: Channel)
    requires c !in due
    ensures Asked(g, due + {c})
            == if c in g.inited && c !in g.channelRequesting then Asked(g, due) + {c} else Asked(g, due)
  {
  }

  // Asking from a sweep, field by field.
  lemma AskedFields(s: State, c: Channel, from: From)
    requires from != Unknown
    ensures var t, goes := AskChannel(s, c, from), c in s.inited && c !in s.channelRequesting;
            && t.channelPts == (if from == AfterFail then s.channelPts - {c} else s.channelPts)
            && t.channelFail == (if goes && from != AfterFail then s.channelFail - {c} else s.channelFail)
            && t.channelRequesting == (if goes then s.channelRequesting + {c} else s.channelRequesting)
            && t.inFlight == (if goes then s.inFlight + {c} else s.inFlight)
            && t.sentChannels == (if goes then s.sentChannels + multiset{c} else s.sentChannels)
  {
  }

  lemma StillDue(g: State, due: set<Channel>, c: Channel, now: int, from: From)
    requires c in Swept(g, from) && c !in due && Swept(g, from)[c] <= now && from != Unknown
    ensures var s := Taken(g, due, from);
            c in Swept(s, from) && Swept(s, from)[c] <= now && s.inited == g.inited
            && (c in s.channelRequesting <==> c in g.channelRequesting)
  {
    assert c !in Asked(g, due);
  }

  lemma TakenOneMoreMaps(g: State, due: set<Channel>, c: Channel, now: int, from: From)
    requires c in Swept(g, from) && c !in due && Swept(g, from)[c] <= now && from != Unknown
    ensures var t, u := Taken(g, due + {c}, from), Round(Taken(g, due, from), c, now, from);
            t.channelPts == u.channelPts && t.channelFail == u.channelFail
  {
    StillDue(g, due, c, now, from);
    AskedFields(Taken(g, due, from), c, from);
    AskedOneMore(g, due, c);
    MinusOneMore(g.channelPts, due, c);
    MinusOneMore(g.channelFail, due, c);
    MinusOneMore(g.channelFail, Asked(g, due), c);
  }

  lemma TakenOneMoreSent(g: State, due: set<Channel>, c: Channel, now: int, from: From)
    requires c in Swept(g, from) && c !in due && Swept(g, from)[c] <= now && from != Unknown
    ensures var t, u := Taken(g, due + {c}, from), Round(Taken(g, due, from), c, now, from);
            && t.channelRequesting == u.channelRequesting && t.inFlight == u.inFlight
            && t.sentChannels == u.sentChannels
  {
    StillDue(g, due, c, now, from);
    var s, asked := Taken(g, due, from), Asked(g, due);
    AskedFields(s, c, from);
    AskedOneMore(g, due, c);
    OneMoreSent(g.channelRequesting, g.sentChannels, asked, c);
    OneMoreSent(g.inFlight, g.sentChannels, asked, c);
    var u := AskChannel(s, c, from);
    var v := Round(s, c, now, from);
    assert v.channelRequesting == u.channelRequesting && v.inFlight == u.inFlight && v.sentChannels == u.sentChannels;
  }

  lemma TakenOneMore(g: State, due: set<Channel>, c: Channel, now: int, from: From)
    requires c in Swept(g, from) && c !in due && Swept(g, from)[c] <= now && from != Unknown
    ensures Taken(g, due + {c}, from) == Round(Taken(g, due, from), c, now, from)
  {
    TakenOneMoreMaps(g, due, c, now, from);
    TakenOneMoreSent(g, due, c, now, from);
  }

  lemma RoundTakes(g: State, before: set<Channel>, after: set<Channel>, c: Channel, now: int, from: From)
    requires c in Swept(g, from) && c !in before && from != Unknown
    requires after == if Swept(g, from)[c] <= now then before + {c} else before
    ensures Round(Taken(g, before, from), c, now, from) == Taken(g, after, from)
  {
    if Swept(g, from)[c] <= now {
      TakenOneMore(g, before, c, now, from);
    } else {
      assert c !in Asked(g, before);
    }
  }

  // Whatever the order of the channels, the loop comes to the same state.
  lemma {:induction false} LoopTakes(g: State, seen: seq<Channel>, all: set<Channel>, now: int, from: From)
    requires Enumerates(seen, all) && all <= Swept(g, from).Keys && from != Unknown
    ensures Loop(g, seen, now, from) == Taken(g, Due(Swept(g, from), now) * all, from)
  {
    var due := Due(Swept(g, from), now);
    if seen == [] {
      assert due * {} == {};
      TakenNone(g, from);
    } else {
      var c := seen[|seen| - 1];
      LoopTakes(g, seen[..|seen| - 1], all - {c}, now, from);
      RoundTakes(g, due * (all - {c}), due * all, c, now, from);
    }
  }

  lemma AllDue(m: map<Channel, int>, now: int)
    ensures Due(m, now) * m.Keys == Due(m, now)
  {
  }

  lemma LoopEnds(g: State, seen: seq<Channel>, now: int, from: From)
    requires Enumerates(seen, Swept(g, from).Keys - {}) && from != Unknown
    ensures Loop(g, seen, now, from) == Taken(g, Due(Swept(g, from), now), from)
  {
    var all := Swept(g, from).Keys;
    assert all - {} == all;
    AllDue(Swept(g, from), now);
    LoopTakes(g, seen, all, now, from);
  }
}
