// Sequence-numbered update packets of the main widget: the gate, the buffer of
// packets that came too early, and the mutual recursion that drains it.
module UpdateSequence {
  import opened Options
  import opened Sets

  // What applying one packet does besides changing the visible data.
  // `asksDifference`: one of the updates inside asks for a difference. `waitsForChannel`:
  // one of them is about a channel that is not loaded, and arms the timer that asks later.
  datatype Body = Body(payload: int, asksDifference: bool, waitsForChannel: bool, forceLogout: bool)

  // What the pts waiter says about a short message packet.
  datatype ShortOutcome = Accepted | Postponed | NeedsDifference

  datatype Packet =
    | Updates(date: int, last: int, body: Body)
    | Combined(date: int, first: int, last: int, body: Body)
    | Short(date: int, body: Body, outcome: ShortOutcome)
    | TooLong
  {
    predicate Sequenced() {
      Updates? || Combined?
    }

    // The number the gate looks at and the buffer is keyed by.
    function First(): int {
      match this
      case Updates(_, last, _) => last
      case Combined(_, first, _, _) => first
      case _ => 0
    }

    // The number it brings the client to.
    function Last(): int {
      if Sequenced() then last else 0
    }

    function Date(): int {
      if TooLong? then 0 else date
    }

    predicate ForcesLogout() {
      !TooLong? && body.forceLogout
    }
  }

  datatype State = State(
    updSeq: int,
    updDate: int,
    updQts: int,
    buffer: map<int, Packet>,
    bySeqTimer: bool,
    requesting: bool,
    minChannelTimer: bool,
    log: seq<Packet>)

  // ---- The step functions -------------------------------------------------

  function Above(m: map<int, Packet>, bound: int): (r: map<int, Packet>)
  {
    map k | k in m && k > bound :: m[k]
  }

  function AskDifference(s: State): State {
    if s.requesting then s
    else s.(buffer := map[], bySeqTimer := false, requesting := true)
  }

  function Apply(s: State, p: Packet): State
    requires !p.TooLong?
  {
    Fed(s.(log := s.log + [p]), p.body)
  }

  // The updates themselves, of a packet or of a difference.
  function Fed(s: State, body: Body): State {
    var s1 := s.(minChannelTimer := s.minChannelTimer || body.waitsForChannel);
    if body.asksDifference then AskDifference(s1) else s1
  }

  function SetDateQts(s: State, date: int, qts: int): State {
    s.(updDate := if s.updDate < date && !s.minChannelTimer then date else s.updDate,
       updQts := if qts != 0 && s.updQts < qts then qts else s.updQts)
  }

  // The whole effect of a new sequence number, without a loop: everything up
  // to the next expected packet leaves the buffer, and that packet is fed.
  function SetState(s: State, date: int, qts: int, seqNo: int): State
    decreases s.buffer.Keys, 0
  {
    var s1 := SetDateQts(s, date, qts);
    if seqNo == 0 || seqNo == s1.updSeq then s1
    else
      var rest := Above(s1.buffer, seqNo + 1);
      var s2 := s1.(updSeq := seqNo, buffer := rest, bySeqTimer := false);
      if seqNo + 1 in s1.buffer then
        assert seqNo + 1 !in rest.Keys && rest.Keys <= s1.buffer.Keys;
        Feed(s2, s1.buffer[seqNo + 1])
      else
        s2.(bySeqTimer := rest != map[])
  }

  // The gate: a numbered packet passes when it is the next one, a packet
  // without a number always, a short one when the pts waiter accepts it.
  predicate Passes(s: State, p: Packet) {
    match p
    case Short(_, _, outcome) => outcome == Accepted
    case TooLong => false
    case _ => p.First() == 0 || p.First() == s.updSeq + 1
  }

  // A packet that does not pass is buffered, dropped, or answered with a request.
  function Hold(s: State, p: Packet): State {
    match p
    case Short(_, _, outcome) => if outcome == NeedsDifference then AskDifference(s) else s
    case TooLong => AskDifference(s)
    case _ =>
      if p.First() > s.updSeq + 1 then s.(buffer := s.buffer[p.First() := p], bySeqTimer := true) else s
  }

  function Feed(s: State, p: Packet): State
    decreases s.buffer.Keys, 1
  {
    if Passes(s, p) then
      SetState(Apply(s, p), p.Date(), s.updQts, if p.Short? then s.updSeq else p.Last())
    else Hold(s, p)
  }

  // Everything that can happen to the widget between two returns to the event loop.
  datatype Event =
    | Received(p: Packet)             // from the connection: dropped while a difference is requested
    | Answered(p: Packet)             // from a request's own answer: never dropped
    | NewSession
    | GotState(date: int, qts: int, seqNo: int)
    | DifferenceEmpty(date: int, seqNo: int)
    | DifferenceSlice(date: int, qts: int, seqNo: int, other: Body)
    | DifferenceFinal(date: int, qts: int, seqNo: int, other: Body)
    | DifferenceTooLong
    | ChannelDifference(other: Body)  // the updates of a channel's difference
    | SeqTimerFired
    | MinChannelTimerFired

  function GotStateSpec(s: State, date: int, qts: int, seqNo: int): State {
    SetState(s, date, qts, seqNo).(requesting := false)
  }

  function Next(s: State, e: Event): State {
    match e
    case Received(p) => if !s.requesting || p.ForcesLogout() then Feed(s, p) else s
    case Answered(p) => Feed(s, p)
    case NewSession => AskDifference(s.(updSeq := 0))
    case GotState(date, qts, seqNo) => GotStateSpec(s, date, qts, seqNo)
    case DifferenceEmpty(date, seqNo) => GotStateSpec(s, date, s.updQts, seqNo)
    case DifferenceSlice(date, qts, seqNo, other) =>
      AskDifference(GotStateSpec(Fed(s, other), date, qts, seqNo))
    case DifferenceFinal(date, qts, seqNo, other) =>
      GotStateSpec(Fed(s, other), date, qts, seqNo)
    case DifferenceTooLong => s
    case ChannelDifference(other) => Fed(s, other)
    case SeqTimerFired => AskDifference(s.(bySeqTimer := false))
    case MinChannelTimerFired => AskDifference(s.(minChannelTimer := false))
  }

  function Run(s: State, es: seq<Event>): State {
    if es == [] then s else Next(Run(s, es[..|es| - 1]), es[|es| - 1])
  }

  const INITIAL := State(0, 0, 0, map[], false, true, false, [])

  // ---- Reachable states: the buffer only holds packets from beyond the gap --

  ghost predicate Keyed(m: map<int, Packet>) {
    forall k :: k in m ==> m[k].Sequenced() && m[k].First() == k && m[k].last >= 0
  }

  ghost predicate BeyondGap(s: State) {
    forall k :: k in s.buffer ==> k > s.updSeq + 1
  }

  ghost predicate Inv(s: State) {
    0 <= s.updSeq && Keyed(s.buffer) && BeyondGap(s)
  }

  // Sequence numbers on the wire are never negative. Nothing else is asked of
  // a packet: in particular `first` may exceed `last`.
  ghost predicate NonNegative(e: Event) {
    match e
    case Received(p) => p.Sequenced() ==> p.last >= 0
    case Answered(p) => p.Sequenced() ==> p.last >= 0
    case GotState(_, _, seqNo) => seqNo >= 0
    case DifferenceEmpty(_, seqNo) => seqNo >= 0
    case DifferenceSlice(_, _, seqNo, _) => seqNo >= 0
    case DifferenceFinal(_, _, seqNo, _) => seqNo >= 0
    case _ => true
  }

  lemma {:induction false} SetStateKeepsInv(s: State, date: int, qts: int, seqNo: int)
    requires 0 <= s.updSeq && 0 <= seqNo && Keyed(s.buffer)
    requires seqNo == 0 || seqNo == s.updSeq ==> BeyondGap(s)
    ensures Inv(SetState(s, date, qts, seqNo))
    ensures SetState(s, date, qts, seqNo).buffer.Keys <= s.buffer.Keys
    decreases s.buffer.Keys, 0
  {
    var s1 := SetDateQts(s, date, qts);
    if seqNo != 0 && seqNo != s1.updSeq && seqNo + 1 in s1.buffer {
      var rest := Above(s1.buffer, seqNo + 1);
      assert seqNo + 1 !in rest.Keys && rest.Keys <= s1.buffer.Keys;
      FeedKeepsInv(s1.(updSeq := seqNo, buffer := rest, bySeqTimer := false), s1.buffer[seqNo + 1]);
    }
  }

  lemma {:induction false} FeedKeepsInv(s: State, p: Packet)
    requires Inv(s) && (p.Sequenced() ==> p.last >= 0)
    ensures Inv(Feed(s, p))
    ensures p.Sequenced() && p.First() == s.updSeq + 1 ==> Feed(s, p).buffer.Keys <= s.buffer.Keys
    decreases s.buffer.Keys, 1
  {
    if Passes(s, p) {
      SetStateKeepsInv(Apply(s, p), p.Date(), s.updQts, if p.Short? then s.updSeq else p.Last());
    }
  }

  lemma {:induction false} NextKeepsInv(s: State, e: Event)
    requires Inv(s) && NonNegative(e)
    ensures Inv(Next(s, e))
  {
    match e
    case Received(p) => FeedKeepsInv(s, p);
    case Answered(p) => FeedKeepsInv(s, p);
    case NewSession =>
    case GotState(date, qts, seqNo) => SetStateKeepsInv(s, date, qts, seqNo);
    case DifferenceEmpty(date, seqNo) => SetStateKeepsInv(s, date, s.updQts, seqNo);
    case DifferenceSlice(date, qts, seqNo, other) =>
      SetStateKeepsInv(Fed(s, other), date, qts, seqNo);
    case DifferenceFinal(date, qts, seqNo, other) =>
      SetStateKeepsInv(Fed(s, other), date, qts, seqNo);
    case _ =>
  }

  // Main result: in every reachable state each buffered key is beyond the gap.
  lemma {:induction false} ReachableBeyondGap(es: seq<Event>)
    requires forall i :: 0 <= i < |es| ==> NonNegative(es[i])
    ensures Inv(Run(INITIAL, es))
  {
    if es != [] {
      ReachableBeyondGap(es[..|es| - 1]);
      NextKeepsInv(Run(INITIAL, es[..|es| - 1]), es[|es| - 1]);
    }
  }

  // Main result: a packet taken out of the buffer because it is the next one is
  // applied at once and never goes back in; the buffer only shrinks meanwhile.
  lemma {:induction false} DrainedIsApplied(s: State, date: int, qts: int, seqNo: int)
    requires Inv(s) && 0 < seqNo != s.updSeq && seqNo + 1 in s.buffer
    ensures var r := SetState(s, date, qts, seqNo);
            && s.log + [s.buffer[seqNo + 1]] <= r.log
            && r.buffer.Keys < s.buffer.Keys && seqNo + 1 !in r.buffer
  {
    var s1 := SetDateQts(s, date, qts);
    var p := s.buffer[seqNo + 1];
    var rest := Above(s1.buffer, seqNo + 1);
    var s2 := s1.(updSeq := seqNo, buffer := rest, bySeqTimer := false);
    FeedKeepsInv(s2, p);
    SetStateLogGrows(Apply(s2, p), p.Date(), s2.updQts, p.Last());
  }

  lemma {:induction false} SetStateLogGrows(s: State, date: int, qts: int, seqNo: int)
    ensures s.log <= SetState(s, date, qts, seqNo).log
    decreases s.buffer.Keys, 0
  {
    var s1 := SetDateQts(s, date, qts);
    if seqNo != 0 && seqNo != s1.updSeq && seqNo + 1 in s1.buffer {
      var rest := Above(s1.buffer, seqNo + 1);
      assert seqNo + 1 !in rest.Keys && rest.Keys <= s1.buffer.Keys;
      FeedLogGrows(s1.(updSeq := seqNo, buffer := rest, bySeqTimer := false), s1.buffer[seqNo + 1]);
    }
  }

  lemma {:induction false} FeedLogGrows(s: State, p: Packet)
    ensures s.log <= Feed(s, p).log
    decreases s.buffer.Keys, 1
  {
    if Passes(s, p) {
      SetStateLogGrows(Apply(s, p), p.Date(), s.updQts, if p.Short? then s.updSeq else p.Last());
    }
  }

  // ---- Requests for a difference -----------------------------------------------------------

  predicate AsksIn(p: Packet) {
    !p.TooLong? && p.body.asksDifference
  }

  predicate WaitsIn(p: Packet) {
    !p.TooLong? && p.body.waitsForChannel
  }

  // Packets that are answered with a request without being applied.
  predicate Demands(p: Packet) {
    p.TooLong? || (p.Short? && p.outcome == NeedsDifference)
  }

  // Whether a packet applied since `log` had `n` entries asks, or waits for a channel.
  ghost predicate AskedSince(log: seq<Packet>, n: nat) {
    exists i :: n <= i < |log| && AsksIn(log[i])
  }

  ghost predicate WaitedSince(log: seq<Packet>, n: nat) {
    exists i :: n <= i < |log| && WaitsIn(log[i])
  }

  // From `s` to `t` a difference was asked for exactly when a packet applied in between, or
  // `demanded`, asks for it, and the channel timer was armed exactly when one waits for a
  // channel. A new request leaves nothing waiting.
  ghost predicate Requests(s: State, demanded: bool, t: State) {
    && s.log <= t.log
    && (t.requesting <==> s.requesting || demanded || AskedSince(t.log, |s.log|))
    && (t.minChannelTimer <==> s.minChannelTimer || WaitedSince(t.log, |s.log|))
    && (t.requesting && !s.requesting ==> t.buffer == map[] && !t.bySeqTimer)
    && Keyed(t.buffer)
  }

  lemma RequestsOn(s: State, t: State, u: State)
    requires Requests(s, false, t) && Requests(t, false, u)
    requires t.buffer == map[] ==> u.buffer == map[] && (!t.bySeqTimer ==> !u.bySeqTimer)
    ensures Requests(s, false, u)
  {
    assert AskedSince(u.log, |s.log|) <==> AskedSince(t.log, |s.log|) || AskedSince(u.log, |t.log|) by {
      if i :| |s.log| <= i < |t.log| && AsksIn(t.log[i]) { assert AsksIn(u.log[i]); }
      if i :| |s.log| <= i < |u.log| && AsksIn(u.log[i]) {
        if i < |t.log| { assert AsksIn(t.log[i]); }
      }
    }
    assert WaitedSince(u.log, |s.log|) <==> WaitedSince(t.log, |s.log|) || WaitedSince(u.log, |t.log|) by {
      if i :| |s.log| <= i < |t.log| && WaitsIn(t.log[i]) { assert WaitsIn(u.log[i]); }
      if i :| |s.log| <= i < |u.log| && WaitsIn(u.log[i]) {
        if i < |t.log| { assert WaitsIn(t.log[i]); }
      }
    }
  }

  lemma ApplyRequests(s: State, p: Packet)
    requires !p.TooLong? && Keyed(s.buffer)
    ensures Requests(s, false, Apply(s, p))
  {
    var t := Apply(s, p);
    assert t.log == s.log + [p] && t.log[|s.log|] == p;
  }

  lemma {:induction false} SetStateRequests(s: State, date: int, qts: int, seqNo: int)
    requires Keyed(s.buffer)
    ensures var t := SetState(s, date, qts, seqNo);
            Requests(s, false, t) && (s.buffer == map[] ==> t.buffer == map[] && (!s.bySeqTimer ==> !t.bySeqTimer))
    decreases s.buffer.Keys, 0
  {
    var s1 := SetDateQts(s, date, qts);
    if seqNo != 0 && seqNo != s1.updSeq && seqNo + 1 in s1.buffer {
      var rest := Above(s1.buffer, seqNo + 1);
      assert seqNo + 1 !in rest.Keys && rest.Keys <= s1.buffer.Keys;
      var s2 := s1.(updSeq := seqNo, buffer := rest, bySeqTimer := false);
      var p := s1.buffer[seqNo + 1];
      FeedRequests(s2, p);
      assert p.Sequenced() && s2.log == s.log && s2.requesting == s.requesting;
    }
  }

  lemma {:induction false} FeedRequests(s: State, p: Packet)
    requires Keyed(s.buffer) && (p.Sequenced() ==> p.last >= 0)
    ensures Requests(s, Demands(p), Feed(s, p))
    decreases s.buffer.Keys, 1
  {
    if Passes(s, p) {
      var t := Apply(s, p);
      var seqNo := if p.Short? then s.updSeq else p.Last();
      ApplyRequests(s, p);
      SetStateRequests(t, p.Date(), s.updQts, seqNo);
      RequestsOn(s, t, SetState(t, p.Date(), s.updQts, seqNo));
    }
  }

  // A packet is applied at once exactly when it is the next one, has no number, or is a short
  // one that was accepted; otherwise nothing is.
  lemma AppliedAtOnceIff(s: State, p: Packet)
    ensures var t, now := Feed(s, p),
                match p {
                  case Updates(_, last, _) => last == 0 || last == s.updSeq + 1
                  case Combined(_, first, _, _) => first == 0 || first == s.updSeq + 1
                  case Short(_, _, outcome) => outcome.Accepted?
                  case TooLong => false
                };
            && (now ==> s.log + [p] <= t.log) && (!now ==> t.log == s.log)
  {
    if Passes(s, p) {
      SetStateLogGrows(Apply(s, p), p.Date(), s.updQts, if p.Short? then s.updSeq else p.Last());
    }
  }

  // Main result, for every state with keyed packets: when a difference is being asked for
  // after an event. An answer ends the request, except for a slice, which is followed by one.
  lemma RequestingAfter(s: State, e: Event)
    requires Keyed(s.buffer) && NonNegative(e)
    ensures var t := Next(s, e);
            match e {
              case Received(p) =>
                if s.requesting && !p.ForcesLogout() then t == s else Requests(s, Demands(p), t)
              case Answered(p) => Requests(s, Demands(p), t)
              case GotState(_, _, _) => !t.requesting
              case DifferenceEmpty(_, _) => !t.requesting
              case DifferenceFinal(_, _, _, _) => !t.requesting
              case DifferenceSlice(_, _, _, _) => t.requesting && t.buffer == map[] && !t.bySeqTimer
              case DifferenceTooLong => t == s
              case ChannelDifference(other) =>
                && t.requesting == (s.requesting || other.asksDifference)
                && t.minChannelTimer == (s.minChannelTimer || other.waitsForChannel)
              case NewSession => t.requesting && t.updSeq == 0
              case SeqTimerFired => t.requesting && !t.bySeqTimer && t.updSeq == s.updSeq
              case MinChannelTimerFired => t.requesting && !t.minChannelTimer && t.updSeq == s.updSeq
            }
    ensures e.NewSession? || e.SeqTimerFired? || e.MinChannelTimerFired? || e.ChannelDifference? ==>
              var t := Next(s, e);
              t.log == s.log && t.buffer == if t.requesting && !s.requesting then map[] else s.buffer
  {
    match e
    case Received(p) => if !(s.requesting && !p.ForcesLogout()) { FeedRequests(s, p); }
    case Answered(p) => FeedRequests(s, p);
    case _ =>
  }

  // ---- The marks for qts and date -----------------------------------------------------------

  function Max(a: int, b: int): int {
    if a < b then b else a
  }

  // From `s` to `t`: the date never falls, stands still while the channel timer runs, and is
  // one that was applied, or `date`.
  ghost predicate Dated(s: State, date: int, t: State) {
    && s.log <= t.log && s.updDate <= t.updDate
    && (s.minChannelTimer ==> t.minChannelTimer && t.updDate == s.updDate)
    && (t.updDate == s.updDate || t.updDate == date
        || exists i :: |s.log| <= i < |t.log| && t.log[i].Date() == t.updDate)
  }

  lemma DatedOn(s: State, a: int, t: State, b: int, u: State)
    requires Dated(s, a, t) && Dated(t, b, u) && (a == b || exists i :: |s.log| <= i < |t.log| && t.log[i].Date() == b)
    ensures Dated(s, a, u)
  {
    if i :| |s.log| <= i < |t.log| && t.log[i].Date() == t.updDate { assert u.log[i].Date() == t.updDate; }
    if i :| |s.log| <= i < |t.log| && t.log[i].Date() == b { assert u.log[i].Date() == b; }
    if i :| |t.log| <= i < |u.log| && u.log[i].Date() == u.updDate { assert u.log[i].Date() == u.updDate; }
  }

  lemma {:induction false} SetStateMarks(s: State, date: int, qts: int, seqNo: int)
    requires 0 <= s.updQts
    ensures var t := SetState(s, date, qts, seqNo);
            && t.updQts == Max(s.updQts, qts) && Dated(s, date, t)
            && (s.minChannelTimer || t.updDate >= date)
    decreases s.buffer.Keys, 0
  {
    var s1 := SetDateQts(s, date, qts);
    assert Dated(s, date, s1);
    if seqNo != 0 && seqNo != s1.updSeq && seqNo + 1 in s1.buffer {
      var rest := Above(s1.buffer, seqNo + 1);
      assert seqNo + 1 !in rest.Keys && rest.Keys <= s1.buffer.Keys;
      var s2 := s1.(updSeq := seqNo, buffer := rest, bySeqTimer := false);
      FeedMarks(s2, s1.buffer[seqNo + 1]);
      assert Dated(s, date, s2);
      DatedOn(s, date, s2, date, SetState(s, date, qts, seqNo));
    }
  }

  lemma {:induction false} FeedMarks(s: State, p: Packet)
    requires 0 <= s.updQts
    ensures var t := Feed(s, p);
            && t.updQts == s.updQts && Dated(s, s.updDate, t)
            && (Passes(s, p) && !WaitsIn(p) && !s.minChannelTimer ==> t.updDate >= p.Date())
    decreases s.buffer.Keys, 1
  {
    if Passes(s, p) {
      var t, seqNo := Apply(s, p), if p.Short? then s.updSeq else p.Last();
      ApplyMarks(s, p);
      SetStateMarks(t, p.Date(), s.updQts, seqNo);
      MarksOn(s, t, p.Date(), SetState(t, p.Date(), s.updQts, seqNo));
    }
  }

  lemma ApplyMarks(s: State, p: Packet)
    requires !p.TooLong?
    ensures var t := Apply(s, p);
            && Dated(s, s.updDate, t) && t.updDate == s.updDate && t.updQts == s.updQts
            && (t.minChannelTimer <==> s.minChannelTimer || WaitsIn(p))
            && exists i :: |s.log| <= i < |t.log| && t.log[i].Date() == p.Date()
  {
    assert Apply(s, p).log[|s.log|] == p;
  }

  lemma MarksOn(s: State, t: State, date: int, u: State)
    requires Dated(s, s.updDate, t) && Dated(t, date, u) && t.updDate == s.updDate
    requires exists i :: |s.log| <= i < |t.log| && t.log[i].Date() == date
    ensures Dated(s, s.updDate, u)
  {
    var i :| |s.log| <= i < |t.log| && t.log[i].Date() == date;
    assert u.log[i].Date() == date;
  }

  // The qts of an event, if it brings one.
  function QtsOf(e: Event): int {
    match e
    case GotState(_, qts, _) => qts
    case DifferenceSlice(_, qts, _, _) => qts
    case DifferenceFinal(_, qts, _, _) => qts
    case _ => 0
  }

  function LargestQts(es: seq<Event>): int {
    if es == [] then 0 else Max(LargestQts(es[..|es| - 1]), QtsOf(es[|es| - 1]))
  }

  // In every run the qts is the largest one any answer brought.
  lemma {:induction false} QtsIsLargest(es: seq<Event>)
    ensures Run(INITIAL, es).updQts == LargestQts(es) >= 0
  {
    if es != [] {
      var s, e := Run(INITIAL, es[..|es| - 1]), es[|es| - 1];
      QtsIsLargest(es[..|es| - 1]);
      match e
      case Received(p) => FeedMarks(s, p);
      case Answered(p) => FeedMarks(s, p);
      case GotState(date, qts, seqNo) => SetStateMarks(s, date, qts, seqNo);
      case DifferenceEmpty(date, seqNo) => SetStateMarks(s, date, s.updQts, seqNo);
      case DifferenceSlice(date, qts, seqNo, other) => SetStateMarks(Fed(s, other), date, qts, seqNo);
      case DifferenceFinal(date, qts, seqNo, other) => SetStateMarks(Fed(s, other), date, qts, seqNo);
      case _ =>
    }
  }

  // ---- What is applied has no gap and no repetition -------------------------

  predicate Numbered(p: Packet) {
    p.Sequenced() && p.First() != 0
  }

  ghost predicate WellFormed(p: Packet) {
    p.Sequenced() ==> 0 <= p.First() <= p.Last() && (p.First() == 0 ==> p.Last() == 0)
  }

  // The numbered packets of `log` cover base + 1 .. end, in order, each number once.
  ghost predicate Covers(log: seq<Packet>, base: int, end: int) {
    if log == [] then base == end
    else
      var front, p := log[..|log| - 1], log[|log| - 1];
      if Numbered(p) then p.Last() == end && Covers(front, base, p.First() - 1)
      else Covers(front, base, end)
  }

  ghost predicate AllWellFormed(m: map<int, Packet>) {
    Keyed(m) && forall k :: k in m ==> WellFormed(m[k])
  }

  lemma {:induction false} CoversOneMore(log: seq<Packet>, p: Packet, base: int, end: int)
    requires Covers(log, base, end)
    ensures Numbered(p) && p.First() == end + 1 ==> Covers(log + [p], base, p.Last())
    ensures !Numbered(p) ==> Covers(log + [p], base, end)
  {
    assert (log + [p])[..|log + [p]| - 1] == log;
  }

  lemma {:induction false} SetStateKeepsCovers(s: State, date: int, qts: int, seqNo: int, base: int)
    requires 0 <= s.updSeq && 0 <= seqNo && AllWellFormed(s.buffer)
    requires Covers(s.log, base, if seqNo == 0 then s.updSeq else seqNo)
    ensures var r := SetState(s, date, qts, seqNo); Covers(r.log, base, r.updSeq) && AllWellFormed(r.buffer)
    decreases s.buffer.Keys, 0
  {
    var s1 := SetDateQts(s, date, qts);
    if seqNo != 0 && seqNo != s1.updSeq && seqNo + 1 in s1.buffer {
      var rest := Above(s1.buffer, seqNo + 1);
      assert seqNo + 1 !in rest.Keys && rest.Keys <= s1.buffer.Keys;
      FeedKeepsCovers(s1.(updSeq := seqNo, buffer := rest, bySeqTimer := false), s1.buffer[seqNo + 1], base);
    }
  }

  lemma {:induction false} FeedKeepsCovers(s: State, p: Packet, base: int)
    requires 0 <= s.updSeq && AllWellFormed(s.buffer) && WellFormed(p) && Covers(s.log, base, s.updSeq)
    ensures var r := Feed(s, p); Covers(r.log, base, r.updSeq) && AllWellFormed(r.buffer)
    decreases s.buffer.Keys, 1
  {
    if Passes(s, p) {
      ApplyKeepsCovers(s, p, base);
      SetStateKeepsCovers(Apply(s, p), p.Date(), s.updQts, if p.Short? then s.updSeq else p.Last(), base);
    } else {
      HoldKeepsCovers(s, p);
    }
  }

  // A packet that passes is the next one, or has no number.
  lemma ApplyKeepsCovers(s: State, p: Packet, base: int)
    requires AllWellFormed(s.buffer) && WellFormed(p) && Passes(s, p) && Covers(s.log, base, s.updSeq)
    ensures var t, seqNo := Apply(s, p), if p.Short? then s.updSeq else p.Last();
            && AllWellFormed(t.buffer) && t.buffer.Keys <= s.buffer.Keys && t.updSeq == s.updSeq
            && Covers(t.log, base, if seqNo == 0 then t.updSeq else seqNo)
  {
    CoversOneMore(s.log, p, base, s.updSeq);
  }

  lemma HoldKeepsCovers(s: State, p: Packet)
    requires AllWellFormed(s.buffer) && WellFormed(p)
    ensures var t := Hold(s, p); AllWellFormed(t.buffer) && t.log == s.log && t.updSeq == s.updSeq
  {
  }

  ghost predicate PacketsOnly(es: seq<Event>) {
    forall i :: 0 <= i < |es| ==>
      match es[i]
      case Received(p) => WellFormed(p)
      case Answered(p) => WellFormed(p)
      case ChannelDifference(_) => true
      case SeqTimerFired => true
      case MinChannelTimerFired => true
      case _ => false
  }

  // Main result: whatever packets arrive, overlapping, repeated or missing, the
  // numbered packets applied since the last reset cover base + 1 .. updSeq
  // without a gap and without applying any number twice.
  lemma {:induction false} AppliedWithoutGaps(s: State, es: seq<Event>)
    requires Inv(s) && s.log == [] && AllWellFormed(s.buffer) && PacketsOnly(es)
    ensures var r := Run(s, es);
            Covers(r.log, s.updSeq, r.updSeq) && AllWellFormed(r.buffer) && Inv(r)
  {
    if es != [] {
      var front, e := es[..|es| - 1], es[|es| - 1];
      AppliedWithoutGaps(s, front);
      var t := Run(s, front);
      match e {
        case Received(p) => FeedKeepsCovers(t, p, s.updSeq);
        case Answered(p) => FeedKeepsCovers(t, p, s.updSeq);
        case _ =>
      }
      NextKeepsInv(t, e);
    }
  }

  // ---- Order independence ----------------------------------------------------

  // Tile i covers the numbers cuts[i] + 1 .. cuts[i + 1], and applying it asks for no difference.
  ghost predicate Tiles(ts: seq<Packet>, cuts: seq<int>) {
    && |cuts| == |ts| + 1 && 0 <= cuts[0]
    && (forall i {:trigger ts[i]} :: 0 <= i < |ts| ==> IsTile(ts[i], cuts[i], cuts[i + 1]))
    && Increasing(cuts)
  }

  ghost predicate IsTile(p: Packet, from: int, to: int) {
    p.Sequenced() && !p.body.asksDifference && p.First() == from + 1 <= p.Last() == to
  }

  ghost predicate Increasing(cuts: seq<int>) {
    forall i, j :: 0 <= i < j < |cuts| ==> cuts[i] < cuts[j]
  }

  // The tiles by the number they are buffered under.
  ghost predicate ByNumber(tiles: map<int, Packet>, ts: seq<Packet>, cuts: seq<int>) {
    && Tiles(ts, cuts)
    && (forall i {:trigger ts[i]} :: 0 <= i < |ts| ==> cuts[i] + 1 in tiles && tiles[cuts[i] + 1] == ts[i])
    && (forall x :: x in tiles ==> x <= cuts[|ts|])
  }

  // How far from tile `k` on everything has been delivered. A delivered tile
  // is known by its first number.
  function GapFrom(cuts: seq<int>, got: set<int>, k: nat): (m: nat)
    requires k < |cuts|
    ensures k <= m < |cuts| && (forall i :: k <= i < m ==> cuts[i] + 1 in got)
    ensures m < |cuts| - 1 ==> cuts[m] + 1 !in got
    decreases |cuts| - k
  {
    if k < |cuts| - 1 && cuts[k] + 1 in got then GapFrom(cuts, got, k + 1) else k
  }

  lemma {:induction false} GapIsUnique(cuts: seq<int>, got: set<int>, k: nat, m: nat)
    requires k <= m < |cuts| && (forall i :: k <= i < m ==> cuts[i] + 1 in got)
    requires m < |cuts| - 1 ==> cuts[m] + 1 !in got
    ensures GapFrom(cuts, got, k) == m
    decreases m - k
  {
    if k < m { GapIsUnique(cuts, got, k + 1, m); }
  }

  // Whether the channel timer runs after these packets.
  function Armed(armed: bool, ts: seq<Packet>): bool {
    if ts == [] then armed
    else Armed(armed, ts[..|ts| - 1]) || (!ts[|ts| - 1].TooLong? && ts[|ts| - 1].body.waitsForChannel)
  }

  // The latest date of the packets applied while the channel timer did not run.
  function LatestDate(armed: bool, date: int, ts: seq<Packet>): int {
    if ts == [] then date
    else
      var before := LatestDate(armed, date, ts[..|ts| - 1]);
      if before < ts[|ts| - 1].Date() && !Armed(armed, ts) then ts[|ts| - 1].Date() else before
  }

  function Waiting(tiles: map<int, Packet>, got: set<int>, end: int): map<int, Packet> {
    map x | x in tiles && x in got && x > end + 1 :: tiles[x]
  }

  // The state when the first `m` tiles are applied and those of `got` beyond the gap wait.
  function After(s0: State, tiles: map<int, Packet>, ts: seq<Packet>, end: int, got: set<int>): State {
    var buffer := Waiting(tiles, got, end);
    s0.(updSeq := end, updDate := LatestDate(s0.minChannelTimer, s0.updDate, ts),
        minChannelTimer := Armed(s0.minChannelTimer, ts),
        buffer := buffer, bySeqTimer := buffer != map[], log := s0.log + ts)
  }

  // One tile at the gap: applied, and the widget moves on to its last number.
  lemma ApplyAtGap(s0: State, tiles: map<int, Packet>, ts: seq<Packet>, end: int, got: set<int>, p: Packet, timer: bool)
    requires 0 <= end && IsTile(p, end, p.Last())
    ensures var s := After(s0, tiles, ts, end, got).(bySeqTimer := timer);
            var r := After(s0, tiles, ts + [p], p.Last(), got);
            Feed(s, p) == if p.Last() + 1 in tiles && p.Last() + 1 in got
                          then Feed(r.(bySeqTimer := false), tiles[p.Last() + 1]) else r
  {
    var s := After(s0, tiles, ts, end, got).(bySeqTimer := timer);
    var r := After(s0, tiles, ts + [p], p.Last(), got);
    var s1 := SetDateQts(Apply(s, p), p.Date(), s.updQts);
    assert (ts + [p])[..|ts|] == ts;
    assert s1.log == r.log;
    assert Above(s1.buffer, p.Last() + 1) == r.buffer;
    assert s1.(updSeq := p.Last(), buffer := r.buffer, bySeqTimer := r.bySeqTimer) == r;
  }

  // One tile at the gap: applied, and the next one is fed if it waits.
  lemma DrainOne(
      s0: State, tiles: map<int, Packet>, ts: seq<Packet>, cuts: seq<int>, got: set<int>, k: nat, timer: bool)
    requires ByNumber(tiles, ts, cuts) && k < |ts|
    ensures var s := After(s0, tiles, ts[..k], cuts[k], got).(bySeqTimer := timer);
            var r := After(s0, tiles, ts[..k + 1], cuts[k + 1], got);
            Feed(s, ts[k]) == if k + 1 < |ts| && cuts[k + 1] + 1 in got
                              then Feed(r.(bySeqTimer := false), ts[k + 1]) else r
  {
    assert IsTile(ts[k], cuts[k], cuts[k + 1]);
    assert k > 0 ==> cuts[0] < cuts[k];
    ApplyAtGap(s0, tiles, ts[..k], cuts[k], got, ts[k], timer);
    assert ts[..k] + [ts[k]] == ts[..k + 1];
    NextTile(tiles, ts, cuts, got, k);
  }

  // Feeding the tile at the gap applies it and then every tile that waits directly behind it.
  lemma {:induction false} DrainChain(
      s0: State, tiles: map<int, Packet>, ts: seq<Packet>, cuts: seq<int>, got: set<int>, k: nat, timer: bool)
    requires ByNumber(tiles, ts, cuts) && k < |ts|
    ensures Feed(After(s0, tiles, ts[..k], cuts[k], got).(bySeqTimer := timer), ts[k])
         == After(s0, tiles, ts[..GapFrom(cuts, got, k + 1)], cuts[GapFrom(cuts, got, k + 1)], got)
    decreases |ts| - k
  {
    DrainOne(s0, tiles, ts, cuts, got, k, timer);
    if k + 1 < |ts| && cuts[k + 1] + 1 in got {
      DrainChain(s0, tiles, ts, cuts, got, k + 1, false);
      assert GapFrom(cuts, got, k + 1) == GapFrom(cuts, got, k + 2);
    } else {
      assert GapFrom(cuts, got, k + 1) == k + 1;
    }
  }

  // Whether a tile waits directly behind the k-th, and which.
  lemma NextTile(tiles: map<int, Packet>, ts: seq<Packet>, cuts: seq<int>, got: set<int>, k: nat)
    requires ByNumber(tiles, ts, cuts) && k < |ts|
    ensures ts[k].Last() == cuts[k + 1]
    ensures k + 1 < |ts| ==> cuts[k + 1] + 1 in tiles && tiles[cuts[k + 1] + 1] == ts[k + 1]
    ensures k + 1 == |ts| ==> cuts[k + 1] + 1 !in tiles
  {
    assert IsTile(ts[k], cuts[k], cuts[k + 1]);
    if k + 1 < |ts| { assert IsTile(ts[k + 1], cuts[k + 1], cuts[k + 2]); }
  }

  ghost function Settled(s0: State, tiles: map<int, Packet>, ts: seq<Packet>, cuts: seq<int>, got: set<int>): State
    requires |cuts| == |ts| + 1
  {
    var m := GapFrom(cuts, got, 0);
    After(s0, tiles, ts[..m], cuts[m], got)
  }

  lemma DeliverOld(s0: State, tiles: map<int, Packet>, ts: seq<Packet>, cuts: seq<int>, got: set<int>, j: nat)
    requires ByNumber(tiles, ts, cuts) && j < |ts| && j < GapFrom(cuts, got, 0)
    ensures Feed(Settled(s0, tiles, ts, cuts, got), ts[j]) == Settled(s0, tiles, ts, cuts, got + {cuts[j] + 1})
  {
    var m := GapFrom(cuts, got, 0);
    assert IsTile(ts[j], cuts[j], cuts[j + 1]);
    assert j > 0 ==> cuts[0] < cuts[j];
    assert cuts[j] < cuts[m];
    assert got + {cuts[j] + 1} == got;
  }

  lemma DeliverNext(s0: State, tiles: map<int, Packet>, ts: seq<Packet>, cuts: seq<int>, got: set<int>)
    requires ByNumber(tiles, ts, cuts) && GapFrom(cuts, got, 0) < |ts|
    ensures var m := GapFrom(cuts, got, 0);
            Feed(Settled(s0, tiles, ts, cuts, got), ts[m]) == Settled(s0, tiles, ts, cuts, got + {cuts[m] + 1})
  {
    var s := Settled(s0, tiles, ts, cuts, got);
    assert s == s.(bySeqTimer := s.bySeqTimer);
    DrainChain(s0, tiles, ts, cuts, got, GapFrom(cuts, got, 0), s.bySeqTimer);
    SettledMoves(s0, tiles, ts, cuts, got);
  }

  lemma SettledMoves(s0: State, tiles: map<int, Packet>, ts: seq<Packet>, cuts: seq<int>, got: set<int>)
    requires ByNumber(tiles, ts, cuts) && GapFrom(cuts, got, 0) < |ts|
    ensures var m := GapFrom(cuts, got, 0);
            var m' := GapFrom(cuts, got, m + 1);
            Settled(s0, tiles, ts, cuts, got + {cuts[m] + 1}) == After(s0, tiles, ts[..m'], cuts[m'], got)
  {
    GapMoves(tiles, ts, cuts, got);
  }

  lemma DeliverAhead(s0: State, tiles: map<int, Packet>, ts: seq<Packet>, cuts: seq<int>, got: set<int>, j: nat)
    requires ByNumber(tiles, ts, cuts) && GapFrom(cuts, got, 0) < j < |ts|
    ensures Feed(Settled(s0, tiles, ts, cuts, got), ts[j]) == Settled(s0, tiles, ts, cuts, got + {cuts[j] + 1})
  {
    var m := GapFrom(cuts, got, 0);
    var x := cuts[j] + 1;
    assert IsTile(ts[j], cuts[j], cuts[j + 1]);
    assert cuts[0] < cuts[j];
    assert cuts[m] < cuts[j];
    GapIsUnique(cuts, got + {x}, 0, m);
    var w' := Waiting(tiles, got + {x}, cuts[m]);
    assert x in w' && Waiting(tiles, got, cuts[m])[x := ts[j]] == w';
  }

  // One delivery, in or out of order, new or repeated.
  lemma DeliverOne(s0: State, tiles: map<int, Packet>, ts: seq<Packet>, cuts: seq<int>, got: set<int>, j: nat)
    requires ByNumber(tiles, ts, cuts) && j < |ts|
    ensures Feed(Settled(s0, tiles, ts, cuts, got), ts[j]) == Settled(s0, tiles, ts, cuts, got + {cuts[j] + 1})
  {
    if j < GapFrom(cuts, got, 0) {
      DeliverOld(s0, tiles, ts, cuts, got, j);
    } else if j == GapFrom(cuts, got, 0) {
      DeliverNext(s0, tiles, ts, cuts, got);
    } else {
      DeliverAhead(s0, tiles, ts, cuts, got, j);
    }
  }

  lemma GapMoves(tiles: map<int, Packet>, ts: seq<Packet>, cuts: seq<int>, got: set<int>)
    requires ByNumber(tiles, ts, cuts)
    requires GapFrom(cuts, got, 0) < |ts|
    ensures var m := GapFrom(cuts, got, 0);
            var m' := GapFrom(cuts, got, m + 1);
            var got' := got + {cuts[m] + 1};
            GapFrom(cuts, got', 0) == m' && Waiting(tiles, got', cuts[m']) == Waiting(tiles, got, cuts[m'])
  {
    var m := GapFrom(cuts, got, 0);
    var m' := GapFrom(cuts, got, m + 1);
    assert cuts[m] < cuts[m'];
    assert m' < |ts| ==> cuts[m'] + 1 != cuts[m] + 1;
    GapIsUnique(cuts, got + {cuts[m] + 1}, 0, m');
  }

  // No difference is being requested and nothing waits.
  predicate Quiet(s: State) {
    s.buffer == map[] && !s.bySeqTimer && !s.requesting
  }

  function Deliver(s: State, ts: seq<Packet>, order: seq<nat>): State
    requires forall i :: 0 <= i < |order| ==> order[i] < |ts|
  {
    if order == [] then s
    else Next(Deliver(s, ts, order[..|order| - 1]), Received(ts[order[|order| - 1]]))
  }

  function FirstsOf(cuts: seq<int>, order: seq<nat>): set<int>
    requires forall i :: 0 <= i < |order| ==> order[i] < |cuts|
  {
    if order == [] then {}
    else FirstsOf(cuts, order[..|order| - 1]) + {cuts[order[|order| - 1]] + 1}
  }

  lemma {:induction false} FirstIsIn(cuts: seq<int>, order: seq<nat>, i: nat)
    requires forall i :: 0 <= i < |order| ==> order[i] < |cuts|
    requires i < |order|
    ensures cuts[order[i]] + 1 in FirstsOf(cuts, order)
  {
    if i < |order| - 1 { FirstIsIn(cuts, order[..|order| - 1], i); }
  }

  lemma {:induction false} SameFirsts(cuts: seq<int>, order: seq<nat>, other: seq<nat>)
    requires forall i :: 0 <= i < |order| ==> order[i] < |cuts|
    requires forall i :: 0 <= i < |other| ==> other[i] < |cuts|
    requires forall j :: j in order ==> j in other
    ensures FirstsOf(cuts, order) <= FirstsOf(cuts, other)
  {
    if order != [] {
      var front, j := order[..|order| - 1], order[|order| - 1];
      SameFirsts(cuts, front, other);
      assert j in order;
      var k :| 0 <= k < |other| && other[k] == j;
      FirstIsIn(cuts, other, k);
    }
  }

  lemma NothingDelivered(s0: State, tiles: map<int, Packet>, ts: seq<Packet>, cuts: seq<int>)
    requires ByNumber(tiles, ts, cuts) && s0.updSeq == cuts[0] && Quiet(s0)
    ensures Settled(s0, tiles, ts, cuts, {}) == s0
  {
    assert GapFrom(cuts, {}, 0) == 0 && ts[..0] == [];
    assert s0.log + [] == s0.log;
    assert Waiting(tiles, {}, cuts[0]) == map[];
  }

  lemma {:induction false} DeliverAny(
      s0: State, tiles: map<int, Packet>, ts: seq<Packet>, cuts: seq<int>, order: seq<nat>)
    requires ByNumber(tiles, ts, cuts) && s0.updSeq == cuts[0] && Quiet(s0)
    requires forall i :: 0 <= i < |order| ==> order[i] < |ts|
    ensures Deliver(s0, ts, order) == Settled(s0, tiles, ts, cuts, FirstsOf(cuts, order))
  {
    if order == [] {
      NothingDelivered(s0, tiles, ts, cuts);
    } else {
      var front, j := order[..|order| - 1], order[|order| - 1];
      var got := FirstsOf(cuts, front);
      DeliverAny(s0, tiles, ts, cuts, front);
      DeliverOne(s0, tiles, ts, cuts, got, j);
      var s := Deliver(s0, ts, front);
      assert !s.requesting && Next(s, Received(ts[j])) == Feed(s, ts[j]);
    }
  }

  lemma {:induction false} TileMap(ts: seq<Packet>, cuts: seq<int>) returns (tiles: map<int, Packet>)
    requires Tiles(ts, cuts)
    ensures ByNumber(tiles, ts, cuts)
  {
    tiles := map[];
    if ts != [] {
      var n := |ts| - 1;
      assert forall i {:trigger ts[..n][i]} :: 0 <= i < n ==> ts[..n][i] == ts[i];
      var some := TileMap(ts[..n], cuts[..n + 1]);
      assert cuts[n] < cuts[n + 1];
      tiles := some[cuts[n] + 1 := ts[n]];
      forall i | 0 <= i < |ts| ensures cuts[i] + 1 in tiles && tiles[cuts[i] + 1] == ts[i] {
        if i < n { assert ts[..n][i] == ts[i] && cuts[i] < cuts[n]; }
      }
    }
  }

  // Main result: the state depends on which tiles came, not on their order or repetition.
  lemma OnlyTheSetMatters(s0: State, ts: seq<Packet>, cuts: seq<int>, order: seq<nat>, other: seq<nat>)
    requires Tiles(ts, cuts) && s0.updSeq == cuts[0] && Quiet(s0)
    requires forall i :: 0 <= i < |order| ==> order[i] < |ts|
    requires forall i :: 0 <= i < |other| ==> other[i] < |ts|
    requires (forall j :: j in order ==> j in other) && (forall j :: j in other ==> j in order)
    ensures Deliver(s0, ts, order) == Deliver(s0, ts, other)
  {
    var tiles := TileMap(ts, cuts);
    assert Deliver(s0, ts, order) == Settled(s0, tiles, ts, cuts, FirstsOf(cuts, order)) by {
      DeliverAny(s0, tiles, ts, cuts, order);
    }
    assert Deliver(s0, ts, other) == Settled(s0, tiles, ts, cuts, FirstsOf(cuts, other)) by {
      DeliverAny(s0, tiles, ts, cuts, other);
    }
    assert FirstsOf(cuts, order) == FirstsOf(cuts, other) by {
      SameFirsts(cuts, order, other);
      SameFirsts(cuts, other, order);
    }
  }

  // Main result: once every tile has come, all were applied in increasing order,
  // each exactly once, and nothing waits.
  lemma OrderIndependence(s0: State, ts: seq<Packet>, cuts: seq<int>, order: seq<nat>)
    requires Tiles(ts, cuts) && s0.updSeq == cuts[0] && Quiet(s0)
    requires forall i :: 0 <= i < |order| ==> order[i] < |ts|
    requires forall j: nat :: j < |ts| ==> j in order
    ensures var r := Deliver(s0, ts, order);
            && r.log == s0.log + ts && r.updSeq == cuts[|ts|]
            && r.buffer == map[] && !r.bySeqTimer && !r.requesting
  {
    var tiles := TileMap(ts, cuts);
    DeliverAny(s0, tiles, ts, cuts, order);
    var got := FirstsOf(cuts, order);
    forall j: nat | j < |ts| ensures cuts[j] + 1 in got {
      assert j in order;
      var i :| 0 <= i < |order| && order[i] == j;
      FirstIsIn(cuts, order, i);
    }
    GapIsUnique(cuts, got, 0, |ts|);
    assert ts[..|ts|] == ts;
  }

  // ---- From an answer on -------------------------------------------------------------------

  // The timer of the buffer runs only while something waits.
  lemma {:induction false} TimerMeansWaiting(es: seq<Event>)
    requires forall i :: 0 <= i < |es| ==> NonNegative(es[i])
    ensures var s := Run(INITIAL, es); s.bySeqTimer ==> s.buffer != map[]
  {
    if es != [] {
      var s, e := Run(INITIAL, es[..|es| - 1]), es[|es| - 1];
      TimerMeansWaiting(es[..|es| - 1]);
      match e
      case Received(p) => FeedTimed(s, p);
      case Answered(p) => FeedTimed(s, p);
      case GotState(date, qts, seqNo) => SetStateTimed(s, date, qts, seqNo);
      case DifferenceEmpty(date, seqNo) => SetStateTimed(s, date, s.updQts, seqNo);
      case DifferenceSlice(date, qts, seqNo, other) => SetStateTimed(Fed(s, other), date, qts, seqNo);
      case DifferenceFinal(date, qts, seqNo, other) => SetStateTimed(Fed(s, other), date, qts, seqNo);
      case _ =>
    }
  }

  ghost predicate Timed(s: State) {
    s.bySeqTimer ==> s.buffer != map[]
  }

  lemma {:induction false} SetStateTimed(s: State, date: int, qts: int, seqNo: int)
    requires Timed(s)
    ensures Timed(SetState(s, date, qts, seqNo))
    decreases s.buffer.Keys, 0
  {
    var s1 := SetDateQts(s, date, qts);
    if seqNo != 0 && seqNo != s1.updSeq && seqNo + 1 in s1.buffer {
      var rest := Above(s1.buffer, seqNo + 1);
      assert seqNo + 1 !in rest.Keys && rest.Keys <= s1.buffer.Keys;
      FeedTimed(s1.(updSeq := seqNo, buffer := rest, bySeqTimer := false), s1.buffer[seqNo + 1]);
    }
  }

  lemma {:induction false} FeedTimed(s: State, p: Packet)
    requires Timed(s)
    ensures Timed(Feed(s, p))
    decreases s.buffer.Keys, 1
  {
    if Passes(s, p) {
      SetStateTimed(Apply(s, p), p.Date(), s.updQts, if p.Short? then s.updSeq else p.Last());
    } else if p.Sequenced() {
      assert p.First() in s.buffer[p.First() := p];
    }
  }

  // With nothing waiting an answer sets the number and applies nothing.
  lemma AnswerSettles(s: State, date: int, qts: int, seqNo: int)
    requires s.buffer == map[] && !s.bySeqTimer
    ensures var t := GotStateSpec(s, date, qts, seqNo);
            Quiet(t) && t.log == s.log && t.updSeq == if seqNo == 0 then s.updSeq else seqNo
  {
    assert Above(map[], seqNo + 1) == map[];
  }

  function Arrivals(ts: seq<Packet>, order: seq<nat>): seq<Event>
    requires forall i :: 0 <= i < |order| ==> order[i] < |ts|
  {
    if order == [] then []
    else Arrivals(ts, order[..|order| - 1]) + [Received(ts[order[|order| - 1]])]
  }

  lemma RunOneMore(s: State, es: seq<Event>, e: Event)
    ensures Run(s, es + [e]) == Next(Run(s, es), e)
  {
    assert (es + [e])[..|es|] == es;
  }

  lemma {:induction false} ArrivalsDeliver(s: State, es: seq<Event>, ts: seq<Packet>, order: seq<nat>)
    requires forall i :: 0 <= i < |order| ==> order[i] < |ts|
    ensures Run(s, es + Arrivals(ts, order)) == Deliver(Run(s, es), ts, order)
  {
    if order == [] {
      assert es + [] == es;
    } else {
      var front, e := order[..|order| - 1], Received(ts[order[|order| - 1]]);
      ArrivalsDeliver(s, es, ts, front);
      RunOneMore(s, es + Arrivals(ts, front), e);
      assert es + Arrivals(ts, order) == es + Arrivals(ts, front) + [e];
    }
  }

  // Main result: from the start, and after any run that left nothing waiting, a state with the
  // number `n` and then the tiles from `n` on in any order lead to all tiles being applied in
  // increasing order, each once, to the last number, and to nothing waiting or asked for.
  lemma TilesAfterState(
      es: seq<Event>, date: int, qts: int, n: int, ts: seq<Packet>, cuts: seq<int>, order: seq<nat>)
    requires (forall i :: 0 <= i < |es| ==> NonNegative(es[i])) && Run(INITIAL, es).buffer == map[]
    requires Tiles(ts, cuts) && cuts[0] == n && (n == 0 ==> Run(INITIAL, es).updSeq == 0)
    requires forall i :: 0 <= i < |order| ==> order[i] < |ts|
    requires forall j: nat :: j < |ts| ==> j in order
    ensures var r := Run(INITIAL, es + [GotState(date, qts, n)] + Arrivals(ts, order));
            && r.log == Run(INITIAL, es).log + ts && r.updSeq == cuts[|ts|]
            && r.buffer == map[] && !r.bySeqTimer && !r.requesting
  {
    var s := Run(INITIAL, es);
    var t := Next(s, GotState(date, qts, n));
    TimerMeansWaiting(es);
    AnswerSettles(s, date, qts, n);
    RunOneMore(INITIAL, es, GotState(date, qts, n));
    TilesAfterRun(es + [GotState(date, qts, n)], t, ts, cuts, order);
  }

  lemma TilesAfterRun(es: seq<Event>, t: State, ts: seq<Packet>, cuts: seq<int>, order: seq<nat>)
    requires t == Run(INITIAL, es) && Quiet(t) && Tiles(ts, cuts) && t.updSeq == cuts[0]
    requires forall i :: 0 <= i < |order| ==> order[i] < |ts|
    requires forall j: nat :: j < |ts| ==> j in order
    ensures var r := Run(INITIAL, es + Arrivals(ts, order));
            && r.log == t.log + ts && r.updSeq == cuts[|ts|]
            && r.buffer == map[] && !r.bySeqTimer && !r.requesting
  {
    ArrivalsDeliver(INITIAL, es, ts, order);
    OrderIndependence(t, ts, cuts, order);
  }

  // ---- What waits is attended to, with one exception ------------------------------------------

  // Something asks for the missing packets some time: the timer, or a request on its way.
  predicate Attended(s: State) {
    s.buffer == map[] || s.bySeqTimer || s.requesting
  }

  // The timer runs exactly while something waits, unless a difference was asked for.
  lemma {:induction false} SetStateAttends(s: State, date: int, qts: int, seqNo: int)
    requires AllWellFormed(s.buffer) && 0 <= seqNo && 0 <= s.updSeq
    ensures var t := SetState(s, date, qts, seqNo);
            && (seqNo == 0 || seqNo == s.updSeq ==> t.buffer == s.buffer && t.bySeqTimer == s.bySeqTimer)
            && (seqNo != 0 && seqNo != s.updSeq ==> (t.bySeqTimer <==> t.buffer != map[]))
    decreases s.buffer.Keys, 0
  {
    var s1 := SetDateQts(s, date, qts);
    if seqNo != 0 && seqNo != s1.updSeq && seqNo + 1 in s1.buffer {
      var rest := Above(s1.buffer, seqNo + 1);
      assert seqNo + 1 !in rest.Keys && rest.Keys <= s1.buffer.Keys;
      FeedAttends(s1.(updSeq := seqNo, buffer := rest, bySeqTimer := false), s1.buffer[seqNo + 1]);
    }
  }

  lemma {:induction false} FeedAttends(s: State, p: Packet)
    requires AllWellFormed(s.buffer) && WellFormed(p) && 0 <= s.updSeq
    ensures Attended(s) ==> Attended(Feed(s, p))
    ensures Numbered(p) && p.First() == s.updSeq + 1 ==> (Feed(s, p).bySeqTimer <==> Feed(s, p).buffer != map[])
    decreases s.buffer.Keys, 1
  {
    if Passes(s, p) {
      SetStateAttends(Apply(s, p), p.Date(), s.updQts, if p.Short? then s.updSeq else p.Last());
    }
  }

  // What an answer feeds before it sets the state, and the number it brings.
  function FedBy(e: Event): Body {
    match e
    case DifferenceFinal(_, _, _, other) => other
    case _ => Body(0, false, false, false)
  }

  predicate Ends(e: Event) {
    e.GotState? || e.DifferenceEmpty? || e.DifferenceFinal?
  }

  function NumberOf(e: Event): int
    requires Ends(e)
  {
    match e
    case GotState(_, _, seqNo) => seqNo
    case DifferenceEmpty(_, seqNo) => seqNo
    case DifferenceFinal(_, _, seqNo, _) => seqNo
  }

  // Main result: an event leaves what waits unattended if and only if it is an answer that
  // brings no new number while packets wait and the timer of the buffer does not run.
  lemma AttendedIff(s: State, e: Event)
    requires Attended(s) && AllWellFormed(s.buffer) && NonNegative(e) && 0 <= s.updSeq
    requires (e.Received? ==> WellFormed(e.p)) && (e.Answered? ==> WellFormed(e.p))
    ensures !Attended(Next(s, e)) <==>
              && Ends(e) && (NumberOf(e) == 0 || NumberOf(e) == s.updSeq)
              && s.buffer != map[] && !s.bySeqTimer
  {
    match e
    case Received(p) => FeedAttends(s, p);
    case Answered(p) => FeedAttends(s, p);
    case GotState(date, qts, seqNo) => SetStateAttends(s, date, qts, seqNo);
    case DifferenceEmpty(date, seqNo) => SetStateAttends(s, date, s.updQts, seqNo);
    case DifferenceSlice(date, qts, seqNo, other) =>
    case DifferenceFinal(date, qts, seqNo, other) => SetStateAttends(Fed(s, other), date, qts, seqNo);
    case _ =>
  }

  const NO_EFFECT := Body(0, false, false, false)
  const EARLY := Updates(2, 5, NO_EFFECT)

  // A run that comes to it: a packet that came too early waits while a difference is asked
  // for, the timer goes off meanwhile, and the difference brings nothing new.
  lemma UnattendedRun() returns (states: seq<State>, es: seq<Event>)
    ensures es == [GotState(1, 1, 1), MinChannelTimerFired, Answered(EARLY), SeqTimerFired, DifferenceEmpty(2, 1)]
    ensures |states| == 6 && states[0] == INITIAL
    ensures forall i :: 0 <= i < 5 ==> states[i + 1] == Next(states[i], es[i])
    ensures states[5].buffer == map[5 := EARLY] && !states[5].bySeqTimer && !states[5].requesting
  {
    es := [GotState(1, 1, 1), MinChannelTimerFired, Answered(EARLY), SeqTimerFired, DifferenceEmpty(2, 1)];
    var s1 := State(1, 1, 1, map[], false, false, false, []);
    assert Above(map[], 2) == map[];
    assert Next(INITIAL, es[0]) == s1;
    var s2 := s1.(requesting := true);
    var s3 := s2.(buffer := map[5 := EARLY], bySeqTimer := true);
    assert s2.buffer[5 := EARLY] == map[5 := EARLY];
    var s4 := s3.(bySeqTimer := false);
    var s5 := s4.(updDate := 2, requesting := false);
    states := [INITIAL, s1, s2, s3, s4, s5];
  }

  // ---- The widget itself ------------------------------------------------------

  class MainWidget {
    var updSeq: int
    var updDate: int
    var updQts: int
    var bySeqUpdates: map<int, Packet>
    var bySeqTimer: bool
    var requesting: bool
    var minChannelTimer: bool
    var applied: seq<Packet>

    function View(): State
      reads this
    {
      State(updSeq, updDate, updQts, bySeqUpdates, bySeqTimer, requesting, minChannelTimer, applied)
    }

    constructor ()
      ensures View() == INITIAL
    {
      updSeq, updDate, updQts := 0, 0, 0;
      bySeqUpdates, bySeqTimer, requesting := map[], false, true;
      minChannelTimer, applied := false, [];
    }

    method GetDifference()
      modifies this
      ensures View() == AskDifference(old(View()))
    {
      if requesting { return; }
      bySeqUpdates := map[];
      bySeqTimer := false;
      requesting := true;
    }

    method FeedUpdateVector(p: Packet)
      requires !p.TooLong?
      modifies this
      ensures View() == Apply(old(View()), p)
    {
      applied := applied + [p];
      FeedUpdateOther(p.body);
    }

    method FeedUpdateOther(body: Body)
      modifies this
      ensures View() == Fed(old(View()), body)
    {
      if body.waitsForChannel && !minChannelTimer { minChannelTimer := true; }
      if body.asksDifference { GetDifference(); }
    }

    // The loop over the buffer, smallest key first. `next` is the packet the
    // loop ends with a call for: the one numbered seqNo + 1, if it is there.
    method DrainBuffer(seqNo: int) returns (next: Option<Packet>)
      modifies `bySeqUpdates, `bySeqTimer
      ensures bySeqUpdates == Above(old(bySeqUpdates), seqNo + 1)
      ensures next == if seqNo + 1 in old(bySeqUpdates) then Some(old(bySeqUpdates)[seqNo + 1]) else None
      ensures bySeqTimer == (next.None? && bySeqUpdates != map[])
    {
      if bySeqTimer { bySeqTimer := false; }
      while bySeqUpdates != map[]
        invariant !bySeqTimer && PartlyDrained(old(bySeqUpdates), bySeqUpdates, seqNo)
        decreases bySeqUpdates.Keys
      {
        var s := Begin(bySeqUpdates);
        if s <= seqNo + 1 {
          var v := bySeqUpdates[s];
          EraseFirst(old(bySeqUpdates), bySeqUpdates, seqNo, s);
          bySeqUpdates := bySeqUpdates - {s};
          if s == seqNo + 1 { return Some(v); }
        } else {
          DrainedAll(old(bySeqUpdates), bySeqUpdates, seqNo);
          if !bySeqTimer { bySeqTimer := true; }
          return None;
        }
      }
      DrainedAll(old(bySeqUpdates), bySeqUpdates, seqNo);
      next := None;
    }

    method UpdSetState(date: int, qts: int, seqNo: int)
      modifies this
      ensures View() == SetState(old(View()), date, qts, seqNo)
      decreases bySeqUpdates.Keys, 0
    {
      if updDate < date && !minChannelTimer { updDate := date; }
      if qts != 0 && updQts < qts { updQts := qts; }
      if seqNo != 0 && seqNo != updSeq {
        updSeq := seqNo;
        ghost var before := bySeqUpdates;
        var next := DrainBuffer(seqNo);
        if next.Some? {
          assert seqNo + 1 in before.Keys && seqNo + 1 !in bySeqUpdates.Keys;
          FeedUpdates(next.value);
        }
      }
    }

    method FeedUpdates(p: Packet)
      modifies this
      ensures View() == Feed(old(View()), p)
      decreases bySeqUpdates.Keys, 1
    {
      match p {
        case Short(date, _, outcome) =>
          if outcome == NeedsDifference { GetDifference(); return; }
          if outcome == Accepted {
            FeedUpdateVector(p);
            UpdSetState(date, updQts, updSeq);
          }
        case TooLong =>
          GetDifference();
        case _ =>
          if p.First() != 0 {
            if p.First() <= updSeq { return; }
            if p.First() > updSeq + 1 {
              bySeqUpdates := bySeqUpdates[p.First() := p];
              bySeqTimer := true;
              return;
            }
          }
          FeedUpdateVector(p);
          UpdSetState(p.date, updQts, p.last);
      }
    }

    method UpdateReceived(p: Packet)
      modifies this
      ensures View() == Next(old(View()), Received(p))
    {
      if !requesting || p.ForcesLogout() { FeedUpdates(p); }
    }

    method NewSessionCreated()
      modifies this
      ensures View() == Next(old(View()), NewSession)
    {
      updSeq := 0;
      GetDifference();
    }

    method GotState(date: int, qts: int, seqNo: int)
      modifies this
      ensures View() == Next(old(View()), Event.GotState(date, qts, seqNo))
    {
      UpdSetState(date, qts, seqNo);
      requesting := false;
    }

    method GotDifference(e: Event)
      requires e.DifferenceEmpty? || e.DifferenceSlice? || e.DifferenceFinal? || e.DifferenceTooLong?
      modifies this
      ensures View() == Next(old(View()), e)
    {
      match e {
        case DifferenceEmpty(date, seqNo) =>
          UpdSetState(date, updQts, seqNo);
          requesting := false;
        case DifferenceSlice(date, qts, seqNo, other) =>
          FeedUpdateOther(other);
          UpdSetState(date, qts, seqNo);
          requesting := false;
          GetDifference();
        case DifferenceFinal(date, qts, seqNo, other) =>
          FeedUpdateOther(other);
          GotState(date, qts, seqNo);
        case DifferenceTooLong =>
      }
    }

    method MinChannelTimerEvent()
      modifies this
      ensures View() == Next(old(View()), MinChannelTimerFired)
    {
      minChannelTimer := false;
      GetDifference();
    }

    method SeqTimerEvent()
      modifies this
      ensures View() == Next(old(View()), SeqTimerFired)
    {
      bySeqTimer := false;
      GetDifference();
    }
  }

  // The smallest key of an ordered map.
  method Begin(m: map<int, Packet>) returns (s: int)
    requires m != map[]
    ensures s in m && forall k :: k in m ==> s <= k
  {
    HasSmallest(m.Keys);
    s :| s in m.Keys && forall k :: k in m.Keys ==> s <= k;
  }

  lemma {:induction false} HasSmallest(keys: set<int>)
    requires keys != {}
    ensures exists s :: s in keys && forall k :: k in keys ==> s <= k
  {
    HasMember(keys);
    var x :| x in keys;
    if k :| k in keys && k < x {
      assert k in keys - {x};
      HasSmallest(keys - {x});
      var s :| s in keys - {x} && forall k :: k in keys - {x} ==> s <= k;
      assert forall k :: k in keys ==> k == x || k in keys - {x};
      assert s in keys && forall k :: k in keys ==> s <= k;
    }
  }

  // `now` is `before` without some of the keys up to `seqNo`.
  ghost predicate PartlyDrained(before: map<int, Packet>, now: map<int, Packet>, seqNo: int) {
    && now.Keys <= before.Keys
    && (forall k :: k in now ==> now[k] == before[k])
    && (forall k :: k in before && k !in now ==> k <= seqNo)
  }

  lemma EraseFirst(before: map<int, Packet>, now: map<int, Packet>, seqNo: int, s: int)
    requires PartlyDrained(before, now, seqNo)
    requires s in now && s <= seqNo + 1 && forall k :: k in now ==> s <= k
    ensures s <= seqNo ==> PartlyDrained(before, now - {s}, seqNo)
    ensures s == seqNo + 1 ==> s in before && now[s] == before[s] && now - {s} == Above(before, seqNo + 1)
    ensures (now - {s}).Keys < now.Keys
  {
    assert s in now.Keys && s !in (now - {s}).Keys;
    if s == seqNo + 1 {
      forall k ensures k in now - {s} <==> k in Above(before, seqNo + 1) { }
    }
  }

  lemma DrainedAll(before: map<int, Packet>, now: map<int, Packet>, seqNo: int)
    requires PartlyDrained(before, now, seqNo) && forall k :: k in now ==> k > seqNo + 1
    ensures now == Above(before, seqNo + 1) && seqNo + 1 !in before
  {
    forall k ensures k in now <==> k in Above(before, seqNo + 1) { }
  }
}
