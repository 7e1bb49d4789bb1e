// Marking histories as read: one request per peer at a time, later marks wait merged.
module ReadRequests {
  import opened Options

  type Peer = int

  datatype Mark = Mark(peer: Peer, upTo: int)

  // The chat a channel was migrated from, when it is loaded.
  datatype Migrated = Migrated(peer: Peer, unread: bool, upTo: int)

  datatype History = History(peer: Peer, upTo: int, isChannel: bool, amIn: bool, migrated: Option<Migrated>)

  // `inFlight` and `pending` are the two maps. `asked` are the marks asked for, `sent`
  // those sent, `open` the peers of the requests without an answer, as the server sees them.
  datatype State = State(
    inFlight: map<Peer, int>, pending: map<Peer, int>,
    asked: seq<Mark>, sent: seq<Mark>, open: multiset<Peer>)

  const INITIAL := State(map[], map[], [], [], multiset{})

  function Send(s: State, m: Mark): State {
    s.(inFlight := if m.peer in s.inFlight then s.inFlight else s.inFlight[m.peer := m.upTo],
       sent := s.sent + [m], open := s.open + multiset{m.peer})
  }

  function Ask(s: State, m: Mark): State {
    var t := s.(asked := s.asked + [m]);
    if m.peer in s.inFlight then
      if m.peer !in s.pending || s.pending[m.peer] < m.upTo then t.(pending := s.pending[m.peer := m.upTo]) else t
    else Send(t, m)
  }

  function ReadForce(s: State, h: History): State {
    if h.upTo == 0 || (h.isChannel && !h.amIn) then s
    else
      var t :=
        if h.isChannel && h.migrated.Some? && h.migrated.value.unread && h.migrated.value.upTo != 0
        then Ask(s, Mark(h.migrated.value.peer, h.migrated.value.upTo)) else s;
      Ask(t, Mark(h.peer, h.upTo))
  }

  // The request of the peer is done or failed.
  function Finished(s: State, p: Peer): State {
    if p in s.pending then Send(Removed(s, p), Mark(p, s.pending[p])) else Removed(s, p)
  }

  function Removed(s: State, p: Peer): State {
    s.(inFlight := s.inFlight - {p}, pending := s.pending - {p}, open := s.open - multiset{p})
  }

  // ---- What the marks of a peer amount to ------------------------------------------------

  function Larger(a: Option<int>, b: Option<int>): Option<int> {
    if a.None? then b else if b.None? then a else if a.value < b.value then b else a
  }

  function Largest(log: seq<Mark>, p: Peer): Option<int> {
    if log == [] then None
    else Larger(Largest(log[..|log| - 1], p), if log[|log| - 1].peer == p then Some(log[|log| - 1].upTo) else None)
  }

  lemma LargestMore(log: seq<Mark>, m: Mark, p: Peer)
    ensures Largest(log + [m], p) == Larger(Largest(log, p), if m.peer == p then Some(m.upTo) else None)
  {
    assert (log + [m])[..|log|] == log;
  }

  lemma {:induction false} LargestMeans(log: seq<Mark>, p: Peer)
    ensures Largest(log, p).None? <==> forall i :: 0 <= i < |log| ==> log[i].peer != p
    ensures Largest(log, p).Some? ==>
              Mark(p, Largest(log, p).value) in log
              && forall i :: 0 <= i < |log| && log[i].peer == p ==> log[i].upTo <= Largest(log, p).value
  {
    if log != [] {
      LargestMeans(log[..|log| - 1], p);
      assert log == log[..|log| - 1] + [log[|log| - 1]];
    }
  }

  function Count(log: seq<Mark>, p: Peer): nat {
    if log == [] then 0 else Count(log[..|log| - 1], p) + if log[|log| - 1].peer == p then 1 else 0
  }

  lemma CountMore(log: seq<Mark>, m: Mark, p: Peer)
    ensures Count(log + [m], p) == Count(log, p) + if m.peer == p then 1 else 0
  {
    assert (log + [m])[..|log|] == log;
  }

  // ---- The invariant -----------------------------------------------------------------------

  function PendingOf(s: State, p: Peer): Option<int> {
    if p in s.pending then Some(s.pending[p]) else None
  }

  // Nothing is sent or kept that was not asked for; the largest mark asked for was sent or
  // waits; requests are never more than the marks they stand for.
  ghost predicate PeerFits(s: State, p: Peer) {
    && (p in s.pending ==> p in s.inFlight && Mark(p, s.pending[p]) in s.asked)
    && s.open[p] == (if p in s.inFlight then 1 else 0)
    && Largest(s.asked, p) == Larger(Largest(s.sent, p), PendingOf(s, p))
    && Count(s.sent, p) + (if p in s.pending then 1 else 0) <= Count(s.asked, p)
  }

  ghost predicate Inv(s: State) {
    && (forall m :: m in s.sent ==> m in s.asked)
    && (forall p {:trigger PeerFits(s, p)} :: PeerFits(s, p))
  }

  lemma AskKeepsInv(s: State, m: Mark)
    requires Inv(s)
    ensures Inv(Ask(s, m))
  {
    var t := Ask(s, m);
    assert t.asked == s.asked + [m];
    forall p ensures PeerFits(t, p) {
      assert PeerFits(s, p);
      AskFits(s, m, p);
    }
  }

  lemma AskFits(s: State, m: Mark, p: Peer)
    requires PeerFits(s, p)
    ensures PeerFits(Ask(s, m), p)
  {
    if m.peer in s.inFlight { AskWaits(s, m, p); } else { AskSends(s, m, p); }
  }

  lemma AskWaits(s: State, m: Mark, p: Peer)
    requires PeerFits(s, p) && m.peer in s.inFlight
    ensures PeerFits(Ask(s, m), p)
  {
    var t := Ask(s, m);
    LargestMore(s.asked, m, p);
    CountMore(s.asked, m, p);
    assert t.asked == s.asked + [m] && t.sent == s.sent && t.inFlight == s.inFlight && t.open == s.open;
    if m.peer == p {
      assert t.pending == if p !in s.pending || s.pending[p] < m.upTo then s.pending[p := m.upTo] else s.pending;
      assert m in t.asked;
    } else {
      assert PendingOf(t, p) == PendingOf(s, p);
    }
  }

  lemma AskSends(s: State, m: Mark, p: Peer)
    requires PeerFits(s, p) && m.peer !in s.inFlight
    ensures PeerFits(Ask(s, m), p)
  {
    var t := Ask(s, m);
    LargestMore(s.asked, m, p);
    CountMore(s.asked, m, p);
    LargestMore(s.sent, m, p);
    CountMore(s.sent, m, p);
    assert t.asked == s.asked + [m] && t.sent == s.sent + [m] && t.pending == s.pending;
    assert t.open[p] == s.open[p] + if m.peer == p then 1 else 0;
    assert PendingOf(t, p) == PendingOf(s, p);
  }

  lemma FinishedKeepsInv(s: State, p: Peer)
    requires Inv(s) && p in s.inFlight
    ensures Inv(Finished(s, p))
  {
    var t := Finished(s, p);
    assert PeerFits(s, p);
    forall q ensures PeerFits(t, q) {
      assert PeerFits(s, q);
      FinishedFits(s, p, q);
    }
  }

  lemma FinishedFits(s: State, p: Peer, q: Peer)
    requires PeerFits(s, q) && PeerFits(s, p) && p in s.inFlight
    ensures PeerFits(Finished(s, p), q)
  {
    if p in s.pending {
      LargestMore(s.sent, Mark(p, s.pending[p]), q);
      CountMore(s.sent, Mark(p, s.pending[p]), q);
    }
  }

  // ---- Runs ----------------------------------------------------------------------------------

  datatype Step = Read(history: History) | Answered(peer: Peer)

  function Next(s: State, step: Step): State {
    match step
    case Read(h) => ReadForce(s, h)
    case Answered(p) => if p in s.inFlight then Finished(s, p) else s
  }

  function Run(steps: seq<Step>): State {
    if steps == [] then INITIAL else Next(Run(steps[..|steps| - 1]), steps[|steps| - 1])
  }

  lemma NextKeepsInv(s: State, step: Step)
    requires Inv(s)
    ensures Inv(Next(s, step))
  {
    match step
    case Read(h) =>
      if h.migrated.Some? {
        var m := Mark(h.migrated.value.peer, h.migrated.value.upTo);
        AskKeepsInv(s, m);
        AskKeepsInv(Ask(s, m), Mark(h.peer, h.upTo));
      }
      AskKeepsInv(s, Mark(h.peer, h.upTo));
    case Answered(p) => if p in s.inFlight { FinishedKeepsInv(s, p); }
  }

  lemma {:induction false} ReachableInv(steps: seq<Step>)
    ensures Inv(Run(steps))
  {
    if steps != [] {
      ReachableInv(steps[..|steps| - 1]);
      NextKeepsInv(Run(steps[..|steps| - 1]), steps[|steps| - 1]);
    }
  }

  // Main result, for every run: at most one request per peer is open, marks wait only
  // behind one, all that was sent was asked for, and with none open the largest mark
  // asked for was sent.
  lemma LargestMarkIsSent(steps: seq<Step>, p: Peer)
    ensures var s := Run(steps);
            && s.open[p] <= 1 && (p in s.pending ==> s.open[p] == 1)
            && (forall m :: m in s.sent ==> m in s.asked)
            && Count(s.sent, p) <= Count(s.asked, p)
            && (s.open[p] == 0 ==> Largest(s.asked, p) == Largest(s.sent, p))
  {
    ReachableInv(steps);
    assert PeerFits(Run(steps), p);
  }

  // ---- What reading a history asks for -------------------------------------------------------

  // Reading `h` wants mark `m`: the one of the history itself, or of the chat it was migrated
  // from if that is unread. Histories without messages and channels one is not in want none.
  predicate Wants(h: History, m: Mark) {
    && h.upTo != 0 && (h.isChannel ==> h.amIn)
    && (m == Mark(h.peer, h.upTo)
        || (h.isChannel && h.migrated == Some(Migrated(m.peer, true, m.upTo)) && m.upTo != 0))
  }

  ghost predicate Wanted(steps: seq<Step>, m: Mark) {
    exists i :: 0 <= i < |steps| && steps[i].Read? && Wants(steps[i].history, m)
  }

  lemma SentLogs(s: State, m: Mark, n: Mark)
    ensures n in Ask(s, m).asked <==> n in s.asked || n == m
  {
  }

  lemma ReadAsks(s: State, h: History, m: Mark)
    ensures m in ReadForce(s, h).asked <==> m in s.asked || Wants(h, m)
  {
    if h.migrated.Some? {
      var first := Mark(h.migrated.value.peer, h.migrated.value.upTo);
      SentLogs(s, first, m);
      SentLogs(Ask(s, first), Mark(h.peer, h.upTo), m);
    }
    SentLogs(s, Mark(h.peer, h.upTo), m);
  }

  // Exactly the marks that the histories read want are asked for.
  lemma {:induction false} AskedIffWanted(steps: seq<Step>, m: Mark)
    ensures m in Run(steps).asked <==> Wanted(steps, m)
  {
    if steps != [] {
      var front, step := steps[..|steps| - 1], steps[|steps| - 1];
      AskedIffWanted(front, m);
      assert Wanted(steps, m) <==> Wanted(front, m) || (step.Read? && Wants(step.history, m)) by {
        if i :| 0 <= i < |front| && front[i].Read? && Wants(front[i].history, m) { assert steps[i] == front[i]; }
        if i :| 0 <= i < |steps| && steps[i].Read? && Wants(steps[i].history, m) {
          if i < |front| { assert steps[i] == front[i]; }
        }
      }
      if step.Read? { ReadAsks(Run(front), step.history, m); }
    }
  }

  // Main result, for every run: nothing is sent that no history read wants; and with no
  // request of a peer open, a mark as large as each one wanted for it was sent.
  lemma EveryReadArrives(steps: seq<Step>, p: Peer)
    ensures forall m :: m in Run(steps).sent ==> Wanted(steps, m)
    ensures Run(steps).open[p] == 0 ==>
              forall m :: Wanted(steps, m) && m.peer == p ==>
                exists n :: n in Run(steps).sent && n.peer == p && m.upTo <= n.upTo
  {
    var s := Run(steps);
    LargestMarkIsSent(steps, p);
    forall m | m in s.sent ensures Wanted(steps, m) { AskedIffWanted(steps, m); }
    if s.open[p] == 0 {
      forall m | Wanted(steps, m) && m.peer == p ensures exists n :: n in s.sent && n.peer == p && m.upTo <= n.upTo {
        AskedIffWanted(steps, m);
        LargestMeans(s.asked, p);
        LargestMeans(s.sent, p);
        assert Mark(p, Largest(s.sent, p).value) in s.sent;
      }
    }
  }

  // ---- The class -------------------------------------------------------------------------------

  class ApiWrap {
    var readRequests: map<Peer, int>
    var readRequestsPending: map<Peer, int>
    var asked: seq<Mark>
    var sent: seq<Mark>
    var open: multiset<Peer>

    constructor ()
      ensures View() == INITIAL
    {
      readRequests, readRequestsPending, asked, sent, open := map[], map[], [], [], multiset{};
    }

    function View(): State
      reads this
    {
      State(readRequests, readRequestsPending, asked, sent, open)
    }

    method ReadServerHistoryForce(h: History)
      modifies this
      ensures View() == ReadForce(old(View()), h)
    {
      if h.upTo == 0 { return; }
      if h.isChannel {
        if !h.amIn { return; }
        if h.migrated.Some? && h.migrated.value.unread && h.migrated.value.upTo != 0 {
          AskForRead(Mark(h.migrated.value.peer, h.migrated.value.upTo));
        }
      }
      AskForRead(Mark(h.peer, h.upTo));
    }

    method AskForRead(m: Mark)
      modifies this
      ensures View() == Ask(old(View()), m)
    {
      asked := asked + [m];
      if m.peer in readRequests {
        if m.peer !in readRequestsPending {
          readRequestsPending := readRequestsPending[m.peer := m.upTo];
        } else if readRequestsPending[m.peer] < m.upTo {
          readRequestsPending := readRequestsPending[m.peer := m.upTo];
        }
      } else {
        SendReadRequest(m);
      }
    }

    method SendReadRequest(m: Mark)
      modifies this
      ensures View() == Send(old(View()), m)
    {
      sent := sent + [m];
      open := open + multiset{m.peer};
      if m.peer !in readRequests {
        readRequests := readRequests[m.peer := m.upTo];
      }
    }

    method ReadRequestFinished(p: Peer)
      requires p in readRequests
      modifies this
      ensures View() == Finished(old(View()), p)
    {
      ghost var s := View();
      open := open - multiset{p};
      readRequests := readRequests - {p};
      if p in readRequestsPending {
        var next := readRequestsPending[p];
        readRequestsPending := readRequestsPending - {p};
        assert View() == Removed(s, p);
        SendReadRequest(Mark(p, next));
      } else {
        AbsentStays(readRequestsPending, p);
        assert View() == Removed(s, p);
      }
    }
  }

  lemma AbsentStays(m: map<Peer, int>, p: Peer)
    requires p !in m
    ensures m - {p} == m
  {
    assert forall q :: q in m - {p} <==> q in m;
  }
}
