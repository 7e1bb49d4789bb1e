// The event queues of the observables and the two registries through which
// queued events reach their handlers. What happens to the subscription list
// while one event goes round is the matter of ObserverList; here an observable
// has a number of subscribers.
module ObserverQueue {

  type Id = nat

  // One life of an observable's data. `posted` and `handled` are its history,
  // `batch` what is left of the events taken out for handling.
  datatype Data = Data(gen: nat, subscribers: nat, events: seq<int>, handling: bool,
                       batch: seq<int>, posted: seq<int>, handled: seq<int>)

  datatype Action = Post(id: Id, event: int, sync: bool) | Subscribe(id: Id) | Unsubscribe(id: Id)

  // An event handed out to the subscribers of one life of an observable.
  datatype Handed = Handed(id: Id, gen: nat, event: int)

  // `ran` are the actions of the handlers, noted as they are taken, and `out` the events
  // handed out; both outlive the observables.
  datatype State = State(
    data: map<Id, Data>, pending: set<Id>, active: set<Id>, nextGen: nat,
    ran: seq<Action>, out: seq<Handed>)

  function Handling(s: State): set<Id> {
    set x | x in s.data && s.data[x].handling
  }

  // Every event is somewhere between posting and handling, in order.
  ghost predicate History(s: State, x: Id)
    requires x in s.data
  {
    var d := s.data[x];
    && d.posted == d.handled + d.batch + d.events
    && (!d.handling ==> d.batch == [] && d.subscribers > 0)
    && d.gen < s.nextGen
  }

  // Queued events can be reached from a registry.
  ghost predicate Registered(s: State, x: Id)
    requires x in s.data
  {
    s.data[x].events != [] ==> x in s.pending || (x in s.active && !s.data[x].handling)
  }

  // Valid, except perhaps that the events of `x` are not registered.
  ghost predicate ValidBut(s: State, x: Id) {
    && (forall y :: y in s.data ==> History(s, y) && (y != x ==> Registered(s, y)))
    && s.pending <= s.data.Keys && s.active <= s.data.Keys
  }

  ghost predicate Valid(s: State) {
    && (forall y :: y in s.data ==> History(s, y) && Registered(s, y))
    && s.pending <= s.data.Keys && s.active <= s.data.Keys
  }

  // The same life of the same observable in both states.
  predicate Same(s: State, t: State, x: Id) {
    x in s.data && x in t.data && s.data[x].gen == t.data[x].gen
  }

  ghost predicate DataProgress(s: State, t: State, x: Id)
    requires Same(s, t, x)
  {
    var d, e := s.data[x], t.data[x];
    && d.posted <= e.posted && d.handled <= e.handled && d.handling == e.handling
    && (d.handling ==> e.handled == d.handled && e.batch == d.batch)
    && (!d.handling && x in s.active && x !in t.active ==> d.posted <= e.handled)
  }

  // From `s` to `t` handlers only ever move forward: what was posted stays
  // posted, what is being handled further up the stack is left alone, and
  // whoever left the active registry has had everything handled.
  ghost predicate Progress(s: State, t: State) {
    && s.nextGen <= t.nextGen && t.active <= s.active
    && (forall x :: x in t.data && t.data[x].gen < s.nextGen ==> Same(s, t, x))
    && (forall x :: Same(s, t, x) ==> DataProgress(s, t, x))
    && (forall x :: x in s.data && s.data[x].handling ==> Same(s, t, x))
    && Handling(t) == Handling(s)
  }

  lemma ProgressTransitive(s: State, t: State, u: State)
    requires Progress(s, t) && Progress(t, u) && forall x :: x in s.data ==> s.data[x].gen < s.nextGen
    ensures Progress(s, u)
  {
    forall x | Same(s, u, x) ensures DataProgress(s, u, x) {
      assert u.data[x].gen < t.nextGen;
      assert Same(t, u, x) && Same(s, t, x);
      assert DataProgress(s, t, x) && DataProgress(t, u, x);
      var d, e, f := s.data[x], t.data[x], u.data[x];
      if !d.handling && x in s.active && x !in u.active && x in t.active {
        assert d.posted <= e.posted <= f.handled;
      }
    }
    forall x | x in u.data && u.data[x].gen < s.nextGen ensures Same(s, u, x) {
      assert Same(t, u, x);
      assert Same(s, t, x);
    }
    forall x | x in s.data && s.data[x].handling ensures Same(s, u, x) {
      assert Same(s, t, x) && DataProgress(s, t, x);
      assert Same(t, u, x);
    }
  }

  // ---- The single steps ---------------------------------------------------------

  function Queue(s: State, x: Id, event: int): State
    requires x in s.data
  {
    var d := s.data[x];
    s.(data := s.data[x := d.(events := d.events + [event], posted := d.posted + [event])])
  }

  function Enqueue(s: State, x: Id, event: int): State
    requires x in s.data
  {
    var t := if s.data[x].events == [] then s.(pending := s.pending + {x}) else s;
    Queue(t, x, event)
  }

  function Destroy(s: State, x: Id): State {
    s.(data := s.data - {x}, pending := s.pending - {x}, active := s.active - {x})
  }

  function Join(s: State, x: Id): State {
    if x in s.data then
      s.(data := s.data[x := s.data[x].(subscribers := s.data[x].subscribers + 1)])
    else
      s.(data := s.data[x := Data(s.nextGen, 1, [], false, [], [], [])], nextGen := s.nextGen + 1)
  }

  // The last one to leave destroys the data, unless an event is going round: then
  // that is left to whoever sent it round.
  function Leave(s: State, x: Id): State {
    if x !in s.data || s.data[x].subscribers == 0 then s
    else if s.data[x].subscribers == 1 && !s.data[x].handling then Destroy(s, x)
    else s.(data := s.data[x := s.data[x].(subscribers := s.data[x].subscribers - 1)])
  }

  function Take(s: State, x: Id): State
    requires x in s.data
  {
    var d := s.data[x];
    s.(data := s.data[x := d.(handling := true, batch := d.events, events := [])])
  }

  function Advance(s: State, x: Id): State
    requires x in s.data && s.data[x].batch != []
  {
    var d := s.data[x];
    s.(data := s.data[x := d.(batch := d.batch[1..], handled := d.handled + [d.batch[0]])],
       out := s.out + [Handed(x, d.gen, d.batch[0])])
  }

  function Finish(s: State, x: Id): State
    requires x in s.data
  {
    s.(data := s.data[x := s.data[x].(handling := false)], active := s.active - {x})
  }

  // Changing the data of one observable without touching its life or the active registry.
  lemma ReplaceProgress(s: State, t: State, x: Id)
    requires x in s.data && x in t.data && t.data == s.data[x := t.data[x]]
    requires t.nextGen == s.nextGen && t.active == s.active && Same(s, t, x) && DataProgress(s, t, x)
    ensures Progress(s, t)
  {
    forall y | Same(s, t, y) ensures DataProgress(s, t, y) {
      if y != x { assert t.data[y] == s.data[y]; }
    }
    assert Handling(t) == Handling(s);
  }

  lemma ReplaceValid(s: State, t: State, x: Id)
    requires ValidBut(s, x) && x in s.data && x in t.data && t.data == s.data[x := t.data[x]]
    requires t.nextGen == s.nextGen && t.active == s.active && s.pending <= t.pending <= s.pending + {x}
    requires History(t, x)
    ensures ValidBut(t, x) && (Registered(t, x) ==> Valid(t))
  {
    forall y | y in t.data && y != x ensures History(t, y) && Registered(t, y) {
      assert t.data[y] == s.data[y] && History(s, y) && Registered(s, y);
    }
  }

  lemma JoinStep(s: State, x: Id)
    requires Valid(s)
    ensures Valid(Join(s, x)) && Progress(s, Join(s, x))
  {
    var t := Join(s, x);
    if x in s.data {
      ReplaceProgress(s, t, x);
      ReplaceValid(s, t, x);
    } else {
      forall y | y in s.data ensures History(t, y) && Registered(t, y) {
        assert History(s, y) && Registered(s, y);
      }
      assert Handling(t) == Handling(s);
    }
  }

  lemma DestroyStep(s: State, x: Id)
    requires ValidBut(s, x) && x in s.data
    ensures Valid(Destroy(s, x))
    ensures !s.data[x].handling ==> Progress(s, Destroy(s, x))
  {
    var t := Destroy(s, x);
    forall y | y in t.data ensures History(t, y) && Registered(t, y) {
      assert History(s, y) && Registered(s, y);
    }
    if !s.data[x].handling { assert Handling(t) == Handling(s); }
  }

  lemma LeaveStep(s: State, x: Id)
    requires Valid(s)
    ensures Valid(Leave(s, x)) && Progress(s, Leave(s, x))
  {
    var t := Leave(s, x);
    if x in s.data {
      if s.data[x].subscribers == 1 && !s.data[x].handling {
        DestroyStep(s, x);
      } else {
        assert History(s, x) && Registered(s, x);
        assert Same(s, t, x) && DataProgress(s, t, x);
        ReplaceProgress(s, t, x);
        ReplaceValid(s, t, x);
      }
    }
  }

  lemma QueueStep(s: State, x: Id, event: int)
    requires Valid(s) && x in s.data
    ensures ValidBut(Queue(s, x, event), x) && Progress(s, Queue(s, x, event))
  {
    var t := Queue(s, x, event);
    var d := s.data[x];
    assert History(s, x);
    assert d.handled + d.batch + (d.events + [event]) == (d.handled + d.batch + d.events) + [event];
    ReplaceProgress(s, t, x);
    ReplaceValid(s, t, x);
  }

  lemma PostStep(s: State, x: Id, event: int)
    requires Valid(s) && x in s.data
    ensures Valid(Enqueue(s, x, event)) && Progress(s, Enqueue(s, x, event))
  {
    QueueStep(s, x, event);
    var q, t := Queue(s, x, event), Enqueue(s, x, event);
    assert t.data == q.data;
    assert Registered(s, x);
    ReplaceValid(q, t, x);
    assert DataProgress(s, q, x);
    ReplaceProgress(s, t, x);
  }

  // ---- Who is subscribed, and what was handed out ---------------------------------------

  // The subscribers of `x` by what the handlers did.
  function Balance(ran: seq<Action>, x: Id): nat {
    if ran == [] then 0
    else
      var before := Balance(ran[..|ran| - 1], x);
      match ran[|ran| - 1]
      case Subscribe(y) => if y == x then before + 1 else before
      case Unsubscribe(y) => if y == x && before > 0 then before - 1 else before
      case Post(_, _, _) => before
  }

  // The events handed out to one life of `x`.
  function HandedTo(out: seq<Handed>, x: Id, gen: nat): seq<int> {
    if out == [] then []
    else
      var h := out[|out| - 1];
      HandedTo(out[..|out| - 1], x, gen) + if h.id == x && h.gen == gen then [h.event] else []
  }

  // The subscribers are those who subscribed and did not leave; who has none is gone; and
  // what counts as handled was handed out.
  ghost predicate Kept(s: State) {
    && (forall x {:trigger Balance(s.ran, x)} ::
          Balance(s.ran, x) == if x in s.data then s.data[x].subscribers else 0)
    && (forall x :: x in s.data ==> s.data[x].gen < s.nextGen && HandedTo(s.out, x, s.data[x].gen) == s.data[x].handled)
    && (forall h :: h in s.out ==> h.gen < s.nextGen)
  }

  // Between two points of the history there was always a subscriber.
  ghost predicate AlwaysSubscribed(before: seq<Action>, after: seq<Action>, x: Id) {
    before <= after && forall n {:trigger after[..n]} :: |before| <= n <= |after| ==> Balance(after[..n], x) > 0
  }

  // An observable lives on from `s` to `t` as long as it has subscribers.
  ghost predicate Lasts(s: State, t: State) {
    && s.ran <= t.ran && s.out <= t.out
    && forall x :: x in s.data && AlwaysSubscribed(s.ran, t.ran, x) ==> Same(s, t, x)
  }

  function Noted(s: State, a: Action): State {
    s.(ran := s.ran + [a])
  }

  lemma OneMoreAction(ran: seq<Action>, a: Action, x: Id)
    ensures Balance(ran + [a], x) ==
            var before := Balance(ran, x);
            match a {
              case Subscribe(y) => if y == x then before + 1 else before
              case Unsubscribe(y) => if y == x && before > 0 then before - 1 else before
              case Post(_, _, _) => before
            }
  {
    assert (ran + [a])[..|ran|] == ran;
  }

  lemma OneMoreHanded(out: seq<Handed>, h: Handed, x: Id, gen: nat)
    ensures HandedTo(out + [h], x, gen) == HandedTo(out, x, gen) + if h.id == x && h.gen == gen then [h.event] else []
  {
    assert (out + [h])[..|out|] == out;
  }

  lemma {:induction false} NothingHanded(out: seq<Handed>, x: Id, gen: nat)
    requires forall h :: h in out ==> h.gen < gen
    ensures HandedTo(out, x, gen) == []
  {
    if out != [] {
      assert out[|out| - 1] in out;
      NothingHanded(out[..|out| - 1], x, gen);
    }
  }

  lemma LastsItself(s: State)
    ensures Lasts(s, s)
  {
  }

  lemma LastsOn(s: State, t: State, u: State)
    requires Lasts(s, t) && Lasts(t, u)
    ensures Lasts(s, u)
  {
    forall x | x in s.data && AlwaysSubscribed(s.ran, u.ran, x) ensures Same(s, u, x) {
      assert forall n {:trigger t.ran[..n]} :: 0 <= n <= |t.ran| ==> t.ran[..n] == u.ran[..n];
      assert AlwaysSubscribed(s.ran, t.ran, x) && AlwaysSubscribed(t.ran, u.ran, x);
    }
  }

  // Without a subscriber at the end there was not always one.
  lemma NobodyLeft(before: seq<Action>, after: seq<Action>, x: Id)
    requires Balance(after, x) == 0
    ensures !AlwaysSubscribed(before, after, x)
  {
    assert after[..|after|] == after;
  }

  // An observable with a subscriber is there, and one at rest has one.
  lemma AliveIff(s: State, x: Id)
    requires Valid(s) && Kept(s) && x !in Handling(s)
    ensures x in s.data <==> Balance(s.ran, x) > 0
  {
    if x in s.data { assert History(s, x); }
  }

  // Changes of one observable that concern neither its subscribers nor what was handled.
  lemma ReplaceKept(s: State, t: State, x: Id)
    requires Kept(s) && x in s.data && x in t.data && t.data == s.data[x := t.data[x]]
    requires t.data[x].gen == s.data[x].gen && t.data[x].subscribers == s.data[x].subscribers
    requires t.data[x].handled == s.data[x].handled
    requires t.nextGen == s.nextGen && t.ran == s.ran && t.out == s.out
    ensures Kept(t) && Lasts(s, t)
  {
    forall y ensures Balance(t.ran, y) == if y in t.data then t.data[y].subscribers else 0 {
      assert Balance(s.ran, y) == if y in s.data then s.data[y].subscribers else 0;
    }
  }

  lemma JoinKept(s: State, x: Id)
    requires Kept(s)
    ensures var t := Join(Noted(s, Subscribe(x)), x); Kept(t) && Lasts(s, t)
  {
    var t := Join(Noted(s, Subscribe(x)), x);
    forall y ensures Balance(t.ran, y) == if y in t.data then t.data[y].subscribers else 0 {
      OneMoreAction(s.ran, Subscribe(x), y);
      assert Balance(s.ran, y) == if y in s.data then s.data[y].subscribers else 0;
    }
    NothingHanded(s.out, x, s.nextGen);
  }

  lemma LeaveKept(s: State, x: Id)
    requires Kept(s)
    ensures var t := Leave(Noted(s, Unsubscribe(x)), x); Kept(t) && Lasts(s, t)
  {
    LeaveCounts(s, x);
    LeaveLasts(s, x);
  }

  lemma LeaveCounts(s: State, x: Id)
    requires Kept(s)
    ensures Kept(Leave(Noted(s, Unsubscribe(x)), x))
  {
    var t := Leave(Noted(s, Unsubscribe(x)), x);
    forall y ensures Balance(t.ran, y) == if y in t.data then t.data[y].subscribers else 0 {
      LeaveBalances(s, x, y);
    }
    forall y | y in t.data
      ensures t.data[y].gen < t.nextGen && HandedTo(t.out, y, t.data[y].gen) == t.data[y].handled
    {
      assert t.data[y].gen == s.data[y].gen && t.data[y].handled == s.data[y].handled;
    }
  }

  lemma LeaveLasts(s: State, x: Id)
    requires Kept(s)
    ensures Lasts(s, Leave(Noted(s, Unsubscribe(x)), x))
  {
    var t := Leave(Noted(s, Unsubscribe(x)), x);
    LeaveBalances(s, x, x);
    if x !in t.data { NobodyLeft(s.ran, t.ran, x); }
  }

  lemma LeaveBalances(s: State, x: Id, y: Id)
    requires Kept(s)
    ensures var t := Leave(Noted(s, Unsubscribe(x)), x);
            Balance(t.ran, y) == if y in t.data then t.data[y].subscribers else 0
  {
    OneMoreAction(s.ran, Unsubscribe(x), y);
    assert Balance(s.ran, y) == if y in s.data then s.data[y].subscribers else 0;
  }

  lemma PostKept(s: State, a: Action)
    requires Kept(s) && a.Post?
    ensures Kept(Noted(s, a)) && Lasts(s, Noted(s, a))
  {
    var t := Noted(s, a);
    forall y ensures Balance(t.ran, y) == if y in t.data then t.data[y].subscribers else 0 {
      OneMoreAction(s.ran, a, y);
      assert Balance(s.ran, y) == if y in s.data then s.data[y].subscribers else 0;
    }
  }

  lemma AdvanceKept(s: State, x: Id)
    requires Kept(s) && x in s.data && s.data[x].batch != []
    ensures Kept(Advance(s, x)) && Lasts(s, Advance(s, x))
  {
    var t := Advance(s, x);
    forall y ensures Balance(t.ran, y) == if y in t.data then t.data[y].subscribers else 0 {
      assert Balance(s.ran, y) == if y in s.data then s.data[y].subscribers else 0;
    }
    forall y | y in t.data ensures HandedTo(t.out, y, t.data[y].gen) == t.data[y].handled {
      AdvanceHands(s, x, y);
    }
  }

  lemma AdvanceHands(s: State, x: Id, y: Id)
    requires Kept(s) && x in s.data && s.data[x].batch != [] && y in s.data
    ensures var t := Advance(s, x); HandedTo(t.out, y, t.data[y].gen) == t.data[y].handled
  {
    OneMoreHanded(s.out, Handed(x, s.data[x].gen, s.data[x].batch[0]), y, s.data[y].gen);
  }

  // The data goes with its last subscriber.
  lemma DestroyKept(s: State, x: Id)
    requires Kept(s) && x in s.data && s.data[x].subscribers == 0
    ensures Kept(Destroy(s, x)) && Lasts(s, Destroy(s, x))
  {
    var t := Destroy(s, x);
    forall y ensures Balance(t.ran, y) == if y in t.data then t.data[y].subscribers else 0 {
      assert Balance(s.ran, y) == if y in s.data then s.data[y].subscribers else 0;
    }
    assert Balance(s.ran, x) == 0;
    NobodyLeft(s.ran, t.ran, x);
  }

  // ---- What the handlers do -----------------------------------------------------------

  type Script = nat -> seq<Action>

  // What the handlers do for the events handed out from number `from` up to `upTo`.
  function Called(script: Script, from: nat, upTo: nat): multiset<Action>
    decreases upTo
  {
    if upTo <= from then multiset{} else Called(script, from, upTo - 1) + multiset(script(upTo - 1))
  }

  lemma {:induction false} CalledOn(script: Script, from: nat, mid: nat, upTo: nat)
    requires from <= mid <= upTo
    ensures Called(script, from, upTo) == Called(script, from, mid) + Called(script, mid, upTo)
    decreases upTo
  {
    if upTo > mid { CalledOn(script, from, mid, upTo - 1); }
  }

  // From `s` to `t` the actions taken were `acts` and those of the handlers called.
  ghost predicate Executed(s: State, t: State, acts: seq<Action>, script: Script) {
    && |s.out| <= |t.out|
    && multiset(t.ran) == multiset(s.ran) + multiset(acts) + Called(script, |s.out|, |t.out|)
  }

  lemma ExecutedNothing(s: State, t: State, script: Script)
    requires t.ran == s.ran && t.out == s.out
    ensures Executed(s, t, [], script)
  {
  }

  lemma ExecutedOn(
      s: State, t: State, u: State, some: seq<Action>, more: seq<Action>, acts: seq<Action>, script: Script)
    requires Executed(s, t, some, script) && Executed(t, u, more, script)
    requires multiset(acts) == multiset(some) + multiset(more)
    ensures Executed(s, u, acts, script)
  {
    CalledOn(script, |s.out|, |t.out|, |u.out|);
  }

  lemma ExecutedFirst(acts: seq<Action>)
    requires acts != []
    ensures multiset(acts) == multiset([acts[0]]) + multiset(acts[1..])
  {
    assert acts == [acts[0]] + acts[1..];
  }

  lemma ExecutedNoted(s: State, t: State, a: Action, script: Script)
    requires t.ran == s.ran + [a] && t.out == s.out
    ensures Executed(s, t, [a], script)
  {
  }

  // An event is handed out and its handlers are called.
  lemma ExecutedHanded(s: State, t: State, u: State, script: Script)
    requires t.ran == s.ran && |t.out| == |s.out| + 1 && Executed(t, u, script(|s.out|), script)
    ensures Executed(s, u, [], script)
  {
    var k := |s.out|;
    CalledOn(script, k, k + 1, |u.out|);
    assert Called(script, k, k + 1) == Called(script, k, k) + multiset(script(k));
  }

  // ---- An action is noted before it is taken -------------------------------------------

  lemma NotedValid(s: State, a: Action)
    requires Valid(s)
    ensures Valid(Noted(s, a))
  {
    var t := Noted(s, a);
    forall y | y in t.data ensures History(t, y) && Registered(t, y) {
      assert History(s, y) && Registered(s, y);
    }
  }

  lemma NotedProgress(s: State, a: Action, u: State)
    requires Progress(Noted(s, a), u)
    ensures Progress(s, u)
  {
    var t := Noted(s, a);
    forall x | Same(s, u, x) ensures DataProgress(s, u, x) {
      assert Same(t, u, x) && DataProgress(t, u, x);
    }
    forall x | x in u.data && u.data[x].gen < s.nextGen ensures Same(s, u, x) { assert Same(t, u, x); }
    forall x | x in s.data && s.data[x].handling ensures Same(s, u, x) { assert Same(t, u, x); }
    assert Handling(s) == Handling(t);
  }

  lemma JoinNoted(s: State, x: Id, script: Script)
    requires Valid(s) && Kept(s)
    ensures var a := Subscribe(x);
            var t := Join(Noted(s, a), x);
            Valid(t) && Progress(s, t) && Kept(t) && Lasts(s, t) && Executed(s, t, [a], script)
  {
    var a := Subscribe(x);
    NotedValid(s, a);
    JoinStep(Noted(s, a), x);
    NotedProgress(s, a, Join(Noted(s, a), x));
    JoinKept(s, x);
    ExecutedNoted(s, Join(Noted(s, a), x), a, script);
  }

  lemma LeaveNoted(s: State, x: Id, script: Script)
    requires Valid(s) && Kept(s)
    ensures var a := Unsubscribe(x);
            var t := Leave(Noted(s, a), x);
            Valid(t) && Progress(s, t) && Kept(t) && Lasts(s, t) && Executed(s, t, [a], script)
  {
    var a := Unsubscribe(x);
    NotedValid(s, a);
    LeaveStep(Noted(s, a), x);
    NotedProgress(s, a, Leave(Noted(s, a), x));
    LeaveKept(s, x);
    ExecutedNoted(s, Leave(Noted(s, a), x), a, script);
  }

  // ---- While the events of `x` go round -------------------------------------------

  // `t` is reached from `s` in the middle of handling the events `x` had in `s`.
  ghost predicate Under(s: State, t: State, x: Id) {
    && Same(s, t, x) && !s.data[x].handling && t.data[x].handling
    && s.data[x].posted <= t.data[x].posted && s.data[x].handled <= t.data[x].handled
    && t.data[x].handled + t.data[x].batch == s.data[x].posted
    && s.nextGen <= t.nextGen && t.active <= s.active
    && (forall y :: y in t.data && t.data[y].gen < s.nextGen ==> Same(s, t, y))
    && (forall y :: y != x && Same(s, t, y) ==> DataProgress(s, t, y))
    && (forall y :: y in s.data && s.data[y].handling ==> Same(s, t, y))
    && Handling(t) == Handling(s) + {x}
  }

  lemma TakeUnder(s: State, x: Id)
    requires ValidBut(s, x) && x in s.data && !s.data[x].handling
    ensures Valid(Take(s, x)) && Under(s, Take(s, x), x)
  {
    var t := Take(s, x);
    assert History(s, x);
    ReplaceValid(s, t, x);
    assert s.data[x].handled + [] + s.data[x].events == s.data[x].handled + s.data[x].events;
    assert Handling(t) == Handling(s) + {x};
  }

  lemma AdvanceUnder(s: State, t: State, x: Id)
    requires Valid(t) && Under(s, t, x) && t.data[x].batch != []
    ensures Valid(Advance(t, x)) && Under(s, Advance(t, x), x)
  {
    var u := Advance(t, x);
    var d := t.data[x];
    assert History(t, x) && Registered(t, x);
    assert d.handled + [d.batch[0]] + d.batch[1..] == d.handled + d.batch;
    ReplaceValid(t, u, x);
    assert Handling(u) == Handling(t);
    forall y | y != x && Same(s, u, y) ensures DataProgress(s, u, y) {
      assert Same(s, t, y) && DataProgress(s, t, y);
    }
    forall y | y in s.data && s.data[y].handling ensures Same(s, u, y) { assert Same(s, t, y); }
    forall y | y in u.data && u.data[y].gen < s.nextGen ensures Same(s, u, y) { assert Same(s, t, y); }
  }

  lemma NestedUnder(s: State, t: State, u: State, x: Id)
    requires Valid(t) && Under(s, t, x) && Progress(t, u)
    requires forall y :: y in s.data ==> s.data[y].gen < s.nextGen
    ensures Under(s, u, x)
  {
    assert Same(t, u, x) && DataProgress(t, u, x);
    forall y | y in u.data && u.data[y].gen < s.nextGen ensures Same(s, u, y) {
      assert Same(t, u, y);
      assert Same(s, t, y);
    }
    forall y | y != x && Same(s, u, y) ensures DataProgress(s, u, y) {
      assert u.data[y].gen < t.nextGen;
      assert Same(t, u, y) && Same(s, t, y);
      assert DataProgress(s, t, y) && DataProgress(t, u, y);
      if y in s.active && y !in u.active && y in t.active && !s.data[y].handling {
        assert s.data[y].posted <= t.data[y].posted <= u.data[y].handled;
      }
    }
    forall y | y in s.data && s.data[y].handling ensures Same(s, u, y) {
      assert Same(s, t, y) && DataProgress(s, t, y);
      assert Same(t, u, y);
    }
  }

  // Back to the caller: the data is released, or everything it had is handled.
  lemma FinishUnder(s: State, t: State, x: Id)
    requires Valid(t) && Under(s, t, x) && t.data[x].batch == [] && t.data[x].subscribers > 0
    ensures var u := Finish(t, x);
            Valid(u) && Progress(s, u) && u.data[x].handled == s.data[x].posted && x !in u.active
  {
    var u := Finish(t, x);
    assert History(t, x) && Registered(t, x);
    forall y | y in u.data ensures History(u, y) && Registered(u, y) {
      assert History(t, y) && Registered(t, y);
    }
    forall y | Same(s, u, y) ensures DataProgress(s, u, y) {
      if y != x { assert Same(s, t, y) && DataProgress(s, t, y); }
    }
    forall y | y in s.data && s.data[y].handling ensures Same(s, u, y) { assert Same(s, t, y); }
    forall y | y in u.data && u.data[y].gen < s.nextGen ensures Same(s, u, y) { assert Same(s, t, y); }
    assert Handling(u) == Handling(t) - {x};
  }

  lemma DestroyUnder(s: State, t: State, x: Id)
    requires Valid(t) && Under(s, t, x)
    ensures Valid(Destroy(t, x)) && Progress(s, Destroy(t, x))
  {
    var u := Destroy(t, x);
    DestroyStep(t, x);
    forall y | Same(s, u, y) ensures DataProgress(s, u, y) {
      assert y != x && Same(s, t, y) && DataProgress(s, t, y);
    }
    forall y | y in s.data && s.data[y].handling ensures Same(s, u, y) { assert Same(s, t, y); }
    forall y | y in u.data && u.data[y].gen < s.nextGen ensures Same(s, u, y) { assert Same(s, t, y); }
    assert Handling(u) == Handling(t) - {x};
  }

  // ---- The code ---------------------------------------------------------------------

  class Observables {
    const script: Script  // what all handlers together do for the k-th event handled
    const universe: set<Id>
    var data: map<Id, Data>
    var pending: set<Id>
    var active: set<Id>
    var nextGen: nat
    var ran: seq<Action>
    var out: seq<Handed>

    ghost predicate Closed() {
      forall k, i {:trigger script(k)[i]} :: 0 <= i < |script(k)| ==> script(k)[i].id in universe
    }

    function View(): State
      reads this
    {
      State(data, pending, active, nextGen, ran, out)
    }

    // The observables that could still start handling below the present point of the stack.
    ghost function Idle(): set<Id>
      reads this
    {
      universe - Handling(View())
    }

    constructor (script: Script, universe: set<Id>)
      ensures Valid(View()) && Kept(View()) && View() == State(map[], {}, {}, 0, [], [])
      ensures this.script == script && this.universe == universe
    {
      this.script, this.universe := script, universe;
      data, pending, active, nextGen, ran, out := map[], {}, {}, 0, [], [];
    }

    // Everything that happened since `s` is accounted for: nobody with subscribers is gone,
    // and the actions taken were `acts` and those of the handlers called.
    ghost predicate Accounted(s: State, acts: seq<Action>)
      reads this
    {
      Kept(View()) && Lasts(s, View()) && Executed(s, View(), acts, script)
    }

    method Notify(x: Id, event: int, sync0: bool)
      requires Valid(View()) && Kept(View()) && Closed() && data.Keys <= universe
      modifies this
      ensures Accounted(old(View()), [])
      ensures Valid(View()) && Progress(old(View()), View()) && data.Keys <= universe
      ensures x !in old(data) ==> View() == old(View())
      ensures x in old(data) && (!sync0 || old(data[x].handling)) ==>
                && View() == Enqueue(old(View()), x, event) && x in data
                && data[x].events == old(data[x].events) + [event] && data[x].posted == old(data[x].posted) + [event]
      ensures x in old(data) && sync0 && !old(data[x].handling) && Same(old(View()), View(), x) ==>
                data[x].handled == old(data[x].posted) + [event]
      decreases Idle(), 1, 0
    {
      ghost var before := View();
      LastsItself(before);
      ExecutedNothing(before, before, script);
      if x !in data { return; }
      var sync := sync0;
      if data[x].handling { sync := false; }
      ghost var queued := Queue(before, x, event);
      ReplaceKept(before, queued, x);
      if sync {
        QueueStep(before, x, event);
        Push(x, event);
        CallHandlers(x);
        ProgressTransitive(before, queued, View());
        AccountedOn(before, queued);
      } else {
        PostStep(before, x, event);
        if data[x].events == [] { pending := pending + {x}; }
        Push(x, event);
        ReplaceKept(before, View(), x);
        ExecutedNothing(before, View(), script);
      }
    }

    // Nothing was taken or handed out between `s` and `t`.
    ghost method AccountedOn(s: State, t: State)
      requires Lasts(s, t) && t.ran == s.ran && t.out == s.out && Accounted(t, [])
      ensures Accounted(s, [])
    {
      LastsOn(s, t, View());
      ExecutedNothing(s, t, script);
      ExecutedOn(s, t, View(), [], [], [], script);
    }

    method Push(x: Id, event: int)
      requires x in data
      modifies `data
      ensures View() == Queue(old(View()), x, event)
    {
      var d := data[x];
      data := data[x := d.(events := d.events + [event], posted := d.posted + [event])];
    }

    method CallHandlers(x: Id)
      requires ValidBut(View(), x) && Kept(View()) && Closed() && data.Keys <= universe
      requires x in data && !data[x].handling
      modifies this
      ensures Accounted(old(View()), [])
      ensures Valid(View()) && Progress(old(View()), View()) && data.Keys <= universe
      ensures Same(old(View()), View(), x) ==> data[x].handled == old(data[x].posted)
      ensures AlwaysSubscribed(old(ran), ran, x) ==> x in data && data[x].handled == old(data[x].posted)
      ensures x !in active
      decreases Idle(), 0, 0
    {
      ghost var s := View();
      TakeUnder(s, x);
      var d := data[x];
      data := data[x := d.(handling := true, batch := d.events, events := [])];
      assert View() == Take(s, x);
      ReplaceKept(s, View(), x);
      ExecutedNothing(s, View(), script);
      while data[x].batch != []
        invariant Valid(View()) && Under(s, View(), x) && data[x].subscribers > 0 && data.Keys <= universe
        invariant Accounted(s, [])
        decreases |data[x].batch|
      {
        HandleOne(x, s);
        if data[x].subscribers == 0 {
          ReleaseEmpty(x, s);
          return;
        }
      }
      EndHandling(x, s);
    }

    // The whole batch is handled, and somebody is still subscribed.
    method EndHandling(x: Id, ghost s: State)
      requires Valid(View()) && Under(s, View(), x) && Accounted(s, [])
      requires data[x].batch == [] && data[x].subscribers > 0
      modifies `data, `active
      ensures Valid(View()) && Progress(s, View()) && Accounted(s, []) && x !in active
      ensures data.Keys == old(data.Keys) && x in data && data[x].handled == s.data[x].posted
    {
      ghost var t := View();
      FinishUnder(s, t, x);
      data := data[x := data[x].(handling := false)];
      active := active - {x};
      ReplaceKept(t, View(), x);
      ReleasedOn(s, t);
    }

    // Nobody is subscribed any more.
    method ReleaseEmpty(x: Id, ghost s: State)
      requires Valid(View()) && Under(s, View(), x) && Accounted(s, []) && data[x].subscribers == 0
      modifies `data, `pending, `active
      ensures Valid(View()) && Progress(s, View()) && Accounted(s, [])
      ensures data.Keys == old(data.Keys) - {x} && x !in active
    {
      ghost var t := View();
      DestroyUnder(s, t, x);
      DestroyKept(t, x);
      Release(x);
      ReleasedOn(s, t);
    }

    // Nothing was taken or handed out since `t`.
    ghost method ReleasedOn(s: State, t: State)
      requires Lasts(s, t) && Executed(s, t, [], script) && Lasts(t, View()) && Kept(View())
      requires ran == t.ran && out == t.out
      ensures Accounted(s, [])
    {
      LastsOn(s, t, View());
      ExecutedNothing(t, View(), script);
      ExecutedOn(s, t, View(), [], [], [], script);
    }

    // The next event of the batch, with everything its handlers do.
    method HandleOne(x: Id, ghost s: State)
      requires Valid(View()) && Under(s, View(), x) && Closed() && data.Keys <= universe
      requires data[x].batch != [] && forall y :: y in s.data ==> s.data[y].gen < s.nextGen
      requires Accounted(s, [])
      modifies this
      ensures Accounted(s, [])
      ensures Valid(View()) && Under(s, View(), x) && data.Keys <= universe
      ensures |data[x].batch| < |old(data)[x].batch|
      decreases Idle(), 4, 0
    {
      AdvanceUnder(s, View(), x);
      ghost var was := View();
      var d := data[x];
      data := data[x := d.(batch := d.batch[1..], handled := d.handled + [d.batch[0]])];
      AdvanceKept(was, x);
      ghost var t := Advance(was, x);
      CallSubscribers(x, d.gen, d.batch[0], was);
      ghost var u := View();
      HandedOn(s, was, u);
      NestedUnder(s, t, u, x);
      assert Same(t, u, x) && DataProgress(t, u, x);
    }

    // The event is handed out: the handlers run.
    method CallSubscribers(x: Id, gen: nat, event: int, ghost was: State)
      requires var t := View().(out := out + [Handed(x, gen, event)]);
               Valid(t) && Kept(t) && Lasts(was, t) && ran == was.ran && out == was.out
      requires Closed() && data.Keys <= universe
      modifies this
      ensures Valid(View()) && data.Keys <= universe
      ensures Progress(old(View()).(out := old(out) + [Handed(x, gen, event)]), View())
      ensures Accounted(was, [])
      decreases Idle(), 3, 0
    {
      out := out + [Handed(x, gen, event)];
      ghost var t := View();
      Run(script(|out| - 1));
      LastsOn(was, t, View());
      ExecutedHanded(was, t, View(), script);
    }

    ghost method HandedOn(s: State, was: State, u: State)
      requires u == View() && Lasts(s, was) && Executed(s, was, [], script) && Accounted(was, [])
      ensures Accounted(s, [])
    {
      LastsOn(s, was, u);
      ExecutedOn(s, was, u, [], [], [], script);
    }

    method Release(x: Id)
      modifies `data, `pending, `active
      ensures View() == Destroy(old(View()), x)
    {
      data := data - {x};
      pending := pending - {x};
      active := active - {x};
    }

    method AddSubscription(x: Id)
      requires x in universe && data.Keys <= universe
      modifies `data, `nextGen
      ensures View() == Join(old(View()), x) && data.Keys <= universe
    {
      if x in data {
        data := data[x := data[x].(subscribers := data[x].subscribers + 1)];
      } else {
        data := data[x := Data(nextGen, 1, [], false, [], [], [])];
        nextGen := nextGen + 1;
      }
    }

    method RemoveSubscription(x: Id)
      requires data.Keys <= universe
      modifies `data, `pending, `active
      ensures View() == Leave(old(View()), x) && data.Keys <= universe
    {
      if x !in data || data[x].subscribers == 0 { return; }
      if data[x].subscribers == 1 && !data[x].handling {
        Release(x);
      } else {
        data := data[x := data[x].(subscribers := data[x].subscribers - 1)];
      }
    }

    // Each action is noted and taken.
    method Run(acts: seq<Action>)
      requires Valid(View()) && Kept(View()) && Closed() && data.Keys <= universe
      requires forall i :: 0 <= i < |acts| ==> acts[i].id in universe
      modifies this
      ensures Accounted(old(View()), acts)
      ensures Valid(View()) && Progress(old(View()), View()) && data.Keys <= universe
      decreases Idle(), 2, |acts|
    {
      ghost var s := View();
      if acts == [] {
        assert Progress(s, s);
        LastsItself(s);
        ExecutedNothing(s, s, script);
        return;
      }
      RunOne(acts[0]);
      ghost var t := View();
      Run(acts[1..]);
      ProgressTransitive(s, t, View());
      LastsOn(s, t, View());
      ExecutedFirst(acts);
      ExecutedOn(s, t, View(), [acts[0]], acts[1..], acts, script);
    }

    method RunOne(act: Action)
      requires Valid(View()) && Kept(View()) && Closed() && data.Keys <= universe && act.id in universe
      modifies this
      ensures Valid(View()) && Progress(old(View()), View()) && data.Keys <= universe
      ensures Accounted(old(View()), [act])
      decreases Idle(), 2, 0
    {
      ghost var s := View();
      match act {
        case Post(x, event, sync) =>
          ghost var t := Noted(s, act);
          NotedValid(s, act);
          PostKept(s, act);
          ran := ran + [act];
          Notify(x, event, sync);
          NotedProgress(s, act, View());
          NotedOn(s, act);
        case Subscribe(x) =>
          JoinNoted(s, x, script);
          ran := ran + [act];
          AddSubscription(x);
        case Unsubscribe(x) =>
          LeaveNoted(s, x, script);
          ran := ran + [act];
          RemoveSubscription(x);
      }
    }

    ghost method NotedOn(s: State, act: Action)
      requires Lasts(s, Noted(s, act)) && Accounted(Noted(s, act), [])
      ensures Accounted(s, [act])
    {
      var t := Noted(s, act);
      LastsOn(s, t, View());
      ExecutedNoted(s, t, act, script);
      ExecutedOn(s, t, View(), [act], [], [act], script);
    }

    method HandleFirst(first: Id, ghost s: State)
      requires Valid(View()) && Closed() && data.Keys <= universe && Progress(s, View()) && Accounted(s, [])
      requires first in active && Handling(View()) == {} && forall x :: x in s.data ==> s.data[x].gen < s.nextGen
      modifies this
      ensures Valid(View()) && data.Keys <= universe && Progress(s, View()) && active < old(active)
      ensures Accounted(s, [])
    {
      ghost var t := View();
      assert first !in Handling(t);
      CallHandlers(first);
      ghost var u := View();
      ProgressTransitive(s, t, u);
      HandedOn(s, t, u);
      assert first in t.active && first !in u.active;
      active := active - (if first in active then {first} else {});
      assert View() == u;
    }

    // The delayed call from the event loop: never from inside a handler.
    method HandleObservables()
      requires Valid(View()) && Kept(View()) && Closed() && data.Keys <= universe
      requires Handling(View()) == {} && active == {}
      modifies this
      ensures Valid(View()) && active == {} && Handling(View()) == {}
      ensures Accounted(old(View()), [])
      ensures forall x :: Same(old(View()), View(), x) ==>
                old(data[x].posted) <= data[x].handled
      ensures forall x :: x in old(data) && AlwaysSubscribed(old(ran), ran, x) ==>
                x in data && data[x].gen == old(data[x].gen) && old(data[x].posted) <= data[x].handled
    {
      ghost var before := View();
      active, pending := pending, active;
      ghost var s := View();
      SwapStep(before, s);
      LastsItself(s);
      ExecutedNothing(s, s, script);
      while active != {}
        invariant Valid(View()) && Progress(s, View()) && data.Keys <= universe && Accounted(s, [])
        decreases active
      {
        var first :| first in active;
        HandleFirst(first, s);
      }
      EverythingHandled(before, s, View());
      assert forall x :: Same(s, View(), x) <==> Same(before, View(), x);
    }
  }

  // At rest the events of an observable that is not registered are all handled.
  lemma SwapStep(before: State, s: State)
    requires Valid(before) && Handling(before) == {} && before.active == {}
    requires s == before.(active := before.pending, pending := {})
    ensures Valid(s) && Progress(s, s)
  {
    forall x | x in s.data ensures History(s, x) && Registered(s, x) {
      assert History(before, x) && Registered(before, x);
      assert x !in Handling(before);
    }
  }

  lemma EverythingHandled(before: State, s: State, t: State)
    requires Valid(before) && Valid(s) && Handling(before) == {} && before.active == {}
    requires s == before.(active := before.pending, pending := {})
    requires Progress(s, t) && t.active == {}
    ensures forall x :: Same(before, t, x) ==> before.data[x].posted <= t.data[x].handled
  {
    forall x | Same(before, t, x) ensures before.data[x].posted <= t.data[x].handled {
      assert Same(s, t, x) && DataProgress(s, t, x) && History(s, x) && Registered(s, x);
      assert x !in Handling(s);
      if x !in s.active {
        assert s.data[x].events == [];
      }
    }
  }
}
