// Pairs of guards sharing one atomic flag on the heap. Guards of one pair live
// on different threads; the steps below are the atomic actions of all threads,
// and a run is any interleaving of them.
module BinaryGuard {

  type Cell = nat

  // Who keeps a pointer to a cell: a guard, or a call of destroy() that has
  // taken the pointer out of its guard and not yet let go of the cell.
  datatype Holder = Guard(id: nat) | Destroy(id: nat)

  datatype State = State(
    flags: map<Cell, bool>,          // the cells on the heap
    holders: map<Holder, Cell>,
    deleting: set<Holder>,           // calls of destroy() whose exchange failed
    next: Cell,                      // cells from here on were never allocated
    deleted: seq<Cell>)              // in the order of the delete expressions

  datatype Step =
    | Make(id: nat, made: nat)       // make_guard on an empty guard; the result goes to `made`
    | Move(from: nat, to: nat)       // move into an empty guard
    | Take(id: nat, call: nat)       // destroy(): the pointer leaves the guard
    | Exchange(call: nat)            // compare_exchange_strong(true, false)
    | Delete(call: nat)
    | Load(id: nat)                  // alive()

  // The cell a step reads, writes or frees.
  function Touches(s: State, e: Step): set<Cell> {
    match e
    case Exchange(call) => if Destroy(call) in s.holders then {s.holders[Destroy(call)]} else {}
    case Delete(call) => if Destroy(call) in s.holders then {s.holders[Destroy(call)]} else {}
    case Load(id) => if Guard(id) in s.holders then {s.holders[Guard(id)]} else {}
    case _ => {}
  }

  // These are the cells the exchange, the delete and the load are made on, and no step changes
  // or frees another one.
  lemma TouchesTheCell(s: State, e: Step)
    requires Enabled(s, e) && s.next !in s.flags
    ensures e.Exchange? ==> s.holders[Destroy(e.call)] in Touches(s, e)
    ensures e.Delete? && Destroy(e.call) in s.holders ==> s.holders[Destroy(e.call)] in Touches(s, e)
    ensures e.Load? && Guard(e.id) in s.holders ==> s.holders[Guard(e.id)] in Touches(s, e)
    ensures forall c :: c in s.flags && c !in Touches(s, e) ==>
              c in Next(s, e).flags && Next(s, e).flags[c] == s.flags[c]
  {
  }

  predicate Enabled(s: State, e: Step) {
    match e
    case Make(id, made) => id != made && Guard(id) !in s.holders && Guard(made) !in s.holders
    case Move(from, to) => from != to && Guard(to) !in s.holders
    case Take(id, call) => Guard(id) in s.holders && Destroy(call) !in s.holders
    case Exchange(call) => Destroy(call) in s.holders && Destroy(call) !in s.deleting
    case Delete(call) => Destroy(call) in s.deleting
    case Load(id) => true
  }

  function Next(s: State, e: Step): State
    requires Enabled(s, e)
  {
    match e
    case Make(id, made) =>
      s.(flags := s.flags[s.next := true],
         holders := s.holders[Guard(id) := s.next][Guard(made) := s.next], next := s.next + 1)
    case Move(from, to) =>
      if Guard(from) in s.holders
      then s.(holders := (s.holders - {Guard(from)})[Guard(to) := s.holders[Guard(from)]])
      else s
    case Take(id, call) =>
      s.(holders := (s.holders - {Guard(id)})[Destroy(call) := s.holders[Guard(id)]])
    case Exchange(call) =>
      var c := s.holders[Destroy(call)];
      if c in s.flags && s.flags[c]
      then s.(flags := s.flags[c := false], holders := s.holders - {Destroy(call)})
      else s.(deleting := s.deleting + {Destroy(call)})
    case Delete(call) =>
      if Destroy(call) !in s.holders then s
      else
        var c := s.holders[Destroy(call)];
        s.(flags := s.flags - {c}, holders := s.holders - {Destroy(call)},
           deleting := s.deleting - {Destroy(call)}, deleted := s.deleted + [c])
    case Load(id) => s
  }

  // What alive() answers.
  predicate Alive(s: State, id: nat) {
    Guard(id) in s.holders && var c := s.holders[Guard(id)]; c in s.flags && s.flags[c]
  }

  function HoldersOf(s: State, c: Cell): set<Holder> {
    set h | h in s.holders && s.holders[h] == c
  }

  const INITIAL := State(map[], map[], {}, 0, [])

  ghost predicate IsRun(states: seq<State>, steps: seq<Step>) {
    && |states| == |steps| + 1 && states[0] == INITIAL
    && forall i :: 0 <= i < |steps| ==> Enabled(states[i], steps[i]) && states[i + 1] == Next(states[i], steps[i])
  }

  // ---- The invariant --------------------------------------------------------------

  // Two holders while the flag is up, one while it is down.
  ghost predicate Inv(s: State) {
    && (forall h :: h in s.holders ==> s.holders[h] in s.flags)
    && (forall c :: c in s.flags ==> c < s.next && |HoldersOf(s, c)| == if s.flags[c] then 2 else 1)
    && (forall h :: h in s.deleting ==> h.Destroy? && h in s.holders && !s.flags[s.holders[h]])
    && (forall i :: 0 <= i < |s.deleted| ==> s.deleted[i] < s.next && s.deleted[i] !in s.flags)
    && (forall c: Cell :: c < s.next ==> c in s.flags || c in s.deleted)
    && (forall i, j :: 0 <= i < j < |s.deleted| ==> s.deleted[i] != s.deleted[j])
  }

  lemma OneHolder(s: State, c: Cell, h: Holder)
    requires h in HoldersOf(s, c) && |HoldersOf(s, c)| == 1
    ensures HoldersOf(s, c) == {h}
  {
    assert |HoldersOf(s, c) - {h}| == 0;
  }

  // Passing the pointer on from one holder to another.
  lemma PassOnHolders(s: State, t: State, from: Holder, to: Holder, c: Cell)
    requires from in s.holders && to !in s.holders
    requires t.holders == (s.holders - {from})[to := s.holders[from]]
    ensures |HoldersOf(t, c)| == |HoldersOf(s, c)|
  {
    if c == s.holders[from] {
      assert from in HoldersOf(s, c) && to !in HoldersOf(s, c);
      assert HoldersOf(t, c) == HoldersOf(s, c) - {from} + {to};
    } else {
      assert HoldersOf(t, c) == HoldersOf(s, c);
    }
  }

  lemma PassOn(s: State, t: State, from: Holder, to: Holder)
    requires Inv(s) && from in s.holders && to !in s.holders && from !in s.deleting && to !in s.deleting
    requires t == s.(holders := (s.holders - {from})[to := s.holders[from]])
    ensures Inv(t)
  {
    forall c: Cell ensures |HoldersOf(t, c)| == |HoldersOf(s, c)| {
      PassOnHolders(s, t, from, to, c);
    }
    forall h | h in t.holders ensures t.holders[h] in t.flags {
      if h != to { assert h in s.holders; }
    }
    forall h | h in t.deleting ensures h.Destroy? && h in t.holders && !t.flags[t.holders[h]] {
      assert h != from && h != to;
    }
  }

  lemma MakeKeepsInv(s: State, id: nat, made: nat)
    requires Inv(s) && Enabled(s, Make(id, made))
    ensures Inv(Next(s, Make(id, made)))
  {
    var t := Next(s, Make(id, made));
    assert HoldersOf(t, s.next) == {Guard(id), Guard(made)};
    forall c | c in s.flags ensures HoldersOf(t, c) == HoldersOf(s, c) {
    }
    forall i | 0 <= i < |t.deleted| ensures t.deleted[i] !in t.flags {
      assert s.deleted[i] < s.next;
    }
  }

  lemma ExchangeKeepsInv(s: State, call: nat)
    requires Inv(s) && Enabled(s, Exchange(call))
    ensures Inv(Next(s, Exchange(call)))
  {
    var t := Next(s, Exchange(call));
    var h := Destroy(call);
    var c := s.holders[h];
    if s.flags[c] {
      forall d | d in t.flags ensures |HoldersOf(t, d)| == if t.flags[d] then 2 else 1 {
        if d == c {
          assert h in HoldersOf(s, c);
          assert HoldersOf(t, c) == HoldersOf(s, c) - {h};
        } else {
          assert HoldersOf(t, d) == HoldersOf(s, d);
        }
      }
    } else {
      forall d | d in t.flags ensures HoldersOf(t, d) == HoldersOf(s, d) {
      }
    }
  }

  lemma DeletedOnce(s: State, c: Cell)
    requires Inv(s) && c in s.flags
    ensures var deleted := s.deleted + [c];
            && (forall i :: 0 <= i < |deleted| ==> deleted[i] < s.next && deleted[i] !in s.flags - {c})
            && (forall d: Cell :: d < s.next ==> d in s.flags - {c} || d in deleted)
            && (forall i, j :: 0 <= i < j < |deleted| ==> deleted[i] != deleted[j])
  {
    var deleted := s.deleted + [c];
    forall d: Cell | d < s.next && d !in s.flags - {c} ensures d in deleted {
      assert d == c || d in s.deleted;
      assert deleted[|s.deleted|] == c;
      if d in s.deleted {
        var i :| 0 <= i < |s.deleted| && s.deleted[i] == d;
        assert deleted[i] == d;
      }
    }
  }

  lemma DeleteKeepsInv(s: State, call: nat)
    requires Inv(s) && Enabled(s, Delete(call))
    ensures Inv(Next(s, Delete(call)))
  {
    var t := Next(s, Delete(call));
    var h := Destroy(call);
    var c := s.holders[h];
    assert h in HoldersOf(s, c);
    OneHolder(s, c, h);
    forall k | k in t.holders ensures t.holders[k] != c {
      assert t.holders[k] == c ==> k in HoldersOf(s, c);
    }
    forall d | d in t.flags ensures HoldersOf(t, d) == HoldersOf(s, d) {
    }
    DeletedOnce(s, c);
  }

  lemma NextKeepsInv(s: State, e: Step)
    requires Inv(s) && Enabled(s, e)
    ensures Inv(Next(s, e))
  {
    match e
    case Make(id, made) => MakeKeepsInv(s, id, made);
    case Move(from, to) => if Guard(from) in s.holders { PassOn(s, Next(s, e), Guard(from), Guard(to)); }
    case Take(id, call) => PassOn(s, Next(s, e), Guard(id), Destroy(call));
    case Exchange(call) => ExchangeKeepsInv(s, call);
    case Delete(call) => DeleteKeepsInv(s, call);
    case Load(id) =>
  }

  // ---- Main results, for every interleaving ------------------------------------------

  // A flag that is up has two holders and one that is down has one; nothing leaks
  // and nothing is freed twice.
  lemma {:induction false} ReachableInv(states: seq<State>, steps: seq<Step>)
    requires IsRun(states, steps)
    ensures Inv(states[|steps|])
    decreases |steps|
  {
    if steps != [] {
      var n := |steps| - 1;
      ReachableInv(states[..|states| - 1], steps[..n]);
      assert Enabled(states[n], steps[n]) && states[n + 1] == Next(states[n], steps[n]);
      NextKeepsInv(states[n], steps[n]);
    } else {
      assert states[0] == INITIAL && Inv(INITIAL);
    }
  }

  // No step reads, writes or frees a cell that is not on the heap.
  lemma NoUseAfterFree(states: seq<State>, steps: seq<Step>, e: Step)
    requires IsRun(states, steps) && Enabled(states[|steps|], e)
    ensures Touches(states[|steps|], e) <= states[|steps|].flags.Keys
  {
    ReachableInv(states, steps);
  }

  // The cell goes exactly with its last holder.
  lemma FreedByLastHolder(states: seq<State>, steps: seq<Step>, call: nat)
    requires IsRun(states, steps) && Enabled(states[|steps|], Delete(call))
    ensures var s := states[|steps|];
            Destroy(call) in s.holders && HoldersOf(s, s.holders[Destroy(call)]) == {Destroy(call)}
  {
    ReachableInv(states, steps);
    var s := states[|steps|];
    var c := s.holders[Destroy(call)];
    assert Destroy(call) in HoldersOf(s, c);
    OneHolder(s, c, Destroy(call));
  }

  // When everybody has let go, every cell ever made was freed, once each.
  lemma NothingLeaks(states: seq<State>, steps: seq<Step>)
    requires IsRun(states, steps) && states[|steps|].holders == map[]
    ensures var s := states[|steps|];
            && s.flags == map[]
            && (forall c: Cell :: c < s.next <==> c in s.deleted)
            && (forall i, j :: 0 <= i < j < |s.deleted| ==> s.deleted[i] != s.deleted[j])
  {
    ReachableInv(states, steps);
    var s := states[|steps|];
    forall c: Cell ensures c !in s.flags {
      assert HoldersOf(s, c) == {};
    }
  }

  // Once down, or freed, a flag is never up again.
  lemma {:induction false} DownStaysDown(states: seq<State>, steps: seq<Step>, k: nat, c: Cell)
    requires IsRun(states, steps) && k <= |steps|
    requires c < states[k].next && !(c in states[k].flags && states[k].flags[c])
    ensures var s := states[|steps|]; c < s.next && !(c in s.flags && s.flags[c])
    decreases |steps|
  {
    if k < |steps| {
      var n := |steps| - 1;
      DownStaysDown(states[..|states| - 1], steps[..n], k, c);
      assert Enabled(states[n], steps[n]) && states[n + 1] == Next(states[n], steps[n]);
    }
  }

  // A guard that answered no keeps answering no until it is given another cell.
  lemma AliveNeverReturns(states: seq<State>, steps: seq<Step>, k: nat, id: nat)
    requires IsRun(states, steps) && k <= |steps| && !Alive(states[k], id)
    requires Guard(id) in states[k].holders && Guard(id) in states[|steps|].holders
    requires states[k].holders[Guard(id)] == states[|steps|].holders[Guard(id)]
    ensures !Alive(states[|steps|], id)
  {
    assert IsRun(states[..k + 1], steps[..k]);
    ReachableInv(states[..k + 1], steps[..k]);
    DownStaysDown(states, steps, k, states[k].holders[Guard(id)]);
  }

  // The other guard of a pair turns dead the moment one lets go.
  lemma PairDies(states: seq<State>, steps: seq<Step>, call: nat, id: nat)
    requires IsRun(states, steps) && Enabled(states[|steps|], Exchange(call))
    requires var s := states[|steps|];
             Guard(id) in s.holders && s.holders[Guard(id)] == s.holders[Destroy(call)]
    ensures var t := Next(states[|steps|], Exchange(call));
            !Alive(t, id) && Destroy(call) !in t.deleting
  {
    ReachableInv(states, steps);
    var s := states[|steps|];
    var c := s.holders[Destroy(call)];
    assert {Guard(id), Destroy(call)} <= HoldersOf(s, c);
    if !s.flags[c] {
      OneHolder(s, c, Guard(id));
    }
  }

  // ---- The member functions, run without interruption ----------------------------------

  // What destroy() does as steps; `call` names the call while it is under way.
  function Destroyed(s: State, id: nat, call: nat): State
    requires Destroy(call) !in s.holders && Destroy(call) !in s.deleting
  {
    if Guard(id) !in s.holders then s
    else
      var t := Next(Next(s, Take(id, call)), Exchange(call));
      if Destroy(call) in t.deleting then Next(t, Delete(call)) else t
  }

  lemma DestroyedKeepsInv(s: State, id: nat, call: nat)
    requires Inv(s) && Destroy(call) !in s.holders
    ensures Destroy(call) !in s.deleting && Inv(Destroyed(s, id, call)) && Guard(id) !in Destroyed(s, id, call).holders
    ensures forall g :: Guard(g) in s.holders && g != id ==>
              Guard(g) in Destroyed(s, id, call).holders
              && Destroyed(s, id, call).holders[Guard(g)] == s.holders[Guard(g)]
    ensures Destroy(call) !in Destroyed(s, id, call).holders
  {
    if Guard(id) in s.holders {
      var t := Next(s, Take(id, call));
      NextKeepsInv(s, Take(id, call));
      ExchangeKeepsInv(t, call);
      var u := Next(t, Exchange(call));
      if Destroy(call) in u.deleting { DeleteKeepsInv(u, call); }
    }
  }

  ghost predicate OthersStay(before: map<Holder, Cell>, after: map<Holder, Cell>, id: nat) {
    forall g :: g != id ==>
      (Guard(g) in before <==> Guard(g) in after) && (Guard(g) in before ==> after[Guard(g)] == before[Guard(g)])
  }

  lemma DestroyedLeavesOthers(s: State, id: nat, call: nat)
    requires Inv(s) && Destroy(call) !in s.holders && Destroy(call) !in s.deleting
    ensures OthersStay(s.holders, Destroyed(s, id, call).holders, id)
  {
  }

  class Guards {
    var flags: map<Cell, bool>
    var holders: map<Holder, Cell>
    var deleting: set<Holder>
    var next: Cell
    var deleted: seq<Cell>

    function View(): State
      reads this
    {
      State(flags, holders, deleting, next, deleted)
    }

    constructor ()
      ensures View() == INITIAL
    {
      flags, holders, deleting, next, deleted := map[], map[], {}, 0, [];
    }

    method IsAlive(id: nat) returns (alive: bool)
      requires Inv(View())
      ensures alive == Alive(View(), id)
    {
      alive := Guard(id) in holders && flags[holders[Guard(id)]];
    }

    // compare_exchange_strong(true, false) on the cell the call has taken.
    method CompareExchange(call: nat) returns (exchanged: bool)
      requires Inv(View()) && Enabled(View(), Exchange(call))
      modifies this
      ensures View() == Next(old(View()), Exchange(call)) && exchanged == (Destroy(call) !in deleting)
    {
      var c := holders[Destroy(call)];
      exchanged := flags[c];
      if exchanged {
        flags := flags[c := false];
        holders := holders - {Destroy(call)};
      } else {
        deleting := deleting + {Destroy(call)};
      }
    }

    method DestroyGuard(id: nat, call: nat)
      requires Inv(View()) && Destroy(call) !in holders
      modifies this
      ensures Destroy(call) !in old(deleting) && View() == Destroyed(old(View()), id, call) && Inv(View())
      ensures Guard(id) !in holders && Destroy(call) !in holders
      ensures OthersStay(old(holders), holders, id)
    {
      ghost var g := View();
      DestroyedKeepsInv(g, id, call);
      DestroyedLeavesOthers(g, id, call);
      if Guard(id) in holders {
        ghost var t := Next(g, Take(id, call));
        NextKeepsInv(g, Take(id, call));
        holders := (holders - {Guard(id)})[Destroy(call) := holders[Guard(id)]];
        assert View() == t;
        var exchanged := CompareExchange(call);
        ghost var u := Next(t, Exchange(call));
        assert View() == u;
        if !exchanged {
          DeleteCell(call);
          assert View() == Next(u, Delete(call));
        }
      }
    }

    method DeleteCell(call: nat)
      requires Destroy(call) in deleting && Destroy(call) in holders
      modifies this
      ensures View() == Next(old(View()), Delete(call))
    {
      var c := holders[Destroy(call)];
      flags := flags - {c};
      holders := holders - {Destroy(call)};
      deleting := deleting - {Destroy(call)};
      deleted := deleted + [c];
    }

    // The new pair: the guard itself and the one it returns.
    method MakeGuard(id: nat, made: nat, call: nat)
      requires Inv(View()) && Destroy(call) !in holders && id != made && Guard(made) !in holders
      modifies this
      ensures Inv(View()) && Alive(View(), id) && Alive(View(), made)
      ensures holders[Guard(id)] == holders[Guard(made)] == old(next)
    {
      DestroyGuard(id, call);
      MakeKeepsInv(View(), id, made);
      flags := flags[next := true];
      holders := holders[Guard(id) := next][Guard(made) := next];
      next := next + 1;
    }

    method MoveAssign(to: nat, from: nat, call: nat)
      requires Inv(View()) && Destroy(call) !in holders
      modifies this
      ensures Inv(View())
      ensures to == from ==> View() == old(View())
      ensures to != from && Guard(from) in old(holders) ==>
                Guard(from) !in holders && Guard(to) in holders && holders[Guard(to)] == old(holders[Guard(from)])
      ensures to != from && Guard(from) !in old(holders) ==> Guard(from) !in holders && Guard(to) !in holders
    {
      if to != from {
        ghost var was := holders;
        DestroyGuard(to, call);
        assert OthersStay(was, holders, to);
        TakeOver(to, from);
      }
    }

    // base::take of the other guard into an empty one.
    method TakeOver(to: nat, from: nat)
      requires Inv(View()) && to != from && Guard(to) !in holders
      modifies this
      ensures Inv(View()) && View() == Next(old(View()), Move(from, to))
    {
      NextKeepsInv(View(), Move(from, to));
      if Guard(from) in holders {
        holders := (holders - {Guard(from)})[Guard(to) := holders[Guard(from)]];
      }
    }
  }
}
