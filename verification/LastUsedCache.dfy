// The least recently used entry first: a list of nodes and an index into it.
module LastUsedCache {
  type Entry = int

  // ---- Recency as a sequence --------------------------------------------------------------

  predicate Distinct(q: seq<int>) {
    forall i, j :: 0 <= i < j < |q| ==> q[i] != q[j]
  }

  function Without(q: seq<int>, x: int): seq<int> {
    if q == [] then [] else if q[0] == x then q[1..] else [q[0]] + Without(q[1..], x)
  }

  datatype Op = Up(entry: Entry) | Remove(entry: Entry) | Clear | TakeLowest

  function Apply(q: seq<Entry>, op: Op): seq<Entry> {
    match op
    case Up(e) => Without(q, e) + [e]
    case Remove(e) => Without(q, e)
    case Clear => []
    case TakeLowest => if q == [] then [] else q[1..]
  }

  function Run(ops: seq<Op>): seq<Entry> {
    if ops == [] then [] else Apply(Run(ops[..|ops| - 1]), ops[|ops| - 1])
  }

  // ---- Recency as a history -----------------------------------------------------------------

  // When the entry was last used, counting from one; zero if never.
  function LastUp(ops: seq<Op>, e: Entry): (t: nat)
    ensures t <= |ops|
  {
    if ops == [] then 0
    else if ops[|ops| - 1] == Up(e) then |ops|
    else LastUp(ops[..|ops| - 1], e)
  }

  // Whether the history leaves the entry in the cache. Taking the lowest takes the entry
  // that no other entry in the cache was last used before.
  ghost predicate Held(ops: seq<Op>, e: Entry)
    decreases |ops|, 0
  {
    ops != [] &&
    var before := ops[..|ops| - 1];
    match ops[|ops| - 1]
    case Up(x) => x == e || Held(before, e)
    case Remove(x) => x != e && Held(before, e)
    case Clear => false
    case TakeLowest => Held(before, e) && HoldsOlder(before, e)
  }

  ghost predicate HoldsOlder(ops: seq<Op>, e: Entry)
    decreases |ops|, 1
  {
    exists f :: Held(ops, f) && LastUp(ops, f) < LastUp(ops, e)
  }

  lemma {:induction false} WithoutMembers(q: seq<int>, x: int)
    requires Distinct(q)
    ensures Distinct(Without(q, x)) && x !in Without(q, x)
    ensures forall y :: y != x ==> (y in Without(q, x) <==> y in q)
  {
    if q != [] && q[0] != x {
      WithoutMembers(q[1..], x);
      assert forall i :: 0 <= i < |q[1..]| ==> q[1..][i] != q[0];
      var t := Without(q[1..], x);
      assert q[0] !in t;
      forall y | y != x ensures y in [q[0]] + t <==> y in q {
        assert q == [q[0]] + q[1..];
      }
    } else if q != [] {
      assert forall i :: 0 <= i < |q[1..]| ==> q[1..][i] != q[0];
      assert q == [q[0]] + q[1..];
    }
  }

  ghost predicate ByLastUp(q: seq<Entry>, ops: seq<Op>) {
    forall i, j :: 0 <= i < j < |q| ==> LastUp(ops, q[i]) < LastUp(ops, q[j])
  }

  lemma FirstInOrder(e: Entry, t: seq<Entry>, ops: seq<Op>)
    requires ByLastUp(t, ops) && forall y :: y in t ==> LastUp(ops, e) < LastUp(ops, y)
    ensures ByLastUp([e] + t, ops)
  {
    var q := [e] + t;
    forall i, j | 0 <= i < j < |q| ensures LastUp(ops, q[i]) < LastUp(ops, q[j]) {
      assert q[j] == t[j - 1] && t[j - 1] in t;
    }
  }

  lemma {:induction false} WithoutOrder(q: seq<Entry>, x: Entry, ops: seq<Op>)
    requires ByLastUp(q, ops)
    ensures ByLastUp(Without(q, x), ops)
    ensures forall y :: y in Without(q, x) ==> y in q
  {
    if q != [] {
      assert ByLastUp(q[1..], ops);
      if q[0] != x {
        var rest := q[1..];
        WithoutOrder(rest, x, ops);
        forall y | y in rest ensures LastUp(ops, q[0]) < LastUp(ops, y) {
          var i :| 0 <= i < |rest| && rest[i] == y;
          assert q[i + 1] == y;
        }
        FirstInOrder(q[0], Without(rest, x), ops);
      }
    }
  }

  // One more operation: uses before it are unchanged, but for the entry of an Up.
  lemma LastUpMore(ops: seq<Op>, op: Op, e: Entry)
    ensures LastUp(ops + [op], e) == if op == Up(e) then |ops| + 1 else LastUp(ops, e)
  {
    assert (ops + [op])[..|ops|] == ops;
  }

  ghost predicate Matches(q: seq<Entry>, ops: seq<Op>) {
    && Distinct(q) && ByLastUp(q, ops)
    && forall e {:trigger Held(ops, e)} :: e in q <==> Held(ops, e)
  }

  lemma HeldMore(ops: seq<Op>, op: Op, e: Entry)
    ensures Held(ops + [op], e) <==>
            match op {
              case Up(x) => x == e || Held(ops, e)
              case Remove(x) => x != e && Held(ops, e)
              case Clear => false
              case TakeLowest => Held(ops, e) && HoldsOlder(ops, e)
            }
  {
    assert (ops + [op])[..|ops|] == ops;
  }

  lemma MatchesUp(q: seq<Entry>, ops: seq<Op>, e: Entry)
    requires Matches(q, ops)
    ensures Matches(Without(q, e) + [e], ops + [Up(e)])
  {
    var ops', t := ops + [Up(e)], Without(q, e);
    WithoutMembers(q, e);
    WithoutOrder(q, e, ops);
    forall x ensures x in t + [e] <==> Held(ops', x) { HeldMore(ops, Up(e), x); }
    forall i, j | 0 <= i < j < |t + [e]| ensures LastUp(ops', (t + [e])[i]) < LastUp(ops', (t + [e])[j]) {
      LastUpMore(ops, Up(e), t[i]);
      LastUpMore(ops, Up(e), (t + [e])[j]);
    }
  }

  lemma MatchesRemove(q: seq<Entry>, ops: seq<Op>, e: Entry)
    requires Matches(q, ops)
    ensures Matches(Without(q, e), ops + [Remove(e)])
  {
    var ops', t := ops + [Remove(e)], Without(q, e);
    WithoutMembers(q, e);
    WithoutOrder(q, e, ops);
    forall x ensures x in t <==> Held(ops', x) && LastUp(ops', x) == LastUp(ops, x) {
      HeldMore(ops, Remove(e), x);
      LastUpMore(ops, Remove(e), x);
    }
  }

  lemma MatchesTake(q: seq<Entry>, ops: seq<Op>)
    requires Matches(q, ops)
    ensures Matches(Apply(q, TakeLowest), ops + [TakeLowest])
  {
    var ops', t := ops + [TakeLowest], Apply(q, TakeLowest);
    assert forall i :: 0 <= i < |t| ==> t[i] == q[i + 1];
    forall x ensures x in t <==> Held(ops', x) {
      HeldMore(ops, TakeLowest, x);
      TakenIsOldest(q, ops, x);
    }
    forall x ensures LastUp(ops', x) == LastUp(ops, x) { LastUpMore(ops, TakeLowest, x); }
  }

  lemma TakenIsOldest(q: seq<Entry>, ops: seq<Op>, x: Entry)
    requires Matches(q, ops)
    ensures q != [] ==> (x in q[1..] <==> Held(ops, x) && HoldsOlder(ops, x))
  {
    if q != [] {
      assert Held(ops, q[0]);
      if x in q[1..] {
        var i :| 0 <= i < |q[1..]| && q[1..][i] == x;
        assert q[i + 1] == x && LastUp(ops, q[0]) < LastUp(ops, q[i + 1]);
      }
      if HoldsOlder(ops, x) {
        var f :| Held(ops, f) && LastUp(ops, f) < LastUp(ops, x);
        var i :| 0 <= i < |q| && q[i] == f;
        assert x != q[0];
        assert x in q <==> x in q[1..];
      }
    }
  }

  // Main result, for every history: the cache holds what the history says, each entry
  // once, in the order of last use.
  lemma {:induction false} RunMatches(ops: seq<Op>)
    ensures Matches(Run(ops), ops)
  {
    if ops != [] {
      var before, op := ops[..|ops| - 1], ops[|ops| - 1];
      RunMatches(before);
      assert ops == before + [op];
      match op
      case Up(e) => MatchesUp(Run(before), before, e);
      case Remove(e) => MatchesRemove(Run(before), before, e);
      case Clear =>
      case TakeLowest => MatchesTake(Run(before), before);
    }
  }

  // What is taken next is held, and was last used before everything else that is.
  lemma LowestIsOldest(ops: seq<Op>, e: Entry)
    requires Held(ops, e)
    ensures Run(ops) != [] && Held(ops, Run(ops)[0]) && LastUp(ops, Run(ops)[0]) <= LastUp(ops, e)
  {
    RunMatches(ops);
    var q := Run(ops);
    assert e in q;
    var i :| 0 <= i < |q| && q[i] == e;
    assert q[0] in q;
    if i > 0 { assert LastUp(ops, q[0]) < LastUp(ops, q[i]); }
  }

  // ---- The list and its index ------------------------------------------------------------------

  predicate AllIn(queue: seq<int>, entries: map<int, Entry>) {
    forall i :: 0 <= i < |queue| ==> queue[i] in entries
  }

  function Values(queue: seq<int>, entries: map<int, Entry>): (q: seq<Entry>)
    requires AllIn(queue, entries)
    ensures |q| == |queue| && forall i :: 0 <= i < |q| ==> q[i] == entries[queue[i]]
  {
    if queue == [] then [] else [entries[queue[0]]] + Values(queue[1..], entries)
  }

  lemma {:induction false} WithoutAbsent(q: seq<int>, x: int)
    requires x !in q
    ensures Without(q, x) == q
  {
    if q != [] { WithoutAbsent(q[1..], x); }
  }

  lemma {:induction false} WithoutLast(q: seq<int>, x: int)
    requires Distinct(q + [x])
    ensures Without(q + [x], x) == q
  {
    if q == [] {
      assert [] + [x] == [x];
    } else {
      assert (q + [x])[1..] == q[1..] + [x];
      assert (q + [x])[|q|] == x && (q + [x])[0] == q[0];
      WithoutLast(q[1..], x);
    }
  }

  lemma LastStays(q: seq<int>, x: int)
    requires Distinct(q) && q != [] && q[|q| - 1] == x
    ensures Without(q, x) + [x] == q
  {
    var front := q[..|q| - 1];
    assert q == front + [x];
    WithoutLast(front, x);
  }

  // Taking a node out of the list takes its entry out of the values.
  lemma {:induction false} ValuesWithout(queue: seq<int>, entries: map<int, Entry>, n: int)
    requires AllIn(queue, entries) && n in queue
    requires forall m :: m in queue && entries[m] == entries[n] ==> m == n
    ensures AllIn(Without(queue, n), entries)
    ensures Values(Without(queue, n), entries) == Without(Values(queue, entries), entries[n])
  {
    if queue[0] != n {
      assert queue == [queue[0]] + queue[1..];
      ValuesWithout(queue[1..], entries, n);
      assert Values(queue, entries)[1..] == Values(queue[1..], entries);
      assert Without(queue, n)[1..] == Without(queue[1..], n);
    } else {
      assert Values(queue, entries)[1..] == Values(queue[1..], entries);
    }
  }

  // Every entry has the one node that its index entry names.
  ghost predicate Linked(queue: seq<int>, entries: map<int, Entry>, index: map<Entry, int>, next: int) {
    && Distinct(queue)
    && AllIn(queue, entries)
    && (forall n :: n in entries ==> n in queue && n < next && entries[n] in index && index[entries[n]] == n)
    && (forall e :: e in index ==> index[e] in entries && entries[index[e]] == e)
  }

  lemma NodeIsOnly(queue: seq<int>, entries: map<int, Entry>, index: map<Entry, int>, next: int, n: int)
    requires Linked(queue, entries, index, next) && n in entries
    ensures n in queue && forall m :: m in queue && entries[m] == entries[n] ==> m == n
  {
    forall m | m in queue && entries[m] == entries[n] ensures m == n {
      assert m in entries && index[entries[m]] == m;
    }
  }

  lemma LinkedMoved(queue: seq<int>, entries: map<int, Entry>, index: map<Entry, int>, next: int, e: Entry)
    requires Linked(queue, entries, index, next) && e in index
    ensures var moved := Without(queue, index[e]) + [index[e]];
            Linked(moved, entries, index, next)
            && Values(moved, entries) == Without(Values(queue, entries), e) + [e]
  {
    var n := index[e];
    var t := Without(queue, n);
    NodeIsOnly(queue, entries, index, next, n);
    WithoutMembers(queue, n);
    ValuesWithout(queue, entries, n);
    assert AllIn(t + [n], entries);
    var v := Values(t + [n], entries);
    assert forall i :: 0 <= i < |t| ==> v[i] == entries[t[i]];
    assert v == Values(t, entries) + [e];
  }

  lemma LinkedAdded(queue: seq<int>, entries: map<int, Entry>, index: map<Entry, int>, next: int, e: Entry)
    requires Linked(queue, entries, index, next) && e !in index
    ensures Linked(queue + [next], entries[next := e], index[e := next], next + 1)
    ensures Values(queue + [next], entries[next := e]) == Without(Values(queue, entries), e) + [e]
  {
    var q := Values(queue, entries);
    assert forall i :: 0 <= i < |q| ==> q[i] in index;
    WithoutAbsent(q, e);
    assert Values(queue + [next], entries[next := e]) == q + [e];
  }

  lemma LinkedLess(
      queue: seq<int>, entries: map<int, Entry>, index: map<Entry, int>, next: int, n: int, t: seq<int>)
    requires Linked(queue, entries, index, next) && n in entries
    requires Distinct(t) && n !in t && forall m :: m != n ==> (m in t <==> m in queue)
    ensures Linked(t, entries - {n}, index - {entries[n]}, next)
  {
    forall i | 0 <= i < |t| ensures t[i] in entries - {n} {
      var m := t[i];
      assert m in t && m != n;
      assert m in queue;
      var j :| 0 <= j < |queue| && queue[j] == m;
    }
    forall m | m in entries - {n} ensures m in t && entries[m] != entries[n] {
      assert m in queue && index[entries[m]] == m && index[entries[n]] == n;
    }
    forall e | e in index - {entries[n]} ensures index[e] in entries - {n} {
      assert entries[index[e]] == e;
    }
  }

  lemma {:induction false} SameValues(queue: seq<int>, a: map<int, Entry>, b: map<int, Entry>)
    requires AllIn(queue, a) && AllIn(queue, b)
    requires forall i {:trigger queue[i]} :: 0 <= i < |queue| ==> a[queue[i]] == b[queue[i]]
    ensures Values(queue, a) == Values(queue, b)
  {
    if queue != [] {
      assert forall i {:trigger queue[1..][i]} :: 0 <= i < |queue| - 1 ==> queue[1..][i] == queue[i + 1];
      SameValues(queue[1..], a, b);
    }
  }

  lemma LinkedRemoved(queue: seq<int>, entries: map<int, Entry>, index: map<Entry, int>, next: int, e: Entry)
    requires Linked(queue, entries, index, next) && e in index
    ensures var t := Without(queue, index[e]);
            Linked(t, entries - {index[e]}, index - {e}, next)
            && Values(t, entries - {index[e]}) == Without(Values(queue, entries), e)
  {
    var n := index[e];
    var t := Without(queue, n);
    NodeIsOnly(queue, entries, index, next, n);
    WithoutMembers(queue, n);
    LinkedLess(queue, entries, index, next, n, t);
    ValuesWithout(queue, entries, n);
    SameValues(t, entries, entries - {n});
  }

  lemma LinkedDistinct(queue: seq<int>, entries: map<int, Entry>, index: map<Entry, int>, next: int)
    requires Linked(queue, entries, index, next)
    ensures Distinct(Values(queue, entries))
    ensures forall e :: e in Values(queue, entries) <==> e in index
  {
    var q := Values(queue, entries);
    forall e ensures e in q <==> e in index {
      if e in index {
        var n := index[e];
        assert n in entries && n in queue;
        var i :| 0 <= i < |queue| && queue[i] == n;
        assert q[i] == e;
      }
    }
    forall i, j | 0 <= i < j < |queue| ensures q[i] != q[j] {
      assert index[q[i]] == queue[i] && index[q[j]] == queue[j];
    }
  }

  // The list as the sequence of its nodes, front first; a node keeps its entry wherever
  // it is moved. The index finds the node of an entry.
  class Cache {
    var queue: seq<int>
    var entries: map<int, Entry>
    var index: map<Entry, int>
    var nextNode: int

    ghost predicate Valid()
      reads this
    {
      Linked(queue, entries, index, nextNode)
    }

    ghost function Contents(): seq<Entry>
      reads this
      requires Valid()
    {
      Values(queue, entries)
    }

    constructor ()
      ensures Valid() && Contents() == []
    {
      queue, entries, index, nextNode := [], map[], map[], 0;
    }

    method Up(entry: Entry)
      requires Valid()
      modifies this
      ensures Valid() && Contents() == Apply(old(Contents()), Op.Up(entry))
    {
      if queue != [] && entries[queue[|queue| - 1]] == entry {
        LinkedDistinct(queue, entries, index, nextNode);
        LastStays(Contents(), entry);
        return;
      }
      if entry in index { MoveToEnd(entry); } else { AddAtEnd(entry); }
    }

    method MoveToEnd(entry: Entry)
      requires Valid() && entry in index
      modifies this
      ensures Valid() && Contents() == Without(old(Contents()), entry) + [entry]
    {
      LinkedMoved(queue, entries, index, nextNode, entry);
      queue := Without(queue, index[entry]) + [index[entry]];
    }

    method AddAtEnd(entry: Entry)
      requires Valid() && entry !in index
      modifies this
      ensures Valid() && Contents() == Without(old(Contents()), entry) + [entry]
    {
      LinkedAdded(queue, entries, index, nextNode, entry);
      queue, entries, index := queue + [nextNode], entries[nextNode := entry], index[entry := nextNode];
      nextNode := nextNode + 1;
    }

    method Remove(entry: Entry)
      requires Valid()
      modifies this
      ensures Valid() && Contents() == Apply(old(Contents()), Op.Remove(entry))
    {
      if entry in index {
        LinkedRemoved(queue, entries, index, nextNode, entry);
        var node := index[entry];
        queue, entries, index := Without(queue, node), entries - {node}, index - {entry};
      } else {
        LinkedDistinct(queue, entries, index, nextNode);
        WithoutAbsent(Contents(), entry);
      }
    }

    method Clear()
      requires Valid()
      modifies this
      ensures Valid() && Contents() == Apply(old(Contents()), Op.Clear)
    {
      queue, entries, index := [], map[], map[];
    }

    // Nothing in an empty cache: the default entry.
    method TakeLowest(none: Entry) returns (result: Entry)
      requires Valid()
      modifies this
      ensures Valid() && Contents() == Apply(old(Contents()), Op.TakeLowest)
      ensures result == if old(Contents()) == [] then none else old(Contents())[0]
    {
      if queue == [] { return none; }
      var node := queue[0];
      result := entries[node];
      LinkedRemoved(queue, entries, index, nextNode, result);
      queue, entries, index := queue[1..], entries - {node}, index - {result};
    }
  }
}
