// The list of subscriptions of one observable, and the cursor with which an
// event is handed to each of them while the handlers subscribe and unsubscribe.
module ObserverList {

  // What a handler does to the list it is called from. Subscriptions are
  // numbered in the order they were made.
  datatype Action = Append | Remove(id: nat)

  datatype Entry = Called(id: nat) | Appended(id: nat) | Removed(id: nat)

  // The list is always visited + rest, and the cursor is on the last of
  // `visited`, or nowhere when none of those is left.
  datatype Cursor = Cursor(visited: seq<nat>, rest: seq<nat>, nextId: nat, released: bool, trace: seq<Entry>)
  {
    function List(): seq<nat> { visited + rest }

    predicate AtCurrent(id: nat) {
      visited != [] && visited[|visited| - 1] == id
    }
  }

  function Find(s: seq<nat>, id: nat): (k: nat)
    requires id in s
    ensures k < |s| && s[k] == id
  {
    if s[0] == id then 0 else 1 + Find(s[1..], id)
  }

  function Cut<T>(s: seq<T>, k: nat): seq<T>
    requires k < |s|
  {
    s[..k] + s[k + 1..]
  }

  function Without(s: seq<nat>, id: nat): seq<nat> {
    if id in s then Cut(s, Find(s, id)) else s
  }

  function Act(s: Cursor, a: Action): Cursor {
    match a
    case Append =>
      s.(rest := s.rest + [s.nextId], nextId := s.nextId + 1, trace := s.trace + [Appended(s.nextId)])
    case Remove(id) =>
      if id !in s.List() then s
      else
        var t := if id in s.visited then s.(visited := Without(s.visited, id)) else s.(rest := Without(s.rest, id));
        // Emptying the list by a removal elsewhere than at the cursor releases the list itself.
        t.(released := s.released || (t.List() == [] && !s.AtCurrent(id)), trace := s.trace + [Removed(id)])
  }

  function ActAll(s: Cursor, acts: seq<Action>): Cursor
    decreases |acts|
  {
    if acts == [] || s.released then s else ActAll(Act(s, acts[0]), acts[1..])
  }

  function CallNext(s: Cursor): Cursor
    requires s.rest != []
  {
    s.(visited := s.visited + [s.rest[0]], rest := s.rest[1..], trace := s.trace + [Called(s.rest[0])])
  }

  // What the handler that runs next does: nothing once the script is used up.
  function Head(script: seq<seq<Action>>): seq<Action> {
    if script == [] then [] else script[0]
  }

  function Tail(script: seq<seq<Action>>): seq<seq<Action>> {
    if script == [] then [] else script[1..]
  }

  // One event is handed round; the k-th handler that runs does script[k].
  function Enumerate(s: Cursor, script: seq<seq<Action>>): Cursor
    decreases |script|, |s.rest|
  {
    if s.rest == [] || s.released then s
    else Enumerate(ActAll(CallNext(s), Head(script)), Tail(script))
  }

  // ---- What every handler does keeps ----------------------------------------------

  ghost predicate Ascending(s: seq<nat>) {
    forall i, j :: 0 <= i < j < |s| ==> s[i] < s[j]
  }

  ghost predicate CalledIn(trace: seq<Entry>, id: nat) {
    exists i :: 0 <= i < |trace| && trace[i] == Called(id)
  }

  // Calls go up in subscription order, so no one is called twice; and no one
  // is called after being removed.
  ghost predicate Safe(trace: seq<Entry>) {
    forall i, j :: 0 <= i < j < |trace| && trace[j].Called? ==>
      (trace[i].Called? ==> trace[i].id < trace[j].id) && trace[i] != Removed(trace[j].id)
  }

  ghost predicate Inv(s: Cursor) {
    && Ascending(s.visited + s.rest)
    && (forall x :: x in s.visited ==> x < s.nextId && CalledIn(s.trace, x) && !RemovedIn(s.trace, x))
    && (forall x :: x in s.rest ==> x < s.nextId && AllBefore(s.trace, x) && !RemovedIn(s.trace, x))
    && (forall i :: 0 <= i < |s.trace| ==> s.trace[i].id < s.nextId)
    && Safe(s.trace)
  }

  ghost predicate RemovedIn(trace: seq<Entry>, id: nat) {
    exists i :: 0 <= i < |trace| && trace[i] == Removed(id)
  }

  // Everyone called so far subscribed before `id`.
  ghost predicate AllBefore(trace: seq<Entry>, id: nat) {
    forall i :: 0 <= i < |trace| && trace[i].Called? ==> trace[i].id < id
  }

  lemma CutAscends(s: seq<nat>, k: nat)
    requires Ascending(s) && k < |s|
    ensures Ascending(Cut(s, k))
  {
  }

  lemma CutMembers(s: seq<nat>, k: nat)
    requires Ascending(s) && k < |s|
    ensures forall x :: x in Cut(s, k) <==> x in s && x != s[k]
  {
    var t := Cut(s, k);
    forall x | x in s && x != s[k] ensures x in t {
      var i :| 0 <= i < |s| && s[i] == x;
      assert t[if i < k then i else i - 1] == x;
    }
  }

  lemma CutLeft(a: seq<nat>, b: seq<nat>, k: nat)
    requires k < |a|
    ensures Cut(a, k) + b == Cut(a + b, k)
  {
  }

  lemma CutRight(a: seq<nat>, b: seq<nat>, k: nat)
    requires k < |b|
    ensures a + Cut(b, k) == Cut(a + b, |a| + k)
  {
  }

  lemma AscendingParts(a: seq<nat>, b: seq<nat>)
    requires Ascending(a + b)
    ensures Ascending(a) && Ascending(b)
    ensures forall i, j :: 0 <= i < |a| && 0 <= j < |b| ==> a[i] < b[j]
  {
    forall i, j | 0 <= i < j < |a| ensures a[i] < a[j] { assert (a + b)[i] < (a + b)[j]; }
    forall i, j | 0 <= i < j < |b| ensures b[i] < b[j] { assert (a + b)[|a| + i] < (a + b)[|a| + j]; }
    forall i, j | 0 <= i < |a| && 0 <= j < |b| ensures a[i] < b[j] { assert (a + b)[i] < (a + b)[|a| + j]; }
  }

  // A removal cuts one place out of the list, whichever part it is in.
  lemma WithoutLeft(a: seq<nat>, b: seq<nat>, id: nat)
    requires Ascending(a + b) && id in a
    ensures id !in b && Without(a, id) + b == Cut(a + b, Find(a, id)) && Ascending(Without(a, id) + b)
    ensures forall x :: x in Without(a, id) <==> x in a && x != id
  {
    var k := Find(a, id);
    CutLeft(a, b, k);
    CutAscends(a + b, k);
    assert id !in b && forall x :: x in Cut(a, k) <==> x in a && x != id by {
      AscendingParts(a, b);
      CutMembers(a, k);
    }
  }

  lemma WithoutIsCut(b: seq<nat>, id: nat)
    requires id in b
    ensures Without(b, id) == Cut(b, Find(b, id)) && b[Find(b, id)] == id
  {
  }

  lemma WithoutRight(a: seq<nat>, b: seq<nat>, id: nat)
    requires Ascending(a + b) && id in b
    ensures id !in a && a + Without(b, id) == Cut(a + b, |a| + Find(b, id)) && Ascending(a + Without(b, id))
    ensures forall x :: x in Without(b, id) <==> x in b && x != id
  {
    WithoutIsCut(b, id);
    CutFromRight(a, b, Find(b, id));
  }

  lemma CutFromRight(a: seq<nat>, b: seq<nat>, k: nat)
    requires Ascending(a + b) && k < |b|
    ensures b[k] !in a && a + Cut(b, k) == Cut(a + b, |a| + k) && Ascending(a + Cut(b, k))
    ensures forall x :: x in Cut(b, k) <==> x in b && x != b[k]
  {
    CutRight(a, b, k);
    CutAscends(a + b, |a| + k);
    AscendingParts(a, b);
    CutMembers(b, k);
  }

  // An entry that is not a call keeps the trace safe.
  lemma OneMoreEntry(trace: seq<Entry>, e: Entry)
    requires Safe(trace) && !e.Called?
    ensures Safe(trace + [e])
    ensures forall x :: CalledIn(trace + [e], x) <==> CalledIn(trace, x)
    ensures forall x :: AllBefore(trace + [e], x) <==> AllBefore(trace, x)
    ensures forall x :: RemovedIn(trace + [e], x) <==> RemovedIn(trace, x) || e == Removed(x)
  {
    var t := trace + [e];
    assert forall i :: 0 <= i < |trace| ==> t[i] == trace[i];
    forall x ensures CalledIn(t, x) <==> CalledIn(trace, x) {
      if CalledIn(trace, x) {
        var i :| 0 <= i < |trace| && trace[i] == Called(x);
        assert t[i] == Called(x);
      }
    }
    forall x ensures AllBefore(t, x) <==> AllBefore(trace, x) {
      if AllBefore(t, x) {
        forall i | 0 <= i < |trace| && trace[i].Called? ensures trace[i].id < x { assert t[i] == trace[i]; }
      }
    }
    forall x ensures RemovedIn(t, x) <==> RemovedIn(trace, x) || e == Removed(x) {
      if RemovedIn(trace, x) {
        var i :| 0 <= i < |trace| && trace[i] == Removed(x);
        assert t[i] == Removed(x);
      }
      if e == Removed(x) { assert t[|trace|] == Removed(x); }
    }
  }

  lemma NewIdIsFree(s: Cursor)
    requires Inv(s)
    ensures AllBefore(s.trace, s.nextId) && !RemovedIn(s.trace, s.nextId)
  {
  }

  lemma AppendKeepsInv(s: Cursor)
    requires Inv(s)
    ensures Inv(Act(s, Append))
  {
    AscendingMore(s.visited, s.rest, s.nextId);
    OneMoreEntry(s.trace, Appended(s.nextId));
    NewIdIsFree(s);
  }

  lemma RemoveKeepsInv(s: Cursor, id: nat)
    requires Inv(s)
    ensures Inv(Act(s, Remove(id)))
  {
    if id in s.List() {
      if id in s.visited {
        WithoutLeft(s.visited, s.rest, id);
      } else {
        WithoutRight(s.visited, s.rest, id);
      }
      OneMoreEntry(s.trace, Removed(id));
    }
  }

  lemma AscendingMore(a: seq<nat>, b: seq<nat>, x: nat)
    requires Ascending(a + b)
    requires (forall y :: y in a ==> y < x) && (forall y :: y in b ==> y < x)
    ensures Ascending(a + (b + [x]))
  {
    forall i, j | 0 <= i < j < |a| + |b| + 1 ensures (a + (b + [x]))[i] < (a + (b + [x]))[j] {
      if j < |a| + |b| {
        assert (a + b)[i] < (a + b)[j];
      } else if i < |a| {
        assert a[i] in a;
      } else {
        assert b[i - |a|] in b;
      }
    }
  }

  lemma CallKeepsInv(s: Cursor)
    requires Inv(s) && s.rest != []
    ensures Inv(CallNext(s))
  {
    var t := CallNext(s);
    var id := s.rest[0];
    assert id in s.rest;
    assert t.visited + t.rest == s.visited + s.rest;
    AscendingParts(s.visited, s.rest);
    forall x | x in s.visited ensures CalledIn(t.trace, x) && !RemovedIn(t.trace, x) {
      var i :| 0 <= i < |s.trace| && s.trace[i] == Called(x);
      assert t.trace[i] == Called(x);
    }
    assert t.trace[|s.trace|] == Called(id);
    forall x | x in t.rest ensures x in s.rest && id < x && AllBefore(t.trace, x) && !RemovedIn(t.trace, x) {
    }
  }

  lemma {:induction false} ActAllKeepsInv(s: Cursor, acts: seq<Action>)
    requires Inv(s)
    ensures Inv(ActAll(s, acts))
    decreases |acts|
  {
    if acts != [] && !s.released {
      if acts[0].Append? { AppendKeepsInv(s); } else { RemoveKeepsInv(s, acts[0].id); }
      ActAllKeepsInv(Act(s, acts[0]), acts[1..]);
    }
  }

  lemma {:induction false} EnumerateKeepsInv(s: Cursor, script: seq<seq<Action>>)
    requires Inv(s)
    ensures Inv(Enumerate(s, script))
    ensures !Enumerate(s, script).released ==> Enumerate(s, script).rest == []
    decreases |script|, |s.rest|
  {
    if s.rest != [] && !s.released {
      CallKeepsInv(s);
      ActAllKeepsInv(CallNext(s), Head(script));
      EnumerateKeepsInv(ActAll(CallNext(s), Head(script)), Tail(script));
    }
  }

  function Start(list: seq<nat>, nextId: nat): Cursor {
    Cursor([], list, nextId, false, [])
  }

  // Main result: whatever the handlers do, they are called in subscription order,
  // nobody twice and nobody after being removed; and unless the list was released
  // under the cursor, everybody still subscribed at the end was called.
  lemma CursorSafety(list: seq<nat>, nextId: nat, script: seq<seq<Action>>)
    requires Ascending(list) && forall x :: x in list ==> x < nextId
    ensures var r := Enumerate(Start(list, nextId), script);
            && Safe(r.trace) && Ascending(r.List())
            && (!r.released ==> forall x :: x in r.List() ==> CalledIn(r.trace, x))
            && (forall x :: x in r.List() ==> !RemovedIn(r.trace, x))
  {
    assert [] + list == list;
    EnumerateKeepsInv(Start(list, nextId), script);
  }

  // What a handler does to the list: a subscription goes to its end under a new number, one that
  // is given up leaves it, the others keep their order; and who was called stays called.
  lemma ActMeans(s: Cursor, a: Action)
    requires Inv(s)
    ensures a.Append? ==>
              && Act(s, a).List() == s.List() + [s.nextId] && s.nextId !in s.List()
              && Act(s, a).nextId == s.nextId + 1 && Act(s, a).visited == s.visited
    ensures a.Remove? ==>
              && Ascending(Act(s, a).List()) && Act(s, a).nextId == s.nextId
              && (forall x :: x in Act(s, a).List() <==> x in s.List() && x != a.id)
              && (forall x :: x in Act(s, a).visited <==> x in s.visited && x != a.id)
  {
    if a.Append? {
      assert s.visited + (s.rest + [s.nextId]) == s.visited + s.rest + [s.nextId];
    } else if a.id in s.visited {
      WithoutLeft(s.visited, s.rest, a.id);
    } else if a.id in s.rest {
      WithoutRight(s.visited, s.rest, a.id);
    }
  }

  // ---- The one unsafe case --------------------------------------------------------

  // The list is released while an event goes round exactly when the last
  // subscription left is removed and the cursor is not on it.
  lemma ReleaseIff(s: Cursor, id: nat)
    requires Inv(s) && !s.released
    ensures Act(s, Remove(id)).released <==> s.visited == [] && s.rest == [id]
  {
    if id in s.visited {
      WithoutLeft(s.visited, s.rest, id);
      assert s.visited[Find(s.visited, id)] == id;
    } else if id in s.rest {
      WithoutRight(s.visited, s.rest, id);
      if s.visited == [] && |s.rest| == 1 { assert s.rest == [id]; }
    }
  }

  // The first handler unsubscribes itself, which takes the cursor off the list, and
  // then the only other subscription: the list is gone while the event still goes round.
  lemma ReleasedUnderCursor()
    ensures Enumerate(Start([0, 1], 2), [[Remove(0), Remove(1)]]).released
  {
    var s := CallNext(Start([0, 1], 2));
    assert s.visited == [0] && s.rest == [1];
    var t := Act(s, Remove(0));
    assert Without([0], 0) == [] && t.visited == [] && t.rest == [1];
    var u := Act(t, Remove(1));
    assert Without([1], 1) == [] && u.released;
    assert ActAll(s, [Remove(0), Remove(1)]) == ActAll(t, [Remove(1)]) by {
      assert [Remove(0), Remove(1)][1..] == [Remove(1)];
    }
    assert ActAll(t, [Remove(1)]) == ActAll(u, []);
    assert Head([[Remove(0), Remove(1)]]) == [Remove(0), Remove(1)];
  }

  // ---- The linked list itself --------------------------------------------------------

  class Node {
    const id: nat
    var next: Node?
    var prev: Node?

    constructor (id: nat)
      ensures this.id == id && next == null && prev == null
    {
      this.id := id;
      next, prev := null, null;
    }
  }

  ghost predicate Links(list: seq<Node>, first: Node?, last: Node?)
    reads list
  {
    && (forall i {:trigger list[i].prev} :: 0 <= i < |list| ==> list[i].prev == if i == 0 then null else list[i - 1])
    && (forall i {:trigger list[i].next} :: 0 <= i < |list| ==>
          list[i].next == if i == |list| - 1 then null else list[i + 1])
    && first == (if list == [] then null else list[0])
    && last == (if list == [] then null else list[|list| - 1])
  }

  // No node is in the list twice.
  ghost predicate Distinct(list: seq<Node>) {
    forall i, j :: 0 <= i < j < |list| ==> list[i] != list[j]
  }

  method LinkBack(ghost list: seq<Node>, begin0: Node?, end0: Node?, node: Node)
    returns (begin: Node?, end: Node?)
    requires Links(list, begin0, end0) && Distinct(list)
    requires node !in list && node.next == null && node.prev == null
    modifies list, node
    ensures Links(list + [node], begin, end)
  {
    begin, end := begin0, end0;
    if begin != null {
      end.next := node;
      node.prev := end;
      end := node;
    } else {
      begin := node;
      end := node;
    }
  }

  method Unlink(ghost list: seq<Node>, ghost k: nat, begin0: Node?, end0: Node?, node: Node)
    returns (begin: Node?, end: Node?)
    requires Links(list, begin0, end0) && Distinct(list) && k < |list| && list[k] == node
    modifies list
    ensures Links(Cut(list, k), begin, end)
    ensures node.prev == old(node.prev)
  {
    begin, end := begin0, end0;
    assert k > 0 ==> list[k - 1] != node;
    assert k + 1 < |list| ==> list[k + 1] != node;
    if node.prev != null {
      node.prev.next := node.next;
    }
    if node.next != null {
      node.next.prev := node.prev;
    }
    if begin == node {
      begin := node.next;
    }
    if end == node {
      end := node.prev;
    }
  }

  // The node the cursor is on when `n` nodes were visited.
  function NodeBefore(list: seq<Node>, n: nat): Node?
    requires n <= |list|
  {
    if n == 0 then null else list[n - 1]
  }

  lemma CutBefore(list: seq<Node>, k: nat, n: nat)
    requires Distinct(list) && k < |list| && n <= |list|
    ensures NodeBefore(list, n) == list[k] <==> k == n - 1
    ensures NodeBefore(Cut(list, k), if k < n then n - 1 else n) == NodeBefore(list, if k == n - 1 then k else n)
  {
  }

  // The begin and end pointers with the nodes between them, and their numbers.
  class Chain {
    var begin: Node?
    var end: Node?
    ghost var list: seq<Node>
    ghost var ids: seq<nat>

    ghost predicate Valid()
      reads this, list
    {
      Links(list, begin, end) && Distinct(list) && |ids| == |list|
      && forall i {:trigger ids[i]} :: 0 <= i < |list| ==> list[i].id == ids[i]
    }

    constructor ()
      ensures Valid() && list == [] && ids == []
    {
      begin, end, list, ids := null, null, [], [];
    }

    method PushBack(node: Node)
      requires Valid() && node !in list && node.next == null && node.prev == null
      modifies this, list, node
      ensures Valid() && list == old(list) + [node] && ids == old(ids) + [node.id]
    {
      begin, end := LinkBack(list, begin, end, node);
      list := list + [node];
      ids := ids + [node.id];
    }

    method Erase(node: Node, ghost k: nat)
      requires Valid() && k < |list| && list[k] == node
      modifies this, list
      ensures Valid() && list == Cut(old(list), k) && ids == Cut(old(ids), k)
      ensures node.prev == NodeBefore(old(list), k) && (begin == null <==> |list| == 0)
    {
      begin, end := Unlink(list, k, begin, end, node);
      list := Cut(list, k);
      ids := Cut(ids, k);
    }
  }

  lemma FindIs(ids: seq<nat>, k: nat)
    requires Ascending(ids) && k < |ids|
    ensures Find(ids, ids[k]) == k && Without(ids, ids[k]) == Cut(ids, k)
  {
    assert forall j :: 0 <= j < |ids| && j != k ==> ids[j] != ids[k];
  }

  // `t` is `s` without the k-th place of its list.
  ghost predicate Removes(s: Cursor, k: nat, t: Cursor) {
    && k < |s.visited + s.rest| && t.visited + t.rest == Cut(s.visited + s.rest, k)
    && |t.visited| == (if k < |s.visited| then |s.visited| - 1 else |s.visited|)
    && t.nextId == s.nextId && t.trace == s.trace + [Removed((s.visited + s.rest)[k])]
    && t.released == (s.released || (|s.visited + s.rest| == 1 && k != |s.visited| - 1))
  }

  lemma RemoveVisited(s: Cursor, k: nat)
    requires Ascending(s.visited + s.rest) && k < |s.visited|
    ensures Removes(s, k, Act(s, Remove(s.visited[k])))
  {
    AscendingParts(s.visited, s.rest);
    FindIs(s.visited, k);
    CutLeft(s.visited, s.rest, k);
    assert s.visited[k] in s.List();
    assert s.AtCurrent(s.visited[k]) <==> k == |s.visited| - 1;
  }

  lemma RemoveUnvisited(s: Cursor, k: nat)
    requires Ascending(s.visited + s.rest) && k < |s.rest|
    ensures Removes(s, |s.visited| + k, Act(s, Remove(s.rest[k])))
  {
    AscendingParts(s.visited, s.rest);
    FindIs(s.rest, k);
    CutRight(s.visited, s.rest, k);
    assert s.rest[k] in s.List() && s.rest[k] !in s.visited;
    assert !s.AtCurrent(s.rest[k]);
  }

  lemma RemovePlace(s: Cursor, k: nat)
    requires Ascending(s.visited + s.rest) && k < |s.visited + s.rest|
    ensures Removes(s, k, Act(s, Remove((s.visited + s.rest)[k])))
  {
    if k < |s.visited| { RemoveVisited(s, k); } else { RemoveUnvisited(s, k - |s.visited|); }
  }

  ghost predicate Ordered(s: Cursor) {
    Ascending(s.visited + s.rest) && forall x :: x in s.visited + s.rest ==> x < s.nextId
  }

  // The handles that were not destroyed are those of the nodes in the list.
  ghost predicate Registered(list: seq<Node>, ids: seq<nat>, handles: map<nat, Node>) {
    && |ids| == |list|
    && (forall k {:trigger ids[k]} :: 0 <= k < |ids| ==> ids[k] in handles && handles[ids[k]] == list[k])
    && (forall x :: x in handles ==> x in ids)
  }

  lemma AppendRegisters(list: seq<Node>, handles: map<nat, Node>, s: Cursor, node: Node)
    requires Registered(list, s.visited + s.rest, handles) && Ordered(s)
    ensures var t := Act(s, Append);
            t.visited + t.rest == (s.visited + s.rest) + [s.nextId] && Ordered(t)
            && Registered(list + [node], t.visited + t.rest, handles[s.nextId := node])
  {
    var ids := s.visited + s.rest;
    assert forall x :: x in s.visited || x in s.rest ==> x in ids;
    AscendingMore(s.visited, s.rest, s.nextId);
    assert s.visited + (s.rest + [s.nextId]) == ids + [s.nextId];
    assert s.nextId !in ids;
    forall k | 0 <= k < |ids| ensures ids[k] != s.nextId { assert ids[k] in ids; }
  }

  lemma CutRegisters(list: seq<Node>, ids: seq<nat>, handles: map<nat, Node>, k: nat)
    requires Registered(list, ids, handles) && Ascending(ids) && k < |ids|
    ensures Registered(Cut(list, k), Cut(ids, k), handles - {ids[k]})
  {
    CutMembers(ids, k);
    var left := Cut(ids, k);
    forall j {:trigger left[j]} | 0 <= j < |left|
      ensures left[j] in handles - {ids[k]} && handles[left[j]] == Cut(list, k)[j]
    {
      assert left[j] in left;
      assert left[j] == ids[if j < k then j else j + 1];
    }
  }

  lemma CutOrders(s: Cursor, k: nat, t: Cursor)
    requires Ordered(s) && Removes(s, k, t)
    ensures Ordered(t)
  {
    CutAscends(s.visited + s.rest, k);
    CutMembers(s.visited + s.rest, k);
  }

  lemma DestroyPlace(list: seq<Node>, handles: map<nat, Node>, s: Cursor, id: nat) returns (k: nat)
    requires Registered(list, s.visited + s.rest, handles) && Ordered(s) && id in handles
    ensures k < |list| && list[k] == handles[id] && (s.visited + s.rest)[k] == id
    ensures var t := Act(s, Remove(id));
            Removes(s, k, t) && Ordered(t) && Registered(Cut(list, k), t.visited + t.rest, handles - {id})
  {
    var ids := s.visited + s.rest;
    k :| 0 <= k < |ids| && ids[k] == id;
    RemovePlace(s, k);
    CutOrders(s, k, Act(s, Remove(id)));
    CutRegisters(list, ids, handles, k);
  }

  lemma NoHandle(list: seq<Node>, handles: map<nat, Node>, s: Cursor, id: nat)
    requires Registered(list, s.visited + s.rest, handles) && id !in handles
    ensures Act(s, Remove(id)) == s
  {
    assert forall k {:trigger (s.visited + s.rest)[k]} :: 0 <= k < |s.visited + s.rest| ==>
      (s.visited + s.rest)[k] in handles;
    assert id !in s.visited + s.rest;
  }

  class ObservableData {
    const nodes: Chain
    var current: Node?
    var released: bool
    var nextId: nat
    var trace: seq<Entry>
    ghost var view: Cursor

    // Everything but the cursor is as in the view.
    ghost predicate Follows()
      reads this, nodes, nodes.list
    {
      && nodes.Valid() && nodes.ids == view.visited + view.rest
      && view.nextId == nextId && view.released == released && view.trace == trace
    }

    ghost predicate Valid()
      reads this, nodes, nodes.list
    {
      Follows() && current == NodeBefore(nodes.list, |view.visited|)
    }

    // The cursor has come to a node whose handler was not called yet.
    ghost predicate AtNext()
      reads this, nodes, nodes.list
    {
      Follows() && view.rest != [] && current == nodes.list[|view.visited|]
    }

    constructor ()
      ensures Valid() && nodes.list == [] && view == Start([], 0) && fresh(nodes)
    {
      nodes := new Chain();
      current, released, nextId, trace := null, false, 0, [];
      view := Start([], 0);
    }

    method Append() returns (node: Node)
      requires Valid()
      modifies this, nodes, nodes.list
      ensures Valid() && view == Act(old(view), Action.Append)
      ensures fresh(node) && node.id == old(nextId) && nodes.list == old(nodes.list) + [node]
    {
      node := new Node(nextId);
      nodes.PushBack(node);
      nextId := nextId + 1;
      trace := trace + [Appended(node.id)];
      view := Act(view, Action.Append);
    }

    method EraseNode(node: Node, ghost k: nat, ghost after: Cursor)
      requires Follows() && k < |nodes.list| && nodes.list[k] == node && Removes(view, k, after)
      modifies this`trace, nodes, nodes.list
      ensures nodes.Valid() && nodes.list == Cut(old(nodes.list), k) && nodes.ids == after.visited + after.rest
      ensures node.prev == NodeBefore(old(nodes.list), k) && (nodes.begin == null <==> |nodes.list| == 0)
      ensures trace == after.trace
    {
      ghost var ids := view.visited + view.rest;
      nodes.Erase(node, k);
      assert node.id == ids[k];
      trace := trace + [Removed(node.id)];
    }

    method RemoveNode(node: Node, ghost k: nat, ghost after: Cursor)
      requires Valid() && k < |nodes.list| && nodes.list[k] == node && Removes(view, k, after)
      modifies this, nodes, nodes.list
      ensures Valid() && view == after && nodes.list == Cut(old(nodes.list), k)
    {
      CutBefore(nodes.list, k, |view.visited|);
      EraseNode(node, k, after);
      view := after;
      if current == node {
        current := node.prev;
      } else if nodes.begin == null {
        released := true;
      }
    }

    // What a handler does, with the handles it and everybody else hold.
    method RunHandler(acts: seq<Action>, handles0: map<nat, Node>) returns (handles: map<nat, Node>)
      requires Valid() && Ordered(view) && Registered(nodes.list, nodes.ids, handles0)
      modifies this, nodes, nodes.list
      ensures Valid() && Ordered(view) && Registered(nodes.list, nodes.ids, handles)
      ensures view == ActAll(old(view), acts)
      ensures forall n :: n in nodes.list ==> n in old(nodes.list) || fresh(n)
      decreases |acts|
    {
      handles := handles0;
      if acts == [] || released { return; }
      handles := RunAct(acts[0], handles);
      assert forall k :: 0 <= k < |nodes.list| ==> nodes.list[k] in nodes.list;
      handles := RunHandler(acts[1..], handles);
    }

    // Subscribing, or giving up a subscription if it is still there.
    method RunAct(act: Action, handles0: map<nat, Node>) returns (handles: map<nat, Node>)
      requires Valid() && Ordered(view) && Registered(nodes.list, nodes.ids, handles0)
      modifies this, nodes, nodes.list
      ensures Valid() && Ordered(view) && Registered(nodes.list, nodes.ids, handles)
      ensures view == Act(old(view), act)
      ensures forall n :: n in nodes.list ==> n in old(nodes.list) || fresh(n)
    {
      handles := handles0;
      match act {
        case Append =>
          ghost var list := nodes.list;
          var node := Append();
          AppendRegisters(list, handles, old(view), node);
          handles := handles[node.id := node];
        case Remove(id) =>
          if id in handles {
            ghost var k := DestroyPlace(nodes.list, handles, view, id);
            RemoveNode(handles[id], k, Act(view, Remove(id)));
            handles := handles - {id};
          } else {
            NoHandle(nodes.list, handles, view, id);
          }
      }
    }

    // Calling the handler the cursor has just come to.
    method CallCurrent(acts: seq<Action>, handles0: map<nat, Node>) returns (handles: map<nat, Node>)
      requires AtNext()
      requires Ordered(view) && Registered(nodes.list, nodes.ids, handles0)
      modifies this, nodes, nodes.list
      ensures Valid() && Ordered(view) && Registered(nodes.list, nodes.ids, handles)
      ensures view == ActAll(CallNext(old(view)), acts)
      ensures forall n :: n in nodes.list ==> n in old(nodes.list) || fresh(n)
    {
      assert (view.visited + [view.rest[0]]) + view.rest[1..] == view.visited + view.rest;
      assert nodes.ids[|view.visited|] == view.rest[0];
      trace := trace + [Called(current.id)];
      view := CallNext(view);
      handles := RunHandler(acts, handles0);
    }

    // To the node after the cursor, or the first when the cursor is before it.
    method MoveOn()
      requires Valid()
      modifies this`current
      ensures current == if view.rest == [] then null else nodes.list[|view.visited|]
    {
      assert forall k :: 0 <= k < |nodes.list| ==> nodes.list[k] in nodes.list;
      if current != null {
        current := current.next;
      } else if nodes.begin != null {
        current := nodes.begin;
      }
    }

    // One handler is called, and the cursor goes on unless the list was released.
    method Round(acts: seq<Action>, handles0: map<nat, Node>) returns (handles: map<nat, Node>)
      requires AtNext()
      requires Ordered(view) && Registered(nodes.list, nodes.ids, handles0)
      modifies this, nodes, nodes.list
      ensures Follows() && Ordered(view) && Registered(nodes.list, nodes.ids, handles)
      ensures view == ActAll(CallNext(old(view)), acts)
      ensures !released ==> if view.rest == [] then current == null else AtNext()
      ensures forall n :: n in nodes.list ==> n in old(nodes.list) || fresh(n)
    {
      handles := CallCurrent(acts, handles0);
      if !released { MoveOn(); }
    }

    // The cursor is off the list: no node counts as visited any more.
    ghost method LeaveList()
      requires Follows() && current == null && Ordered(view)
      modifies this`view
      ensures Valid() && Ordered(view)
      ensures view == old(view).(visited := [], rest := old(view).visited + old(view).rest)
    {
      view := view.(visited := [], rest := view.visited + view.rest);
      assert [] + view.rest == view.rest;
    }

    // The loop stops where the list was released; whatever follows there works on freed memory.
    method NotifyEnumerate(script: seq<seq<Action>>, handles0: map<nat, Node>)
      returns (handles: map<nat, Node>, ghost after: Cursor)
      requires Valid() && Ordered(view) && Registered(nodes.list, nodes.ids, handles0)
      requires nodes.begin != null && view.visited == [] && !released
      modifies this, nodes, nodes.list
      ensures forall n :: n in nodes.list ==> n in old(nodes.list) || fresh(n)
      ensures after == Enumerate(old(view), script)
      ensures Registered(nodes.list, nodes.ids, handles) && Ordered(view)
      ensures !released ==> Valid() && view == after.(visited := [], rest := after.visited + after.rest)
    {
      var acts := script;
      handles := handles0;
      after := view;
      current := nodes.begin;
      while true
        invariant AtNext() && after == view && !released
        invariant Ordered(view) && Registered(nodes.list, nodes.ids, handles)
        invariant Enumerate(after, acts) == Enumerate(old(view), script)
        invariant forall n :: n in nodes.list ==> n in old(nodes.list) || fresh(n)
        decreases |acts|, |after.rest|
      {
        assert forall k :: 0 <= k < |nodes.list| ==> nodes.list[k] in nodes.list;
        handles := Round(Head(acts), handles);
        after := view;
        acts := Tail(acts);
        if released { return; }
        if current == null { break; }
      }
      LeaveList();
    }
  }
}
