// A batch of messages goes to the session in the order of their ids.
module FeedMessages {
  import opened FlatMap

  // Ids are 32-bit and signed.
  datatype Message = Message(isMessage: bool, id: int)

  const WORD: nat := 0x1_0000_0000

  function Unsigned(id: int): nat {
    id % WORD
  }

  // A message that is already shown is left out, when the batch is of new messages.
  predicate Survives(msgs: seq<Message>, i: nat, unread: bool, inBlocks: nat -> bool)
    requires i < |msgs|
  {
    !(msgs[i].isMessage && unread && inBlocks(i))
  }

  // The id in the high word, the index in the low word.
  function Position(msgs: seq<Message>, i: nat): nat
    requires i < |msgs| <= WORD
  {
    Unsigned(msgs[i].id) * WORD + i
  }

  predicate Earlier(msgs: seq<Message>, i: nat, j: nat)
    requires i < |msgs| && j < |msgs|
  {
    var a, b := Unsigned(msgs[i].id), Unsigned(msgs[j].id);
    a < b || (a == b && i < j)
  }

  lemma PositionOrders(msgs: seq<Message>, i: nat, j: nat)
    requires i < |msgs| <= WORD && j < |msgs|
    ensures Position(msgs, i) < Position(msgs, j) <==> Earlier(msgs, i, j)
  {
    var a, b := Unsigned(msgs[i].id), Unsigned(msgs[j].id);
    if a < b { assert (a + 1) * WORD <= b * WORD; }
    if b < a { assert (b + 1) * WORD <= a * WORD; }
  }

  // A stable sort, by unsigned id, of the indices of the messages that survive.
  ghost predicate StableSort(msgs: seq<Message>, unread: bool, inBlocks: nat -> bool, order: seq<nat>) {
    && (forall k :: 0 <= k < |order| ==> order[k] < |msgs| && Survives(msgs, order[k], unread, inBlocks))
    && (forall i: nat :: i < |msgs| && Survives(msgs, i, unread, inBlocks) ==> i in order)
    && (forall k, l :: 0 <= k < l < |order| ==> Earlier(msgs, order[k], order[l]))
  }

  // There is one such order only.
  lemma {:induction false} StableSortIsUnique(
      msgs: seq<Message>, unread: bool, inBlocks: nat -> bool, a: seq<nat>, b: seq<nat>)
    requires StableSort(msgs, unread, inBlocks, a) && StableSort(msgs, unread, inBlocks, b)
    ensures a == b
  {
    SamePrefix(msgs, unread, inBlocks, a, b, |a|);
    SamePrefix(msgs, unread, inBlocks, b, a, |b|);
    assert a == a[..|a|] && b == b[..|b|];
  }

  lemma {:induction false} SamePrefix(
      msgs: seq<Message>, unread: bool, inBlocks: nat -> bool, a: seq<nat>, b: seq<nat>, n: nat)
    requires StableSort(msgs, unread, inBlocks, a) && StableSort(msgs, unread, inBlocks, b) && n <= |a|
    ensures n <= |b| && a[..n] == b[..n]
  {
    if n > 0 {
      var m := n - 1;
      SamePrefix(msgs, unread, inBlocks, a, b, m);
      var i := a[m];
      assert i in b;
      var l :| 0 <= l < |b| && b[l] == i;
      assert l >= m by { assert forall k :: 0 <= k < m ==> b[k] == a[..m][k]; }
      var j := b[m];
      assert j in a;
      var k :| 0 <= k < |a| && a[k] == j;
      assert k >= m by { assert forall k :: 0 <= k < m ==> b[..m][k] == a[k]; }
      var after, before := Earlier(msgs, j, i), Earlier(msgs, i, j);
      assert (l > m ==> after) && (k > m ==> before);
      assert a[..n] == a[..m] + [i] && b[..n] == b[..m] + [j];
    }
  }

  // The map holds exactly the survivors among the first `n` messages.
  ghost predicate Indexed(msgs: seq<Message>, unread: bool, inBlocks: nat -> bool, n: nat, impl: seq<Pair<nat>>)
    requires n <= |msgs| <= WORD
  {
    && Strict(impl)
    && (forall p :: p in impl ==>
          p.value < n && Survives(msgs, p.value, unread, inBlocks) && p.key == Position(msgs, p.value))
    && (forall i: nat :: i < n && Survives(msgs, i, unread, inBlocks) ==> Pair(Position(msgs, i), i) in impl)
  }

  lemma NewPosition(msgs: seq<Message>, unread: bool, inBlocks: nat -> bool, n: nat, impl: seq<Pair<nat>>)
    requires n < |msgs| <= WORD && Indexed(msgs, unread, inBlocks, n, impl)
    ensures Position(msgs, n) !in Contents(impl)
  {
    forall p | p in impl ensures p.key != Position(msgs, n) {
      PositionOrders(msgs, p.value, n);
      PositionOrders(msgs, n, p.value);
    }
  }

  lemma IndexedMore(msgs: seq<Message>, unread: bool, inBlocks: nat -> bool, n: nat,
                    before: seq<Pair<nat>>, after: seq<Pair<nat>>)
    requires n < |msgs| <= WORD && Indexed(msgs, unread, inBlocks, n, before) && Survives(msgs, n, unread, inBlocks)
    requires Strict(after) && Contents(after) == Contents(before)[Position(msgs, n) := n]
    ensures Indexed(msgs, unread, inBlocks, n + 1, after)
  {
    var x := Pair(Position(msgs, n), n);
    NewPosition(msgs, unread, inBlocks, n, before);
    forall p ensures p in after <==> p in before || p == x {
      ContentsMember(after, p);
      ContentsMember(before, p);
    }
    forall i: nat | i < n + 1 && Survives(msgs, i, unread, inBlocks) ensures Pair(Position(msgs, i), i) in after {
      assert i < n ==> Pair(Position(msgs, i), i) in before;
    }
  }

  lemma OrderedByIndex(msgs: seq<Message>, unread: bool, inBlocks: nat -> bool, impl: seq<Pair<nat>>, order: seq<nat>)
    requires |msgs| <= WORD && Indexed(msgs, unread, inBlocks, |msgs|, impl)
    requires |order| == |impl| && forall k :: 0 <= k < |impl| ==> order[k] == impl[k].value
    ensures StableSort(msgs, unread, inBlocks, order)
  {
    forall k | 0 <= k < |order| ensures order[k] < |msgs| && Survives(msgs, order[k], unread, inBlocks) {
      assert impl[k] in impl;
    }
    forall k, l | 0 <= k < l < |order| ensures Earlier(msgs, order[k], order[l]) {
      assert impl[k] in impl && impl[l] in impl;
      PositionOrders(msgs, order[k], order[l]);
    }
    forall i: nat | i < |msgs| && Survives(msgs, i, unread, inBlocks) ensures i in order {
      var k :| 0 <= k < |impl| && impl[k] == Pair(Position(msgs, i), i);
      assert order[k] == i;
    }
  }

  // Every survivor is added to the session once, in the order of a stable sort by id.
  method FeedMsgs(msgs: seq<Message>, unread: bool, inBlocks: nat -> bool) returns (added: seq<nat>)
    requires |msgs| <= WORD
    ensures StableSort(msgs, unread, inBlocks, added)
  {
    var indices := new FlatMap<nat>();
    for i := 0 to |msgs|
      invariant indices.Valid() && Indexed(msgs, unread, inBlocks, i, indices.impl)
    {
      if msgs[i].isMessage && unread && inBlocks(i) { continue; }
      NewPosition(msgs, unread, inBlocks, i, indices.impl);
      ghost var before := indices.impl;
      var _, _ := indices.Insert(Pair(Unsigned(msgs[i].id) * WORD + i, i));
      IndexedMore(msgs, unread, inBlocks, i, before, indices.impl);
    }
    added := [];
    for k := 0 to |indices.impl|
      invariant |added| == k && forall l :: 0 <= l < k ==> added[l] == indices.impl[l].value
    {
      added := added + [indices.impl[k].value];
    }
    OrderedByIndex(msgs, unread, inBlocks, indices.impl, added);
  }
}
