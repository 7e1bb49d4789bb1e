// Maps and sets kept as sorted deques. Keys are compared with `<`.
module FlatMap {
  import opened Options

  datatype Pair<+T> = Pair(key: int, value: T)

  predicate Sorted<T>(s: seq<Pair<T>>) {
    forall i, j :: 0 <= i < j < |s| ==> s[i].key <= s[j].key
  }

  predicate Strict<T>(s: seq<Pair<T>>) {
    forall i, j :: 0 <= i < j < |s| ==> s[i].key < s[j].key
  }

  // The first place with a key not below `key`.
  function LowerBound<T>(s: seq<Pair<T>>, key: int): (i: nat)
    ensures i <= |s| && (forall j :: 0 <= j < i ==> s[j].key < key)
    ensures i < |s| ==> key <= s[i].key
  {
    if s == [] || key <= s[0].key then 0 else 1 + LowerBound(s[1..], key)
  }

  // The first place with a key above `key`.
  function UpperBound<T>(s: seq<Pair<T>>, key: int): (i: nat)
    ensures i <= |s| && (forall j :: 0 <= j < i ==> s[j].key <= key)
    ensures i < |s| ==> key < s[i].key
  {
    if s == [] || key < s[0].key then 0 else 1 + UpperBound(s[1..], key)
  }

  function Inserted<T>(s: seq<Pair<T>>, i: nat, p: Pair<T>): seq<Pair<T>>
    requires i <= |s|
  {
    s[..i] + [p] + s[i..]
  }

  function Erased<T>(s: seq<Pair<T>>, i: nat, j: nat): seq<Pair<T>>
    requires i <= j <= |s|
  {
    s[..i] + s[j..]
  }

  // ---- Many values per key -------------------------------------------------------------

  // The values of one key, in order.
  function Group<T>(s: seq<Pair<T>>, key: int): seq<T> {
    if s == [] then []
    else Group(s[..|s| - 1], key) + if s[|s| - 1].key == key then [s[|s| - 1].value] else []
  }

  lemma {:induction false} GroupOfSum<T>(a: seq<Pair<T>>, b: seq<Pair<T>>, key: int)
    ensures Group(a + b, key) == Group(a, key) + Group(b, key)
    decreases |b|
  {
    if b == [] {
      assert a + b == a;
    } else {
      GroupOfSum(a, b[..|b| - 1], key);
      assert (a + b)[..|a + b| - 1] == a + b[..|b| - 1];
    }
  }

  lemma {:induction false} GroupNone<T>(s: seq<Pair<T>>, key: int)
    requires forall i :: 0 <= i < |s| ==> s[i].key != key
    ensures Group(s, key) == []
  {
    if s != [] { GroupNone(s[..|s| - 1], key); }
  }

  lemma {:induction false} GroupAll<T>(s: seq<Pair<T>>, key: int)
    requires forall i :: 0 <= i < |s| ==> s[i].key == key
    ensures |Group(s, key)| == |s| && forall i :: 0 <= i < |s| ==> Group(s, key)[i] == s[i].value
  {
    if s != [] { GroupAll(s[..|s| - 1], key); }
  }

  lemma GroupOfThree<T>(a: seq<Pair<T>>, m: seq<Pair<T>>, b: seq<Pair<T>>, key: int)
    ensures Group(a + m + b, key) == Group(a, key) + Group(m, key) + Group(b, key)
  {
    GroupOfSum(a + m, b, key);
    GroupOfSum(a, m, key);
  }

  lemma GroupOfOne<T>(p: Pair<T>, key: int)
    ensures Group([p], key) == if key == p.key then [p.value] else []
  {
    assert [p][..0] == [];
  }

  // Inserting after the equal keys puts the value at the end of its group.
  lemma InsertedGroup<T>(s: seq<Pair<T>>, i: nat, p: Pair<T>, key: int)
    requires i <= |s| && forall j :: i <= j < |s| ==> p.key < s[j].key
    ensures Group(Inserted(s, i, p), key) == Group(s, key) + if key == p.key then [p.value] else []
  {
    var a, b := s[..i], s[i..];
    assert s == a + b;
    GroupOfSum(a, b, key);
    GroupOfSum(a + [p], b, key);
    GroupPush(a, p, key);
    if key == p.key { GroupNone(b, key); }
  }

  lemma InsertedSorted<T>(s: seq<Pair<T>>, i: nat, p: Pair<T>)
    requires Sorted(s) && i <= |s|
    requires (i > 0 ==> s[i - 1].key <= p.key) && (i < |s| ==> p.key <= s[i].key)
    ensures Sorted(Inserted(s, i, p))
  {
  }

  // Taking out a stretch that holds one key only.
  lemma ErasedOther<T>(a: seq<Pair<T>>, m: seq<Pair<T>>, b: seq<Pair<T>>, key: int, k: int)
    requires k != key && forall n :: 0 <= n < |m| ==> m[n].key == key
    ensures Group(a + b, k) == Group(a + m + b, k)
  {
    GroupOfThree(a, m, b, k);
    GroupOfSum(a, b, k);
    GroupNone(m, k);
    assert Group(a, k) + [] == Group(a, k);
  }

  lemma ErasedOwn<T>(a: seq<Pair<T>>, m: seq<Pair<T>>, b: seq<Pair<T>>, key: int)
    requires forall n :: 0 <= n < |m| ==> m[n].key == key
    requires forall n :: 0 <= n < |a| ==> a[n].key != key
    ensures |Group(a + m + b, key)| >= |m| && Group(a + b, key) == Group(a + m + b, key)[|m|..]
  {
    GroupOfThree(a, m, b, key);
    GroupOfSum(a, b, key);
    GroupNone(a, key);
    GroupAll(m, key);
    Dropped(Group(m, key), Group(b, key));
  }

  lemma ErasedGroup<T>(s: seq<Pair<T>>, i: nat, j: nat, key: int, k: int)
    requires i <= j <= |s| && forall n :: i <= n < j ==> s[n].key == key
    requires k == key ==> forall n :: 0 <= n < i ==> s[n].key != key
    ensures k != key ==> Group(Erased(s, i, j), k) == Group(s, k)
    ensures k == key ==> |Group(s, k)| >= j - i && Group(Erased(s, i, j), k) == Group(s, k)[j - i..]
  {
    var a, m, b := s[..i], s[i..j], s[j..];
    assert s == a + m + b;
    if k == key { ErasedOwn(a, m, b, key); } else { ErasedOther(a, m, b, key, k); }
  }

  lemma Dropped<T>(a: seq<T>, b: seq<T>)
    ensures [] + a + b == a + b && [] + b == b && (a + b)[|a|..] == b
  {
  }

  lemma ErasedSorted<T>(s: seq<Pair<T>>, i: nat, j: nat)
    requires Sorted(s) && i <= j <= |s|
    ensures Sorted(Erased(s, i, j))
  {
  }

  // Where a key stands in a sorted deque.
  lemma KeyRange<T>(s: seq<Pair<T>>, key: int)
    requires Sorted(s)
    ensures var i, j := LowerBound(s, key), UpperBound(s, key);
            i <= j && forall k {:trigger s[k]} :: 0 <= k < |s| ==> (s[k].key == key <==> i <= k < j)
  {
    var i, j := LowerBound(s, key), UpperBound(s, key);
    assert forall k :: 0 <= k < i ==> s[k].key < key;
  }

  lemma GroupOfMiddle<T>(a: seq<Pair<T>>, m: seq<Pair<T>>, b: seq<Pair<T>>, key: int)
    requires forall n :: 0 <= n < |a| ==> a[n].key != key
    requires forall n :: 0 <= n < |m| ==> m[n].key == key
    requires forall n :: 0 <= n < |b| ==> b[n].key != key
    ensures Group(a + m + b, key) == Group(m, key)
    ensures |Group(m, key)| == |m| && forall n :: 0 <= n < |m| ==> Group(m, key)[n] == m[n].value
  {
    GroupOfThree(a, m, b, key);
    GroupNone(a, key);
    GroupAll(m, key);
    GroupNone(b, key);
  }

  lemma GroupSize<T>(s: seq<Pair<T>>, i: nat, j: nat, key: int)
    requires i <= j <= |s| && forall k {:trigger s[k]} :: 0 <= k < |s| ==> (s[k].key == key <==> i <= k < j)
    ensures |Group(s, key)| == j - i && forall k :: 0 <= k < j - i ==> Group(s, key)[k] == s[i + k].value
  {
    var a, m, b := s[..i], s[i..j], s[j..];
    assert s == a + m + b;
    forall n | 0 <= n < |a| ensures a[n].key != key { assert a[n] == s[n]; }
    forall n | 0 <= n < |m| ensures m[n].key == key && m[n].value == s[i + n].value { assert m[n] == s[i + n]; }
    forall n | 0 <= n < |b| ensures b[n].key != key { assert b[n] == s[j + n]; }
    GroupOfMiddle(a, m, b, key);
  }

  lemma {:induction false} GroupMember<T>(s: seq<Pair<T>>, i: nat)
    requires i < |s|
    ensures Group(s, s[i].key) != []
  {
    if i < |s| - 1 { GroupMember(s[..|s| - 1], i); }
  }

  lemma {:induction false} GroupSource<T>(s: seq<Pair<T>>, key: int) returns (i: nat)
    requires Group(s, key) != []
    ensures i < |s| && s[i].key == key
  {
    if s[|s| - 1].key == key { i := |s| - 1; } else { i := GroupSource(s[..|s| - 1], key); }
  }

  lemma LastKey<T>(s: seq<Pair<T>>, t: seq<Pair<T>>)
    requires Sorted(s) && t != [] && forall k :: Group(s, k) == Group(t, k)
    ensures s != [] && t[|t| - 1].key <= s[|s| - 1].key
  {
    var q := t[|t| - 1];
    GroupMember(t, |t| - 1);
    assert Group(s, q.key) == Group(t, q.key);
    var i := GroupSource(s, q.key);
  }

  lemma SameFront<T>(a: seq<Pair<T>>, p: Pair<T>, b: seq<Pair<T>>, q: Pair<T>, k: int)
    requires p.key == q.key && Group(a + [p], k) == Group(b + [q], k)
    ensures Group(a, k) == Group(b, k) && (k == p.key ==> p == q)
  {
    GroupOfSum(a, [p], k);
    GroupOfSum(b, [q], k);
    GroupOfOne(p, k);
    GroupOfOne(q, k);
    if k == p.key {
      SplitLast(Group(a, k), p.value, Group(b, k), q.value);
    } else {
      assert Group(a, k) + [] == Group(a, k) && Group(b, k) + [] == Group(b, k);
    }
  }

  lemma SplitLast<T>(a: seq<T>, x: T, b: seq<T>, y: T)
    requires a + [x] == b + [y]
    ensures a == b && x == y
  {
    assert |a + [x]| == |b + [y]|;
    assert (a + [x])[|a|] == x && (b + [y])[|b|] == y;
    assert a == (a + [x])[..|a|] && b == (b + [y])[..|b|];
  }

  // Main result: a sorted deque is nothing but its groups, so the laws above say all
  // there is to say about what an operation leaves behind.
  lemma {:induction false} GroupsDetermine<T>(s: seq<Pair<T>>, t: seq<Pair<T>>)
    requires Sorted(s) && Sorted(t) && forall k :: Group(s, k) == Group(t, k)
    ensures s == t
    decreases |s|, 1
  {
    if s == [] || t == [] {
      if s != [] { GroupMember(s, 0); }
      if t != [] { GroupMember(t, 0); }
    } else {
      LastKey(s, t);
      LastKey(t, s);
      GroupsDetermineTo(s[..|s| - 1], s[|s| - 1], t[..|t| - 1], t[|t| - 1], s, t);
    }
  }

  lemma {:induction false} GroupsDetermineTo<T>(
      a: seq<Pair<T>>, p: Pair<T>, b: seq<Pair<T>>, q: Pair<T>, s: seq<Pair<T>>, t: seq<Pair<T>>)
    requires s == a + [p] && t == b + [q] && Sorted(s) && Sorted(t) && p.key == q.key
    requires forall k :: Group(s, k) == Group(t, k)
    ensures s == t
    decreases |s|, 0
  {
    forall k ensures Group(a, k) == Group(b, k) && (k == p.key ==> p == q) {
      assert Group(s, k) == Group(t, k);
      SameFront(a, p, b, q, k);
    }
    assert Group(a, p.key) == Group(b, p.key);
    assert Sorted(a) && Sorted(b);
    GroupsDetermine(a, b);
  }

  // ---- One value per key -----------------------------------------------------------------

  ghost function Contents<T>(s: seq<Pair<T>>): map<int, T>
    requires Strict(s)
  {
    map p | p in s :: p.key := p.value
  }

  // Between which places of a strict deque a key belongs, when no place holds it.
  ghost predicate Fits<T>(s: seq<Pair<T>>, i: nat, key: int) {
    i <= |s| && (i > 0 ==> s[i - 1].key < key) && (i < |s| ==> key < s[i].key)
  }

  lemma FitsMeansAbsent<T>(s: seq<Pair<T>>, i: nat, key: int)
    requires Strict(s) && Fits(s, i, key)
    ensures key !in Contents(s)
  {
  }

  lemma PlaceMeansPresent<T>(s: seq<Pair<T>>, i: nat)
    requires Strict(s) && i < |s|
    ensures s[i].key in Contents(s) && Contents(s)[s[i].key] == s[i].value
  {
    assert s[i] in s;
  }

  lemma InsertedStrict<T>(s: seq<Pair<T>>, i: nat, p: Pair<T>)
    requires Strict(s) && Fits(s, i, p.key)
    ensures Strict(Inserted(s, i, p))
  {
  }

  lemma InsertedContents<T>(s: seq<Pair<T>>, i: nat, p: Pair<T>)
    requires Strict(s) && Fits(s, i, p.key)
    ensures Strict(Inserted(s, i, p)) && Contents(Inserted(s, i, p)) == Contents(s)[p.key := p.value]
  {
    InsertedStrict(s, i, p);
    FitsMeansAbsent(s, i, p.key);
    var t := Inserted(s, i, p);
    forall q ensures q in t <==> q in s || q == p {
      if q in s { assert q in s[..i] || q in s[i..]; }
    }
    SameContents(t, Contents(s)[p.key := p.value]);
  }

  // A strict deque and a map with the same pairs.
  lemma SameContents<T>(s: seq<Pair<T>>, m: map<int, T>)
    requires Strict(s)
    requires forall q: Pair<T> {:trigger q in s} :: q in s <==> q.key in m && m[q.key] == q.value
    ensures Contents(s) == m
  {
    forall k ensures k in Contents(s) <==> k in m {
      if k in m { assert Pair(k, m[k]) in s; }
    }
  }

  lemma ReplacedMembers<T>(s: seq<Pair<T>>, i: nat, value: T)
    requires Strict(s) && i < |s|
    ensures var p := Pair(s[i].key, value);
            forall q {:trigger q in s} :: q in s[i := p] <==> q == p || (q in s && q.key != p.key)
  {
    var p := Pair(s[i].key, value);
    var a, b := s[..i], s[i + 1..];
    assert s == a + [s[i]] + b && s[i := p] == a + [p] + b;
    forall q {:trigger q in s} ensures q in s[i := p] <==> q == p || (q in s && q.key != p.key) {
      assert q in s <==> q in a || q == s[i] || q in b;
      assert q in s[i := p] <==> q in a || q == p || q in b;
      assert forall j :: 0 <= j < |a| ==> a[j].key < s[i].key;
      assert forall j :: 0 <= j < |b| ==> s[i].key < b[j].key;
    }
  }

  lemma ReplacedContents<T>(s: seq<Pair<T>>, i: nat, value: T)
    requires Strict(s) && i < |s|
    ensures var t := s[i := Pair(s[i].key, value)];
            Strict(t) && Contents(t) == Contents(s)[s[i].key := value]
  {
    var t := s[i := Pair(s[i].key, value)];
    assert forall j {:trigger t[j]} :: 0 <= j < |t| ==> t[j].key == s[j].key;
    ReplacedMembers(s, i, value);
    var m := Contents(s)[s[i].key := value];
    forall q: Pair<T> {:trigger q in t} ensures q in t <==> q.key in m && m[q.key] == q.value {
      assert q in t <==> q == t[i] || (q in s && q.key != s[i].key);
      ContentsMember(s, q);
    }
    SameContents(t, m);
  }

  lemma ErasedMembers<T>(s: seq<Pair<T>>, i: nat)
    requires Strict(s) && i < |s|
    ensures forall q {:trigger q in s} :: q in Erased(s, i, i + 1) <==> q in s && q.key != s[i].key
  {
    var a, b := s[..i], s[i + 1..];
    assert s == a + [s[i]] + b;
    forall q {:trigger q in s} ensures q in a + b <==> q in s && q.key != s[i].key {
      assert q in s <==> q in a || q == s[i] || q in b;
      assert forall j :: 0 <= j < |a| ==> a[j].key < s[i].key;
      assert forall j :: 0 <= j < |b| ==> s[i].key < b[j].key;
    }
  }

  lemma ErasedStrict<T>(s: seq<Pair<T>>, i: nat)
    requires Strict(s) && i < |s|
    ensures Strict(Erased(s, i, i + 1))
  {
  }

  lemma ErasedContents<T>(s: seq<Pair<T>>, i: nat)
    requires Strict(s) && i < |s|
    ensures Strict(Erased(s, i, i + 1)) && Contents(Erased(s, i, i + 1)) == Contents(s) - {s[i].key}
  {
    var t := Erased(s, i, i + 1);
    ErasedStrict(s, i);
    ErasedMembers(s, i);
    var m := Contents(s) - {s[i].key};
    forall q: Pair<T> {:trigger q in t} ensures q in t <==> q.key in m && m[q.key] == q.value {
      assert q in t <==> q in s && q.key != s[i].key;
      ContentsMember(s, q);
    }
    SameContents(t, m);
  }

  lemma ContentsMember<T>(s: seq<Pair<T>>, q: Pair<T>)
    requires Strict(s)
    ensures q in s <==> q.key in Contents(s) && Contents(s)[q.key] == q.value
  {
  }

  // Where the lower bound is, the key is or belongs.
  lemma LowerBoundDecides<T>(s: seq<Pair<T>>, key: int)
    requires Strict(s)
    ensures var i := LowerBound(s, key);
            if i < |s| && s[i].key == key then key in Contents(s) && Contents(s)[key] == s[i].value
            else Fits(s, i, key) && key !in Contents(s)
  {
    var i := LowerBound(s, key);
    if i < |s| && s[i].key == key {
      PlaceMeansPresent(s, i);
    } else {
      FitsMeansAbsent(s, i, key);
    }
  }

  // std::unique: of neighbours with one key the first stays.
  function Unique<T>(s: seq<Pair<T>>): (t: seq<Pair<T>>)
    ensures |t| <= |s| && (s == [] <==> t == [])
  {
    if |s| < 2 then s
    else
      var t := Unique(s[..|s| - 1]);
      if s[|s| - 2].key == s[|s| - 1].key then t else t + [s[|s| - 1]]
  }

  lemma {:induction false} UniqueEnds<T>(s: seq<Pair<T>>)
    requires s != []
    ensures Unique(s)[|Unique(s)| - 1].key == s[|s| - 1].key
  {
    if |s| >= 2 { UniqueEnds(s[..|s| - 1]); }
  }

  lemma {:induction false} UniqueStrict<T>(s: seq<Pair<T>>)
    requires Sorted(s)
    ensures Strict(Unique(s)) && forall p :: p in Unique(s) ==> p in s
  {
    if |s| >= 2 {
      var a := s[..|s| - 1];
      UniqueStrict(a);
      UniqueEnds(a);
    }
  }

  lemma UniqueOfSum<T>(a: seq<Pair<T>>, p: Pair<T>)
    requires a != []
    ensures Unique(a + [p]) == if a[|a| - 1].key == p.key then Unique(a) else Unique(a) + [p]
  {
    assert (a + [p])[..|a|] == a;
  }

  lemma GroupPush<T>(a: seq<Pair<T>>, p: Pair<T>, key: int)
    ensures Group(a + [p], key) == if key == p.key then Group(a, key) + [p.value] else Group(a, key)
  {
    assert (a + [p])[..|a|] == a;
  }

  lemma UniqueStep<T>(a: seq<Pair<T>>, p: Pair<T>, key: int)
    requires a != [] && Sorted(a) && a[|a| - 1].key <= p.key
    requires Group(Unique(a), key) == if Group(a, key) == [] then [] else [Group(a, key)[0]]
    ensures Group(Unique(a + [p]), key) == if Group(a + [p], key) == [] then [] else [Group(a + [p], key)[0]]
  {
    UniqueOfSum(a, p);
    GroupPush(a, p, key);
    if a[|a| - 1].key == p.key {
      if key == p.key { GroupMember(a, |a| - 1); }
    } else {
      GroupPush(Unique(a), p, key);
      if key == p.key { GroupNone(a, key); }
    }
  }

  // What is left of each group is its first value.
  lemma {:induction false} UniqueKeepsFirsts<T>(s: seq<Pair<T>>, key: int)
    requires Sorted(s)
    ensures Group(Unique(s), key) == if Group(s, key) == [] then [] else [Group(s, key)[0]]
  {
    if |s| == 1 {
      assert s == [s[0]];
      GroupOfOne(s[0], key);
    } else if |s| >= 2 {
      var a, p := s[..|s| - 1], s[|s| - 1];
      assert s == a + [p];
      UniqueKeepsFirsts(a, key);
      assert Sorted(a) && a[|a| - 1].key <= p.key;
      UniqueStep(a, p, key);
    }
  }

  // ---- The classes -------------------------------------------------------------------------

  class FlatMultiMap<T> {
    var impl: seq<Pair<T>>

    ghost predicate Valid()
      reads this
    {
      Sorted(impl)
    }

    constructor ()
      ensures Valid() && impl == []
    {
      impl := [];
    }

    // A value goes behind those its key already has.
    method Insert(p: Pair<T>) returns (where: nat)
      requires Valid()
      modifies this
      ensures Valid() && where < |impl| && impl[where] == p
      ensures forall k :: Group(impl, k) == Group(old(impl), k) + if k == p.key then [p.value] else []
    {
      ghost var s := impl;
      if impl == [] || p.key < impl[0].key {
        where := 0;
        impl := [p] + impl;
        assert impl == Inserted(s, 0, p);
      } else if !(p.key < impl[|impl| - 1].key) {
        where := |impl|;
        impl := impl + [p];
        assert impl == Inserted(s, |s|, p);
      } else {
        where := UpperBound(impl, p.key);
        impl := impl[..where] + [p] + impl[where..];
      }
      InsertedSorted(s, where, p);
      forall k ensures Group(impl, k) == Group(s, k) + if k == p.key then [p.value] else [] {
        InsertedGroup(s, where, p, k);
      }
    }

    method RemoveOne(key: int) returns (removed: bool)
      requires Valid()
      modifies this
      ensures Valid() && removed == (Group(old(impl), key) != [])
      ensures !removed ==> impl == old(impl)
      ensures removed ==> forall k ::
        Group(impl, k) == if k == key then Group(old(impl), k)[1..] else Group(old(impl), k)
    {
      if impl == [] || key < impl[0].key || impl[|impl| - 1].key < key {
        GroupNone(impl, key);
        return false;
      }
      var where := LowerBound(impl, key);
      if key < impl[where].key {
        GroupNone(impl, key);
        return false;
      }
      GroupMember(impl, where);
      EraseOne(where, key);
      return true;
    }

    // The first pair of the key is erased.
    method EraseOne(where: nat, key: int)
      requires Valid() && where < |impl| && impl[where].key == key && forall n :: 0 <= n < where ==> impl[n].key != key
      modifies this
      ensures Valid()
      ensures forall k {:trigger Group(impl, k)} :: k != key ==> Group(impl, k) == Group(old(impl), k)
      ensures |Group(old(impl), key)| >= 1 && Group(impl, key) == Group(old(impl), key)[1..]
    {
      ghost var s := impl;
      impl := impl[..where] + impl[where + 1..];
      ErasedSorted(s, where, where + 1);
      ErasedGroup(s, where, where + 1, key, key);
      forall k {:trigger Group(impl, k)} | k != key ensures Group(impl, k) == Group(s, k) {
        ErasedGroup(s, where, where + 1, key, k);
      }
    }

    method RemoveAll(key: int) returns (count: nat)
      requires Valid()
      modifies this
      ensures Valid() && count == |Group(old(impl), key)|
      ensures forall k :: Group(impl, k) == if k == key then [] else Group(old(impl), k)
    {
      if impl == [] || key < impl[0].key || impl[|impl| - 1].key < key {
        GroupNone(impl, key);
        return 0;
      }
      var first, last := LowerBound(impl, key), UpperBound(impl, key);
      ghost var s := impl;
      KeyRange(s, key);
      GroupSize(s, first, last, key);
      if first == last { return 0; }
      count := last - first;
      impl := impl[..first] + impl[last..];
      ErasedSorted(s, first, last);
      forall k ensures Group(impl, k) == if k == key then [] else Group(s, k) {
        ErasedGroup(s, first, last, key, k);
      }
    }

    // The first value of the group, if there is one.
    method FindFirst(key: int) returns (where: Option<nat>)
      requires Valid()
      ensures where.None? <==> Group(impl, key) == []
      ensures where.Some? ==> where.value < |impl| && impl[where.value].key == key
      ensures where.Some? ==> Group(impl, key) != [] && impl[where.value].value == Group(impl, key)[0]
    {
      if impl == [] || key < impl[0].key || impl[|impl| - 1].key < key {
        GroupNone(impl, key);
        return None;
      }
      var i := LowerBound(impl, key);
      if key < impl[i].key {
        GroupNone(impl, key);
        return None;
      }
      KeyRange(impl, key);
      GroupSize(impl, i, UpperBound(impl, key), key);
      return Some(i);
    }
  }

  class FlatMap<T> {
    var impl: seq<Pair<T>>

    ghost predicate Valid()
      reads this
    {
      Strict(impl)
    }

    constructor ()
      ensures Valid() && impl == [] && Contents(impl) == map[]
    {
      impl := [];
    }

    // From a range: the library's sort, which may order equal keys as it likes, then finalize.
    constructor FromSorted(sorted: seq<Pair<T>>)
      requires Sorted(sorted)
      ensures Valid()
      ensures forall k :: Group(impl, k) == if Group(sorted, k) == [] then [] else [Group(sorted, k)[0]]
    {
      impl := Unique(sorted);
      UniqueStrict(sorted);
      forall k ensures Group(Unique(sorted), k) == if Group(sorted, k) == [] then [] else [Group(sorted, k)[0]] {
        UniqueKeepsFirsts(sorted, k);
      }
    }

    // A new key, put where it belongs: push_front, push_back and insert in one.
    method InsertAt(where: nat, p: Pair<T>)
      requires Valid() && Fits(impl, where, p.key)
      modifies this
      ensures Valid() && p.key !in Contents(old(impl)) && Contents(impl) == Contents(old(impl))[p.key := p.value]
      ensures where < |impl| && impl[where] == p && |impl| == |old(impl)| + 1
    {
      FitsMeansAbsent(impl, where, p.key);
      InsertedContents(impl, where, p);
      impl := impl[..where] + [p] + impl[where..];
    }

    method Insert(p: Pair<T>) returns (where: nat, added: bool)
      requires Valid()
      modifies this
      ensures Valid() && added == (p.key !in Contents(old(impl)))
      ensures Contents(impl) == if added then Contents(old(impl))[p.key := p.value] else Contents(old(impl))
      ensures where < |impl| && impl[where].key == p.key
    {
      if impl == [] || p.key < impl[0].key {
        InsertAt(0, p);
        return 0, true;
      } else if impl[|impl| - 1].key < p.key {
        InsertAt(|impl|, p);
        return |impl| - 1, true;
      }
      where := LowerBound(impl, p.key);
      LowerBoundDecides(impl, p.key);
      added := p.key < impl[where].key;
      if added { InsertAt(where, p); }
    }

    method InsertOrAssign(key: int, value: T) returns (where: nat, added: bool)
      requires Valid()
      modifies this
      ensures Valid() && added == (key !in Contents(old(impl)))
      ensures Contents(impl) == Contents(old(impl))[key := value]
      ensures where < |impl| && impl[where] == Pair(key, value)
    {
      if impl == [] || key < impl[0].key {
        InsertAt(0, Pair(key, value));
        return 0, true;
      } else if impl[|impl| - 1].key < key {
        InsertAt(|impl|, Pair(key, value));
        return |impl| - 1, true;
      }
      where := LowerBound(impl, key);
      LowerBoundDecides(impl, key);
      added := key < impl[where].key;
      if added {
        InsertAt(where, Pair(key, value));
      } else {
        ReplacedContents(impl, where, value);
        impl := impl[where := Pair(key, value)];
      }
    }

    // operator[]: the value of the key, a default one if the key is new.
    method At(key: int, initial: T) returns (value: T)
      requires Valid()
      modifies this
      ensures Valid() && key in Contents(impl) && value == Contents(impl)[key]
      ensures Contents(impl)
              == if key in Contents(old(impl)) then Contents(old(impl)) else Contents(old(impl))[key := initial]
    {
      var where, added := Insert(Pair(key, initial));
      PlaceMeansPresent(impl, where);
      value := impl[where].value;
    }

    method EraseAt(where: nat)
      requires Valid() && where < |impl|
      modifies this
      ensures Valid() && Contents(impl) == Contents(old(impl)) - {old(impl)[where].key}
    {
      ErasedContents(impl, where);
      impl := impl[..where] + impl[where + 1..];
    }

    method Remove(key: int) returns (removed: bool)
      requires Valid()
      modifies this
      ensures Valid() && removed == (key in Contents(old(impl)))
      ensures Contents(impl) == Contents(old(impl)) - {key}
    {
      var where := Find(key);
      removed := where.Some?;
      if removed { EraseAt(where.value); } else { AbsentStays(Contents(impl), key); }
    }

    method Find(key: int) returns (where: Option<nat>)
      requires Valid()
      ensures where.Some? <==> key in Contents(impl)
      ensures where.Some? ==> where.value < |impl| && impl[where.value] == Pair(key, Contents(impl)[key])
    {
      if impl == [] || key < impl[0].key {
        FitsMeansAbsent(impl, 0, key);
        return None;
      }
      if impl[|impl| - 1].key < key {
        FitsMeansAbsent(impl, |impl|, key);
        return None;
      }
      var i := LowerBound(impl, key);
      LowerBoundDecides(impl, key);
      return if key < impl[i].key then None else Some(i);
    }

    method Take(key: int) returns (value: Option<T>)
      requires Valid()
      modifies this
      ensures Valid() && Contents(impl) == Contents(old(impl)) - {key}
      ensures value == if key in Contents(old(impl)) then Some(Contents(old(impl))[key]) else None
    {
      var where := Find(key);
      if where.Some? {
        value := Some(impl[where.value].value);
        EraseAt(where.value);
      } else {
        value := None;
        AbsentStays(Contents(impl), key);
      }
    }
  }

  lemma AbsentStays<T>(m: map<int, T>, key: int)
    requires key !in m
    ensures m - {key} == m
  {
    assert forall k :: k in m - {key} <==> k in m;
  }
}
