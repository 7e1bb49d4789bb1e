// Sets kept as sorted deques: with repetitions and without.
module FlatSet {
  import opened Options

  predicate Sorted(s: seq<int>) {
    forall i, j :: 0 <= i < j < |s| ==> s[i] <= s[j]
  }

  predicate Strict(s: seq<int>) {
    forall i, j :: 0 <= i < j < |s| ==> s[i] < s[j]
  }

  function Elements(s: seq<int>): set<int> {
    set x | x in s
  }

  function LowerBound(s: seq<int>, x: int): (i: nat)
    ensures i <= |s| && (forall j :: 0 <= j < i ==> s[j] < x) && (i < |s| ==> x <= s[i])
  {
    if s == [] || x <= s[0] then 0 else 1 + LowerBound(s[1..], x)
  }

  function UpperBound(s: seq<int>, x: int): (i: nat)
    ensures i <= |s| && (forall j :: 0 <= j < i ==> s[j] <= x) && (i < |s| ==> x < s[i])
  {
    if s == [] || x < s[0] then 0 else 1 + UpperBound(s[1..], x)
  }

  // ---- With repetitions -----------------------------------------------------------------

  lemma LastIsLargest(s: seq<int>, x: int)
    requires Sorted(s) && x in multiset(s)
    ensures s != [] && x <= s[|s| - 1]
  {
    assert x in s;
  }

  lemma SameLast(s: seq<int>, t: seq<int>)
    requires Sorted(s) && Sorted(t) && multiset(s) == multiset(t) && s != []
    ensures t != [] && s[|s| - 1] == t[|t| - 1]
  {
    assert |s| == |multiset(s)| && |t| == |multiset(t)|;
    assert s[|s| - 1] in multiset(s) && t[|t| - 1] in multiset(t);
    LastIsLargest(s, t[|t| - 1]);
    LastIsLargest(t, s[|s| - 1]);
  }

  // A sorted deque is its multiset.
  lemma {:induction false} MultisetDetermines(s: seq<int>, t: seq<int>)
    requires Sorted(s) && Sorted(t) && multiset(s) == multiset(t)
    ensures s == t
    decreases |s|, 1
  {
    if s != [] {
      SameLast(s, t);
      var a, b, x := s[..|s| - 1], t[..|t| - 1], s[|s| - 1];
      assert s == a + [x] && t == b + [x];
      FrontDetermines(a, b, x);
    } else {
      assert |multiset(t)| == 0;
    }
  }

  lemma {:induction false} FrontDetermines(a: seq<int>, b: seq<int>, x: int)
    requires Sorted(a) && Sorted(b) && multiset(a + [x]) == multiset(b + [x])
    ensures a == b
    decreases |a| + 1, 0
  {
    assert multiset(a) == multiset(a + [x]) - multiset{x};
    assert multiset(b) == multiset(b + [x]) - multiset{x};
    MultisetDetermines(a, b);
  }

  lemma InsertedSorted(s: seq<int>, i: nat, x: int)
    requires Sorted(s) && i <= |s| && (i > 0 ==> s[i - 1] <= x) && (i < |s| ==> x <= s[i])
    ensures Sorted(s[..i] + [x] + s[i..])
  {
  }

  lemma MultisetOfThree(a: seq<int>, x: int, b: seq<int>)
    ensures multiset(a + [x] + b) == multiset(a + b) + multiset{x}
  {
  }

  lemma InsertedMultiset(s: seq<int>, i: nat, x: int)
    requires Sorted(s) && i <= |s| && (i > 0 ==> s[i - 1] <= x) && (i < |s| ==> x <= s[i])
    ensures Sorted(s[..i] + [x] + s[i..]) && multiset(s[..i] + [x] + s[i..]) == multiset(s) + multiset{x}
  {
    InsertedSorted(s, i, x);
    assert s == s[..i] + s[i..];
    MultisetOfThree(s[..i], x, s[i..]);
  }

  lemma ErasedSorted(s: seq<int>, i: nat)
    requires Sorted(s) && i < |s|
    ensures Sorted(s[..i] + s[i + 1..])
  {
  }

  lemma ErasedMultiset(s: seq<int>, i: nat)
    requires Sorted(s) && i < |s|
    ensures Sorted(s[..i] + s[i + 1..]) && multiset(s[..i] + s[i + 1..]) == multiset(s) - multiset{s[i]}
  {
    ErasedSorted(s, i);
    assert s == s[..i] + [s[i]] + s[i + 1..];
    MultisetOfThree(s[..i], s[i], s[i + 1..]);
  }

  // The library's sort.
  function Sort(s: seq<int>): (t: seq<int>)
    ensures Sorted(t) && multiset(t) == multiset(s)
  {
    if s == [] then []
    else
      var t, x := Sort(s[..|s| - 1]), s[|s| - 1];
      assert s == s[..|s| - 1] + [x];
      var i := UpperBound(t, x);
      InsertedMultiset(t, i, x);
      t[..i] + [x] + t[i..]
  }

  class FlatMultiSet {
    var impl: seq<int>

    ghost predicate Valid()
      reads this
    {
      Sorted(impl)
    }

    constructor ()
      ensures Valid() && impl == []
    {
      impl := [];
    }

    method Insert(x: int) returns (where: nat)
      requires Valid()
      modifies this
      ensures Valid() && multiset(impl) == multiset(old(impl)) + multiset{x}
      ensures where < |impl| && impl[where] == x
    {
      if impl == [] || x < impl[0] {
        where := 0;
        InsertedMultiset(impl, 0, x);
        assert [x] + impl == impl[..0] + [x] + impl[0..];
        impl := [x] + impl;
      } else if !(x < impl[|impl| - 1]) {
        where := |impl|;
        InsertedMultiset(impl, where, x);
        assert impl + [x] == impl[..where] + [x] + impl[where..];
        impl := impl + [x];
      } else {
        where := UpperBound(impl, x);
        InsertedMultiset(impl, where, x);
        impl := impl[..where] + [x] + impl[where..];
      }
    }

    method RemoveOne(x: int) returns (removed: bool)
      requires Valid()
      modifies this
      ensures Valid() && removed == (x in old(impl))
      ensures multiset(impl) == multiset(old(impl)) - multiset{x}
    {
      var where := FindFirst(x);
      removed := where.Some?;
      if removed {
        ErasedMultiset(impl, where.value);
        impl := impl[..where.value] + impl[where.value + 1..];
      } else {
        assert multiset(impl) == multiset(impl) - multiset{x};
      }
    }

    method FindFirst(x: int) returns (where: Option<nat>)
      requires Valid()
      ensures where.Some? <==> x in impl
      ensures where.Some? ==> where.value < |impl| && impl[where.value] == x && x !in impl[..where.value]
    {
      if impl == [] || x < impl[0] || impl[|impl| - 1] < x { return None; }
      var i := LowerBound(impl, x);
      return if x < impl[i] then None else Some(i);
    }

    method Merge(other: seq<int>)
      requires Valid()
      modifies this
      ensures Valid() && multiset(impl) == multiset(old(impl)) + multiset(other)
    {
      impl := Sort(impl + other);
    }
  }

  // ---- Without -------------------------------------------------------------------------------

  // A strict deque is its set.
  lemma {:induction false} SetDetermines(s: seq<int>, t: seq<int>)
    requires Strict(s) && Strict(t) && Elements(s) == Elements(t)
    ensures s == t
  {
    assert s != [] ==> s[0] in Elements(s);
    assert t != [] ==> t[0] in Elements(t);
    if s != [] && t != [] {
      var a, p, b, q := s[..|s| - 1], s[|s| - 1], t[..|t| - 1], t[|t| - 1];
      assert p in Elements(s) && q in Elements(t);
      assert p == q;
      WithoutLast(s);
      WithoutLast(t);
      SetDetermines(a, b);
    }
  }

  lemma WithoutLast(s: seq<int>)
    requires s != [] && Strict(s)
    ensures Elements(s[..|s| - 1]) == Elements(s) - {s[|s| - 1]}
  {
    var a, p := s[..|s| - 1], s[|s| - 1];
    assert s == a + [p];
    assert forall i :: 0 <= i < |a| ==> a[i] < p;
  }

  lemma InsertedStrict(s: seq<int>, i: nat, x: int)
    requires Strict(s) && i <= |s| && (i > 0 ==> s[i - 1] < x) && (i < |s| ==> x < s[i])
    ensures x !in s && Strict(s[..i] + [x] + s[i..])
  {
  }

  lemma InsertedElements(s: seq<int>, i: nat, x: int)
    requires Strict(s) && i <= |s| && (i > 0 ==> s[i - 1] < x) && (i < |s| ==> x < s[i])
    ensures x !in s && Strict(s[..i] + [x] + s[i..]) && Elements(s[..i] + [x] + s[i..]) == Elements(s) + {x}
  {
    InsertedStrict(s, i, x);
    assert s == s[..i] + s[i..];
  }

  lemma ErasedElements(s: seq<int>, i: nat)
    requires Strict(s) && i < |s|
    ensures Strict(s[..i] + s[i + 1..]) && Elements(s[..i] + s[i + 1..]) == Elements(s) - {s[i]}
  {
    var a, b := s[..i], s[i + 1..];
    assert s == a + [s[i]] + b;
    assert forall j :: 0 <= j < |a| ==> a[j] < s[i];
    assert forall j :: 0 <= j < |b| ==> s[i] < b[j];
  }

  // std::unique.
  function Unique(s: seq<int>): (t: seq<int>)
    ensures |t| <= |s| && (s == [] <==> t == []) && (s != [] ==> t[|t| - 1] == s[|s| - 1])
  {
    if |s| < 2 then s
    else
      var t := Unique(s[..|s| - 1]);
      if s[|s| - 2] == s[|s| - 1] then t else t + [s[|s| - 1]]
  }

  lemma PushedElements(a: seq<int>, p: int)
    ensures Elements(a + [p]) == Elements(a) + {p}
  {
  }

  lemma PushedStrict(a: seq<int>, p: int)
    requires Strict(a) && (a == [] || a[|a| - 1] < p)
    ensures Strict(a + [p])
  {
  }

  lemma UniqueOfSum(a: seq<int>, p: int)
    requires a != []
    ensures Unique(a + [p]) == if a[|a| - 1] == p then Unique(a) else Unique(a) + [p]
  {
    assert (a + [p])[..|a|] == a;
  }

  lemma UniqueStep(a: seq<int>, p: int, t: seq<int>, u: seq<int>)
    requires a != [] && t != [] && t[|t| - 1] == a[|a| - 1] <= p
    requires Strict(t) && Elements(t) == Elements(a)
    requires u == if a[|a| - 1] == p then t else t + [p]
    ensures Strict(u) && Elements(u) == Elements(a + [p])
  {
    PushedElements(a, p);
    if a[|a| - 1] < p {
      PushedStrict(t, p);
      PushedElements(t, p);
    } else {
      assert p in Elements(a);
    }
  }

  lemma {:induction false} UniqueElements(s: seq<int>)
    requires Sorted(s)
    ensures Strict(Unique(s)) && Elements(Unique(s)) == Elements(s)
  {
    if |s| >= 2 {
      var a, p := s[..|s| - 1], s[|s| - 1];
      assert s == a + [p];
      UniqueElements(a);
      UniqueOfSum(a, p);
      UniqueStep(a, p, Unique(a), Unique(s));
    }
  }

  lemma SortedElements(s: seq<int>, t: seq<int>, sorted: seq<int>)
    requires multiset(sorted) == multiset(s + t)
    ensures Elements(sorted) == Elements(s) + Elements(t)
  {
    forall x ensures x in Elements(sorted) <==> x in Elements(s) + Elements(t) {
      assert x in sorted <==> x in multiset(sorted);
      assert x in s + t <==> x in multiset(s + t);
    }
  }

  class FlatSet {
    var impl: seq<int>

    ghost predicate Valid()
      reads this
    {
      Strict(impl)
    }

    constructor ()
      ensures Valid() && impl == []
    {
      impl := [];
    }

    method Insert(x: int) returns (where: nat, added: bool)
      requires Valid()
      modifies this
      ensures Valid() && added == (x !in old(impl)) && Elements(impl) == Elements(old(impl)) + {x}
      ensures where < |impl| && impl[where] == x
    {
      if impl == [] || x < impl[0] {
        InsertedElements(impl, 0, x);
        assert [x] + impl == impl[..0] + [x] + impl[0..];
        impl := [x] + impl;
        return 0, true;
      } else if impl[|impl| - 1] < x {
        InsertedElements(impl, |impl|, x);
        assert impl + [x] == impl[..|impl|] + [x] + impl[|impl|..];
        impl := impl + [x];
        return |impl| - 1, true;
      }
      where := LowerBound(impl, x);
      added := x < impl[where];
      if added {
        InsertedElements(impl, where, x);
        impl := impl[..where] + [x] + impl[where..];
      }
    }

    method Remove(x: int) returns (removed: bool)
      requires Valid()
      modifies this
      ensures Valid() && removed == (x in old(impl)) && Elements(impl) == Elements(old(impl)) - {x}
    {
      var where := Find(x);
      removed := where.Some?;
      if removed {
        ErasedElements(impl, where.value);
        impl := impl[..where.value] + impl[where.value + 1..];
      }
    }

    method Find(x: int) returns (where: Option<nat>)
      requires Valid()
      ensures where.Some? <==> x in impl
      ensures where.Some? ==> where.value < |impl| && impl[where.value] == x
    {
      if impl == [] || x < impl[0] || impl[|impl| - 1] < x { return None; }
      var i := LowerBound(impl, x);
      return if x < impl[i] then None else Some(i);
    }

    method Merge(other: seq<int>)
      requires Valid()
      modifies this
      ensures Valid() && Elements(impl) == Elements(old(impl)) + Elements(other)
    {
      var sorted := Sort(impl + other);
      UniqueElements(sorted);
      SortedElements(impl, other, sorted);
      impl := Unique(sorted);
    }
  }
}
