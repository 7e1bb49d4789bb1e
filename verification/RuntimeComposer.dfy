// Optional parts of an object, chosen by a bit mask and laid out one after
// another in a single buffer that starts with a pointer to the layout.
module RuntimeComposer {
  import opened Sets

  // sizeof and alignof of the layout pointer.
  const META_SIZE: nat := 8

  // A registered component type has a positive size and alignment; the entry of
  // an index nobody registered is all zero.
  datatype Wrap = Wrap(size: nat, align: nat, initial: seq<int>)

  ghost predicate GoodWraps(wraps: seq<Wrap>) {
    |wraps| == 64 && forall i :: 0 <= i < 64 ==>
      |wraps[i].initial| == wraps[i].size && (wraps[i].size > 0 ==> wraps[i].align > 0)
  }

  // A mask as the set of its bits.
  type Mask = set<int>

  predicate InRange(mask: Mask) {
    forall k :: k in mask ==> 0 <= k < 64
  }

  datatype Metadata = Metadata(size: nat, align: nat, offsets: seq<nat>, last: nat, mask: Mask)

  // ---- Masks as numbers -----------------------------------------------------------

  function Pow2(n: nat): (p: nat)
    ensures p > 0
  {
    if n == 0 then 1 else 2 * Pow2(n - 1)
  }

  function Value(mask: Mask, n: nat): nat {
    if n == 0 then 0 else Value(mask, n - 1) + if n - 1 in mask then Pow2(n - 1) else 0
  }

  lemma {:induction false} PowGrows(a: nat, b: nat)
    requires a <= b
    ensures Pow2(a) <= Pow2(b)
    decreases b
  {
    if a < b { PowGrows(a, b - 1); }
  }

  lemma {:induction false} ValueBelow(mask: Mask, n: nat)
    ensures Value(mask, n) < Pow2(n)
  {
    if n > 0 { ValueBelow(mask, n - 1); }
  }

  // The test `_mask < componentBit`: no bit from `i` on is set.
  lemma {:induction false} BelowBit(mask: Mask, n: nat, i: nat)
    requires i <= n
    ensures Value(mask, n) < Pow2(i) <==> forall k :: k in mask && i <= k < n ==> false
    decreases n
  {
    if i == n {
      ValueBelow(mask, n);
    } else {
      BelowBit(mask, n - 1, i);
      PowGrows(i, n - 1);
      if n - 1 in mask { assert i <= n - 1 < n; }
    }
  }

  // ---- Layouts ---------------------------------------------------------------------

  predicate Present(wraps: seq<Wrap>, mask: Mask, i: int)
    requires |wraps| == 64
  {
    0 <= i < 64 && i in mask && wraps[i].size > 0
  }

  // Where the components with an index below `i` end.
  function EndBefore(wraps: seq<Wrap>, mask: Mask, offsets: seq<nat>, i: nat): nat
    requires |wraps| == 64 && |offsets| == 64 && i <= 64
  {
    if i == 0 then META_SIZE
    else if Present(wraps, mask, i - 1) then offsets[i - 1] + wraps[i - 1].size
    else EndBefore(wraps, mask, offsets, i - 1)
  }

  // Component `i` is aligned, after everything before it, with no more than alignment padding.
  ghost predicate Placed(wraps: seq<Wrap>, mask: Mask, offsets: seq<nat>, i: nat)
    requires GoodWraps(wraps) && |offsets| == 64 && i < 64
  {
    if Present(wraps, mask, i) then
      && offsets[i] % wraps[i].align == 0
      && EndBefore(wraps, mask, offsets, i) <= offsets[i] < EndBefore(wraps, mask, offsets, i) + wraps[i].align
    else offsets[i] == 0
  }

  ghost predicate GoodLayout(wraps: seq<Wrap>, m: Metadata) {
    && GoodWraps(wraps) && InRange(m.mask) && |m.offsets| == 64 && m.last <= 64
    && (forall i :: 0 <= i < 64 ==> Placed(wraps, m.mask, m.offsets, i))
    && m.size == EndBefore(wraps, m.mask, m.offsets, 64)
    && (forall k :: k in m.mask ==> k < m.last) && (m.last > 0 ==> m.last - 1 in m.mask)
    && META_SIZE <= m.align && (forall i :: 0 <= i < 64 && Present(wraps, m.mask, i) ==> wraps[i].align <= m.align)
  }

  lemma {:induction false} EndGrows(wraps: seq<Wrap>, mask: Mask, offsets: seq<nat>, i: nat, j: nat)
    requires GoodWraps(wraps) && |offsets| == 64 && i <= j <= 64
    requires forall k :: 0 <= k < j ==> Placed(wraps, mask, offsets, k)
    ensures META_SIZE <= EndBefore(wraps, mask, offsets, i) <= EndBefore(wraps, mask, offsets, j)
    decreases j
  {
    if i < j {
      EndGrows(wraps, mask, offsets, i, j - 1);
      assert Placed(wraps, mask, offsets, j - 1);
    } else if i > 0 {
      EndGrows(wraps, mask, offsets, i - 1, j - 1);
      assert Placed(wraps, mask, offsets, i - 1);
    }
  }

  // Main results: a component has an offset exactly when it is there, and lies
  // aligned inside the buffer, behind the pointer and below `last`.
  lemma ComponentInside(wraps: seq<Wrap>, m: Metadata, i: nat)
    requires GoodLayout(wraps, m) && i < 64
    ensures m.offsets[i] != 0 <==> Present(wraps, m.mask, i)
    ensures m.offsets[i] >= META_SIZE <==> Present(wraps, m.mask, i)
    ensures Present(wraps, m.mask, i) ==>
              m.offsets[i] % wraps[i].align == 0 && m.offsets[i] + wraps[i].size <= m.size && i < m.last
    ensures META_SIZE <= m.size
  {
    assert Placed(wraps, m.mask, m.offsets, i);
    EndGrows(wraps, m.mask, m.offsets, 0, i);
    EndGrows(wraps, m.mask, m.offsets, i + 1, 64);
    EndGrows(wraps, m.mask, m.offsets, 0, 64);
  }

  // Two components never overlap.
  lemma ComponentsDisjoint(wraps: seq<Wrap>, m: Metadata, i: nat, j: nat)
    requires GoodLayout(wraps, m) && i < j < 64 && Present(wraps, m.mask, i) && Present(wraps, m.mask, j)
    ensures m.offsets[i] + wraps[i].size <= m.offsets[j]
  {
    assert Placed(wraps, m.mask, m.offsets, j);
    EndGrows(wraps, m.mask, m.offsets, i + 1, j);
  }

  // A mask and the registered types leave no choice: the layout is unique.
  lemma {:induction false} OffsetsAgree(wraps: seq<Wrap>, m: Metadata, n: Metadata, i: nat)
    requires GoodLayout(wraps, m) && GoodLayout(wraps, n) && m.mask == n.mask && i <= 64
    ensures forall k :: 0 <= k < i ==> m.offsets[k] == n.offsets[k]
    ensures EndBefore(wraps, m.mask, m.offsets, i) == EndBefore(wraps, n.mask, n.offsets, i)
  {
    if i > 0 {
      OffsetsAgree(wraps, m, n, i - 1);
      assert Placed(wraps, m.mask, m.offsets, i - 1) && Placed(wraps, n.mask, n.offsets, i - 1);
      if Present(wraps, m.mask, i - 1) {
        FirstMultiple(m.offsets[i - 1], n.offsets[i - 1], wraps[i - 1].align,
                      EndBefore(wraps, m.mask, m.offsets, i - 1));
      }
    }
  }

  lemma TimesAtLeast(k: int, a: int)
    requires k >= 1 && a > 0
    ensures k * a >= a
  {
    assert k * a == (k - 1) * a + a;
  }

  // A number between two neighbouring multiples is none.
  lemma NoMultipleBetween(p: int, q: int, a: int, r: int)
    requires a > 0 && p * a == q * a + r && -a < r < a
    ensures p == q && r == 0
  {
    assert (p - q) * a == r;
    assert (q - p) * a == -r;
    if p > q { TimesAtLeast(p - q, a); }
    if p < q { TimesAtLeast(q - p, a); }
  }

  lemma FirstMultiple(x: nat, y: nat, align: nat, low: nat)
    requires align > 0 && x % align == 0 && y % align == 0
    requires low <= x < low + align && low <= y < low + align
    ensures x == y
  {
    NoMultipleBetween(x / align, y / align, align, x - y);
  }

  // The padding step of the constructor.
  lemma PaddedUp(size: nat, align: nat)
    requires align > 0
    ensures var p := if size % align != 0 then size + (align - size % align) else size;
            p % align == 0 && size <= p < size + align
  {
    var q, r := size / align, size % align;
    assert size == q * align + r;
    if r != 0 {
      assert size + (align - r) == (q + 1) * align;
      MultipleIsAligned(q + 1, align);
    }
  }

  lemma MultipleIsAligned(q: nat, align: nat)
    requires align > 0
    ensures (q * align) % align == 0
  {
    var x := q * align;
    NoMultipleBetween(q, x / align, align, x % align);
  }

  // Filling in later offsets does not move where earlier components end.
  lemma {:induction false} EndIsLocal(wraps: seq<Wrap>, mask: Mask, offsets: seq<nat>, other: seq<nat>, i: nat)
    requires |wraps| == 64 && |offsets| == 64 && |other| == 64 && i <= 64
    requires forall k :: 0 <= k < i ==> offsets[k] == other[k]
    ensures EndBefore(wraps, mask, offsets, i) == EndBefore(wraps, mask, other, i)
  {
    if i > 0 { EndIsLocal(wraps, mask, offsets, other, i - 1); }
  }

  method BuildMetadata(wraps: seq<Wrap>, mask: Mask) returns (m: Metadata)
    requires GoodWraps(wraps) && InRange(mask)
    ensures GoodLayout(wraps, m) && m.mask == mask
  {
    var size, align, last := META_SIZE, META_SIZE, 64;
    var offsets := new nat[64](_ => 0);
    var i := 0;
    while i != 64
      invariant 0 <= i <= 64 && last == 64
      invariant forall k :: 0 <= k < i ==> Placed(wraps, mask, offsets[..], k)
      invariant forall k :: i <= k < 64 ==> offsets[k] == 0
      invariant size == EndBefore(wraps, mask, offsets[..], i)
      invariant META_SIZE <= align && forall k :: 0 <= k < i && Present(wraps, mask, k) ==> wraps[k].align <= align
      invariant i > 0 ==> exists k :: k in mask && i - 1 <= k
    {
      BelowBit(mask, 64, i);
      if i in mask {
        var componentSize := wraps[i].size;
        if componentSize > 0 {
          var componentAlign := wraps[i].align;
          PaddedUp(size, componentAlign);
          var badAlign := size % componentAlign;
          if badAlign != 0 { size := size + (componentAlign - badAlign); }
          ghost var before := offsets[..];
          offsets[i] := size;
          PlacedStay(wraps, mask, before, offsets[..], i);
          size := size + componentSize;
          if align < componentAlign { align := componentAlign; }
        }
      } else if Value(mask, 64) < Pow2(i) {
        last := i;
        break;
      }
      i := i + 1;
    }
    if last > 0 {
      var k :| k in mask && last - 1 <= k;
      assert k == last - 1;
    }
    EndAfterLast(wraps, mask, offsets[..], last, 64);
    m := Metadata(size, align, offsets[..], last, mask);
  }

  lemma {:induction false} EndAfterLast(wraps: seq<Wrap>, mask: Mask, offsets: seq<nat>, last: nat, i: nat)
    requires |wraps| == 64 && |offsets| == 64 && last <= i <= 64 && forall k :: k in mask ==> k < last
    ensures EndBefore(wraps, mask, offsets, i) == EndBefore(wraps, mask, offsets, last)
    decreases i
  {
    if last < i {
      assert i - 1 !in mask;
      EndAfterLast(wraps, mask, offsets, last, i - 1);
    }
  }

  lemma PlacedStay(wraps: seq<Wrap>, mask: Mask, offsets: seq<nat>, other: seq<nat>, i: nat)
    requires GoodWraps(wraps) && |offsets| == 64 && |other| == 64 && i < 64 && other == offsets[i := other[i]]
    requires forall k :: 0 <= k < i ==> Placed(wraps, mask, offsets, k)
    ensures forall k :: 0 <= k < i ==> Placed(wraps, mask, other, k)
    ensures EndBefore(wraps, mask, other, i) == EndBefore(wraps, mask, offsets, i)
  {
    forall k | 0 <= k < i ensures Placed(wraps, mask, other, k) {
      EndIsLocal(wraps, mask, offsets, other, k);
      assert Placed(wraps, mask, offsets, k);
    }
    EndIsLocal(wraps, mask, offsets, other, i);
  }

  // ---- Components in the buffer --------------------------------------------------------

  type Values = map<int, seq<int>>

  function Patch(s: seq<int>, at: nat, bytes: seq<int>): (r: seq<int>)
    requires at + |bytes| <= |s|
    ensures |r| == |s|
  {
    s[..at] + bytes + s[at + |bytes|..]
  }

  // The buffer holds exactly these values, each at its component's offset.
  ghost predicate Holds(wraps: seq<Wrap>, m: Metadata, data: seq<int>, values: Values) {
    && GoodLayout(wraps, m) && |data| == m.size
    && (forall i :: i in values <==> Present(wraps, m.mask, i))
    && (forall i {:trigger values[i]} :: i in values ==>
          InBuffer(wraps, m, i) && data[m.offsets[i]..m.offsets[i] + wraps[i].size] == values[i])
  }

  ghost predicate InBuffer(wraps: seq<Wrap>, m: Metadata, i: int)
    requires GoodLayout(wraps, m)
  {
    0 <= i < 64 && m.offsets[i] + wraps[i].size <= m.size
  }

  function Read(wraps: seq<Wrap>, m: Metadata, data: seq<int>): (values: Values)
    requires GoodLayout(wraps, m) && |data| == m.size
    ensures Holds(wraps, m, data, values)
  {
    forall i | 0 <= i < 64 && Present(wraps, m.mask, i) ensures InBuffer(wraps, m, i) {
      ComponentInside(wraps, m, i);
    }
    map i | 0 <= i < 64 && Present(wraps, m.mask, i) :: data[m.offsets[i]..m.offsets[i] + wraps[i].size]
  }

  lemma HeldIsRead(wraps: seq<Wrap>, m: Metadata, data: seq<int>, values: Values)
    requires Holds(wraps, m, data, values)
    ensures Read(wraps, m, data) == values
  {
  }

  // Writing one component changes that component and no other.
  lemma PatchHolds(wraps: seq<Wrap>, m: Metadata, data: seq<int>, values: Values, i: nat, bytes: seq<int>)
    requires Holds(wraps, m, data, values) && i in values && |bytes| == wraps[i].size
    ensures InBuffer(wraps, m, i) && Holds(wraps, m, Patch(data, m.offsets[i], bytes), values[i := bytes])
  {
    assert values[i] == values[i];
    forall k ensures k in values[i := bytes] <==> Present(wraps, m.mask, k) {
      assert k in values[i := bytes] <==> k in values;
    }
    var after := Patch(data, m.offsets[i], bytes);
    forall k | k in values
      ensures InBuffer(wraps, m, k)
      ensures after[m.offsets[k]..m.offsets[k] + wraps[k].size] == values[i := bytes][k]
    {
      assert values[k] == values[k];
      if k < i { ComponentsDisjoint(wraps, m, k, i); }
      if i < k { ComponentsDisjoint(wraps, m, i, k); }
      PatchRange(data, m.offsets[i], bytes, m.offsets[k], wraps[k].size);
    }
  }

  lemma PatchRange(s: seq<int>, at: nat, bytes: seq<int>, p: nat, n: nat)
    requires at + |bytes| <= |s| && p + n <= |s|
    ensures p == at && n == |bytes| ==> Patch(s, at, bytes)[p..p + n] == bytes
    ensures p + n <= at || at + |bytes| <= p ==> Patch(s, at, bytes)[p..p + n] == s[p..p + n]
  {
    var t := Patch(s, at, bytes);
    if p + n <= at || at + |bytes| <= p {
      assert forall k :: p <= k < p + n ==> t[k] == s[k];
      assert t[p..p + n] == s[p..p + n];
    }
  }

  function Initials(wraps: seq<Wrap>, mask: Mask): Values
    requires |wraps| == 64
  {
    map i | 0 <= i < 64 && Present(wraps, mask, i) :: wraps[i].initial
  }

  // What changing the mask does: keep what stays, construct what is new.
  function Updated(wraps: seq<Wrap>, values: Values, mask: Mask): Values
    requires |wraps| == 64
  {
    map i | 0 <= i < 64 && Present(wraps, mask, i) :: if i in values then values[i] else wraps[i].initial
  }

  method WriteAt(data: array<int>, at: nat, bytes: seq<int>)
    requires at + |bytes| <= data.Length
    modifies data
    ensures data[..] == Patch(old(data[..]), at, bytes)
  {
    for k := 0 to |bytes|
      invariant forall j :: 0 <= j < data.Length ==>
                  data[j] == if at <= j < at + k then bytes[j - at] else old(data[j])
    {
      data[at + k] := bytes[k];
    }
  }

  // The values half-way through a loop over the components: `after` below `i`, `before` from there on.
  ghost function Mixed(before: Values, after: Values, i: int): Values
    requires before.Keys == after.Keys
  {
    map k | k in before :: if k < i then after[k] else before[k]
  }

  lemma MixedStep(before: Values, after: Values, i: int)
    requires before.Keys == after.Keys
    ensures i in before ==> Mixed(before, after, i + 1) == Mixed(before, after, i)[i := after[i]]
    ensures i !in before ==> Mixed(before, after, i + 1) == Mixed(before, after, i)
    ensures (i in before && before[i] == after[i]) ==> Mixed(before, after, i + 1) == Mixed(before, after, i)
  {
  }

  lemma MixedEnds(before: Values, after: Values, last: int)
    requires before.Keys == after.Keys && forall k :: k in before ==> 0 <= k < last
    ensures Mixed(before, after, 0) == before && Mixed(before, after, last) == after
  {
  }

  // A new buffer with every component of the mask constructed in place.
  method Construct(wraps: seq<Wrap>, mask: Mask) returns (m: Metadata, data: array<int>)
    requires GoodWraps(wraps) && InRange(mask)
    ensures m.mask == mask && Holds(wraps, m, data[..], Initials(wraps, mask)) && fresh(data)
  {
    m := BuildMetadata(wraps, mask);
    data := new int[m.size];
    ghost var before, after := Read(wraps, m, data[..]), Initials(wraps, mask);
    forall i | 0 <= i < 64 && Present(wraps, mask, i) ensures i < m.last { ComponentInside(wraps, m, i); }
    MixedEnds(before, after, m.last);
    for i := 0 to m.last
      invariant Holds(wraps, m, data[..], Mixed(before, after, i))
    {
      var offset := m.offsets[i];
      ComponentInside(wraps, m, i);
      MixedStep(before, after, i);
      if offset >= META_SIZE {
        PatchHolds(wraps, m, data[..], Mixed(before, after, i), i, wraps[i].initial);
        WriteAt(data, offset, wraps[i].initial);
      }
    }
  }

  // A component in the old buffer, if it was there.
  method Fetch(wraps: seq<Wrap>, m: Metadata, data: array<int>, i: nat) returns (there: bool, bytes: seq<int>)
    requires GoodLayout(wraps, m) && data.Length == m.size && i < 64
    ensures there == (i in Read(wraps, m, data[..]))
    ensures there ==> bytes == Read(wraps, m, data[..])[i] && |bytes| == wraps[i].size
  {
    ComponentInside(wraps, m, i);
    var offset := m.offsets[i];
    there := offset >= META_SIZE;
    bytes := if there then data[offset..offset + wraps[i].size] else [];
  }

  lemma MoveRound(wraps: seq<Wrap>, m: Metadata, data: seq<int>, before: Values, after: Values, i: nat, bytes: seq<int>)
    requires before.Keys == after.Keys && Holds(wraps, m, data, Mixed(before, after, i)) && i < 64
    requires i in before ==> after[i] == bytes && |bytes| == wraps[i].size
    ensures m.offsets[i] >= META_SIZE <==> i in before
    ensures i in before ==>
              InBuffer(wraps, m, i) && Holds(wraps, m, Patch(data, m.offsets[i], bytes), Mixed(before, after, i + 1))
    ensures i !in before ==> Holds(wraps, m, data, Mixed(before, after, i + 1))
  {
    ComponentInside(wraps, m, i);
    MixedStep(before, after, i);
    assert i in before <==> i in Mixed(before, after, i);
    if i in before { PatchHolds(wraps, m, data, Mixed(before, after, i), i, bytes); }
  }

  // What both buffers have is moved into the new one.
  method MoveShared(wraps: seq<Wrap>, wasmeta: Metadata, wasdata: array<int>, m: Metadata, data: array<int>,
                    ghost before: Values, ghost after: Values)
    requires GoodLayout(wraps, wasmeta) && wasdata.Length == wasmeta.size && data != wasdata
    requires Holds(wraps, m, data[..], before) && before.Keys == after.Keys
    requires var values := Read(wraps, wasmeta, wasdata[..]);
             forall i :: i in before ==> after[i] == if i in values then values[i] else before[i]
    modifies data
    ensures Holds(wraps, m, data[..], after)
  {
    ghost var values := Read(wraps, wasmeta, wasdata[..]);
    ghost var was := wasdata[..];
    forall i | i in before ensures 0 <= i < m.last { ComponentInside(wraps, m, i); }
    MixedEnds(before, after, m.last);
    for i := 0 to m.last
      invariant Holds(wraps, m, data[..], Mixed(before, after, i)) && wasdata[..] == was
    {
      var there, bytes := Fetch(wraps, wasmeta, wasdata, i);
      if there {
        MoveRound(wraps, m, data[..], before, after, i, bytes);
        if m.offsets[i] >= META_SIZE { WriteAt(data, m.offsets[i], bytes); }
      } else {
        MixedStep(before, after, i);
      }
    }
  }

  class Composer {
    const wraps: seq<Wrap>
    var meta: Metadata
    var data: array<int>

    ghost predicate Valid()
      reads this, data
    {
      GoodLayout(wraps, meta) && data.Length == meta.size
    }

    ghost function Components(): Values
      requires Valid()
      reads this, data
    {
      Read(wraps, meta, data[..])
    }

    constructor (wraps: seq<Wrap>, m: Metadata, data: array<int>)
      requires GoodLayout(wraps, m) && data.Length == m.size
      ensures Valid() && this.wraps == wraps && this.meta == m && this.data == data
    {
      this.wraps, this.meta, this.data := wraps, m, data;
    }

    static method Create(wraps: seq<Wrap>, mask: Mask) returns (c: Composer)
      requires GoodWraps(wraps) && InRange(mask)
      ensures c.Valid() && fresh(c) && fresh(c.data) && c.wraps == wraps && c.meta.mask == mask
      ensures c.Components() == Initials(wraps, mask)
    {
      var m, data := Construct(wraps, mask);
      HeldIsRead(wraps, m, data[..], Initials(wraps, mask));
      c := new Composer(wraps, m, data);
    }

    method Has(i: nat) returns (has: bool)
      requires Valid() && i < 64
      ensures has == (i in meta.mask && wraps[i].size > 0) && has == (i in Components())
    {
      ComponentInside(wraps, meta, i);
      has := meta.offsets[i] >= META_SIZE;
    }

    // A new buffer is built, the two are swapped, and what both have is moved over.
    method UpdateComponents(mask: Mask) returns (changed: bool)
      requires Valid() && InRange(mask)
      modifies this
      ensures Valid() && meta.mask == mask && Components() == Updated(wraps, old(Components()), mask)
      ensures changed == (old(meta.mask) != mask) && (!changed ==> data == old(data) && meta == old(meta))
      ensures changed ==> fresh(data)
    {
      if meta.mask == mask {
        assert Updated(wraps, Components(), mask) == Components();
        return false;
      }
      ghost var was := Components();
      var m, made := Construct(wraps, mask);
      var wasmeta, wasdata := meta, data;
      meta, data := m, made;
      changed := true;
      if mask != {} && wasmeta.mask != {} {
        MoveShared(wraps, wasmeta, wasdata, m, made, Initials(wraps, mask), Updated(wraps, was, mask));
      } else {
        NothingToMove(wraps, was, wasmeta.mask, mask);
      }
      HeldIsRead(wraps, m, made[..], Updated(wraps, was, mask));
    }

    method AddComponents(mask: Mask) returns (changed: bool)
      requires Valid() && InRange(mask)
      modifies this
      ensures Valid() && meta.mask == old(meta.mask) + mask && changed == !(mask <= old(meta.mask))
      ensures Components() == Updated(wraps, old(Components()), old(meta.mask) + mask)
    {
      changed := UpdateComponents(meta.mask + mask);
    }

    method RemoveComponents(mask: Mask) returns (changed: bool)
      requires Valid() && InRange(mask)
      modifies this
      ensures Valid() && meta.mask == old(meta.mask) - mask && changed == (old(meta.mask) * mask != {})
      ensures Components() == Updated(wraps, old(Components()), old(meta.mask) - mask)
    {
      TakesSome(meta.mask, mask);
      changed := UpdateComponents(meta.mask - mask);
    }
  }

  lemma TakesSome(mask: Mask, less: Mask)
    ensures mask - less != mask <==> mask * less != {}
  {
    if mask * less == {} {
      assert forall k :: k in mask ==> (k in mask * less <==> k in less);
      assert mask - less == mask;
    } else {
      HasMember(mask * less);
      var k :| k in mask * less;
      assert k in mask && k !in mask - less;
    }
  }

  lemma NothingToMove(wraps: seq<Wrap>, was: Values, wasmask: Mask, mask: Mask)
    requires |wraps| == 64 && (wasmask == {} || mask == {})
    requires forall i :: i in was <==> Present(wraps, wasmask, i)
    ensures Updated(wraps, was, mask) == Initials(wraps, mask)
  {
  }

  // Any sequence of changes of the mask.
  function AfterAll(wraps: seq<Wrap>, values: Values, masks: seq<Mask>): Values
    requires |wraps| == 64
  {
    if masks == [] then values
    else Updated(wraps, AfterAll(wraps, values, masks[..|masks| - 1]), masks[|masks| - 1])
  }

  // In the first layout and in every one since.
  ghost predicate Stayed(wraps: seq<Wrap>, values: Values, masks: seq<Mask>, i: int)
    requires |wraps| == 64
  {
    i in values && forall k :: 0 <= k < |masks| ==> Present(wraps, masks[k], i)
  }

  // After any sequence of changes a component is there exactly when it is in the last
  // mask, with its old value if it was there all along and its initial one otherwise.
  lemma {:induction false} OnlyStayersKeepValues(wraps: seq<Wrap>, values: Values, masks: seq<Mask>, i: int)
    requires |wraps| == 64 && masks != []
    ensures var r := AfterAll(wraps, values, masks);
            && (i in r <==> Present(wraps, masks[|masks| - 1], i))
            && (i in r ==> r[i] == if Stayed(wraps, values, masks, i) then values[i] else wraps[i].initial)
  {
    var front := masks[..|masks| - 1];
    if front != [] {
      OnlyStayersKeepValues(wraps, values, front, i);
      assert forall k :: 0 <= k < |front| ==> front[k] == masks[k];
    }
  }
}
