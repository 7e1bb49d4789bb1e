// The packer's hand-written SHA-1 against the definition in FIPS 180-4.
module Sha1 {

  type Byte = bv8
  type Word = bv32

  // ---- FIPS 180-4 ------------------------------------------------------------

  // Section 3.2: circular left shift.
  function RotL(x: Word, n: Word): Word
    requires n <= 32
  {
    (x << n) | (x >> (32 - n))
  }

  // Section 4.1.1.
  function Ch(x: Word, y: Word, z: Word): Word { (x & y) ^ (!x & z) }
  function Parity(x: Word, y: Word, z: Word): Word { x ^ y ^ z }
  function Maj(x: Word, y: Word, z: Word): Word { (x & y) ^ (x & z) ^ (y & z) }

  function F(t: nat, x: Word, y: Word, z: Word): Word {
    if t < 20 then Ch(x, y, z)
    else if t < 40 then Parity(x, y, z)
    else if t < 60 then Maj(x, y, z)
    else Parity(x, y, z)
  }

  // Section 4.2.1.
  function K(t: nat): Word {
    if t < 20 then 0x5a827999
    else if t < 40 then 0x6ed9eba1
    else if t < 60 then 0x8f1bbcdc
    else 0xca62c1d6
  }

  // Section 6.1.2, step 1: the message schedule.
  function Schedule(m: seq<Word>, t: nat): Word
    requires |m| == 16
  {
    if t < 16 then m[t]
    else RotL(Schedule(m, t - 3) ^ Schedule(m, t - 8) ^ Schedule(m, t - 14) ^ Schedule(m, t - 16), 1)
  }

  datatype Registers = Registers(a: Word, b: Word, c: Word, d: Word, e: Word)

  // Step 3: one round with function value `f` and constant `k`, and the first `t` rounds.
  function Sum(a: Word, f: Word, e: Word, k: Word, w: Word): Word {
    RotL(a, 5) + f + e + k + w
  }

  function Step(r: Registers, f: Word, k: Word, w: Word): Registers {
    Registers(Sum(r.a, f, r.e, k, w), r.a, RotL(r.b, 30), r.c, r.d)
  }

  function Round(r: Registers, t: nat, w: Word): Registers {
    Step(r, F(t, r.b, r.c, r.d), K(t), w)
  }

  function Rounds(h: Registers, m: seq<Word>, t: nat): Registers
    requires |m| == 16
  {
    if t == 0 then h else Round(Rounds(h, m, t - 1), t - 1, Schedule(m, t - 1))
  }

  // Addition modulo 2^32.
  function Plus(x: Word, y: Word): Word { x + y }

  function Added(h: seq<Word>, r: Registers): (s: seq<Word>)
    requires |h| == 5
    ensures |s| == 5
  {
    [Plus(h[0], r.a), Plus(h[1], r.b), Plus(h[2], r.c), Plus(h[3], r.d), Plus(h[4], r.e)]
  }

  // Steps 2 and 4.
  function Compress(h: seq<Word>, m: seq<Word>): seq<Word>
    requires |h| == 5 && |m| == 16
  {
    Added(h, Rounds(Registers(h[0], h[1], h[2], h[3], h[4]), m, 80))
  }

  function WordOf(b0: Byte, b1: Byte, b2: Byte, b3: Byte): Word {
    ((b0 as Word) << 24) | ((b1 as Word) << 16) | ((b2 as Word) << 8) | (b3 as Word)
  }

  // Section 5.2.1: a block is sixteen big-endian words.
  function WordAt(bytes: seq<Byte>, i: nat): Word
    requires 4 * i + 4 <= |bytes|
  {
    WordOf(bytes[4 * i], bytes[4 * i + 1], bytes[4 * i + 2], bytes[4 * i + 3])
  }

  function Words(bytes: seq<Byte>): (w: seq<Word>)
    requires |bytes| == 64
    ensures |w| == 16
  {
    seq(16, i requires 0 <= i < 16 => WordAt(bytes, i))
  }

  // Section 5.3.1.
  const INITIAL: seq<Word> := [0x67452301, 0xefcdab89, 0x98badcfe, 0x10325476, 0xc3d2e1f0]

  function HashBlocks(bytes: seq<Byte>): (h: seq<Word>)
    requires |bytes| % 64 == 0
    ensures |h| == 5
  {
    if bytes == [] then INITIAL
    else Compress(HashBlocks(bytes[..|bytes| - 64]), Words(bytes[|bytes| - 64..]))
  }

  function Zeros(n: nat): (z: seq<Byte>)
    ensures |z| == n
  {
    seq(n, _ => 0 as Byte)
  }

  // The low 32 digits of n in binary.
  function Binary(n: nat): Word {
    if n == 0 then 0 else (Binary(n / 2) << 1) | (if n % 2 == 1 then 1 else 0)
  }

  function Bytes(w: Word): (b: seq<Byte>)
    ensures |b| == 4
  {
    [((w >> 24) & 0xFF) as Byte, ((w >> 16) & 0xFF) as Byte, ((w >> 8) & 0xFF) as Byte, (w & 0xFF) as Byte]
  }

  // The low 32 bits of n as four big-endian bytes, and as a word.
  function BigEndian32(n: nat): (b: seq<Byte>)
    ensures |b| == 4
  {
    Bytes(Binary(n))
  }

  function U32(n: nat): Word {
    WordAt(BigEndian32(n), 0)
  }

  function BigEndian64(n: nat): (b: seq<Byte>)
    ensures |b| == 8
  {
    BigEndian32(n / 0x1_0000_0000) + BigEndian32(n)
  }

  // Section 5.1.1: one bit, then zeros up to 448 modulo 512 bits, then the length in bits.
  function ZeroCount(n: nat): (k: nat)
    ensures (n + 1 + k) % 64 == 56
    ensures forall j: nat {:trigger (n + 1 + j) % 64} :: j < k ==> (n + 1 + j) % 64 != 56
  {
    (119 - n % 64) % 64
  }

  function Padded(data: seq<Byte>, length: seq<Byte>): (p: seq<Byte>)
    requires |length| == 8
    ensures |p| % 64 == 0
  {
    data + [0x80 as Byte] + Zeros(ZeroCount(|data|)) + length
  }

  function Fips(data: seq<Byte>): seq<Word> {
    HashBlocks(Padded(data, BigEndian64(8 * |data|)))
  }

  // Section 6.1.2, end: the five words, big-endian.
  function DigestByte(h: seq<Word>, i: nat): Byte
    requires |h| == 5 && i < 20
  {
    var w := h[i / 4];
    if i % 4 == 0 then ((w >> 24) & 0xFF) as Byte
    else if i % 4 == 1 then ((w >> 16) & 0xFF) as Byte
    else if i % 4 == 2 then ((w >> 8) & 0xFF) as Byte
    else (w & 0xFF) as Byte
  }

  // ---- The code's forms of the same things -------------------------------------

  function ChoiceByOr(x: Word, y: Word, z: Word): Word { (x & y) | (!x & z) }
  function MajorityByOr(x: Word, y: Word, z: Word): Word { (x & y) | (x & z) | (y & z) }

  lemma ChoiceForms(x: Word, y: Word, z: Word)
    ensures ChoiceByOr(x, y, z) == Ch(x, y, z)
  {
    assert (x & y) | (!x & z) == (x & y) ^ (!x & z);
  }

  lemma MajorityForms(x: Word, y: Word, z: Word)
    ensures MajorityByOr(x, y, z) == Maj(x, y, z)
  {
    assert (x & y) | (x & z) | (y & z) == (x & y) ^ (x & z) ^ (y & z);
  }

  // The function value and constant the code uses in round t.
  function CodeF(t: nat, x: Word, y: Word, z: Word): Word {
    if t < 20 then ChoiceByOr(x, y, z)
    else if t < 40 then Parity(x, y, z)
    else if t < 60 then MajorityByOr(x, y, z)
    else Parity(x, y, z)
  }

  // What the schedule loop leaves in `temp`.
  ghost predicate Scheduled(temp: seq<Word>, m: seq<Word>, upTo: nat) {
    |m| == 16 && upTo <= |temp| && forall t :: 0 <= t < upTo ==> temp[t] == Schedule(m, t)
  }

  lemma NextRound(h: Registers, m: seq<Word>, t: nat, r: Registers)
    requires |m| == 16 && r == Rounds(h, m, t)
    ensures Rounds(h, m, t + 1) == Step(r, CodeF(t, r.b, r.c, r.d), K(t), Schedule(m, t))
  {
    ChoiceForms(r.b, r.c, r.d);
    MajorityForms(r.b, r.c, r.d);
  }

  // The macro of the first sixteen rounds: `f` and `v` are the function value and constant.
  method ShiftSwap(a0: Word, b0: Word, c0: Word, d0: Word, e0: Word, f: Word, v: Word,
                   temp: array<Word>, round: nat, ghost h: Registers, ghost m: seq<Word>)
    returns (a: Word, b: Word, c: Word, d: Word, e: Word)
    requires round < temp.Length && Scheduled(temp[..], m, round + 1)
    requires Registers(a0, b0, c0, d0, e0) == Rounds(h, m, round)
    requires f == CodeF(round, b0, c0, d0) && v == K(round)
    ensures Registers(a, b, c, d, e) == Rounds(h, m, round + 1)
  {
    NextRound(h, m, round, Registers(a0, b0, c0, d0, e0));
    assert temp[..][round] == Schedule(m, round);
    a, b, c, d, e := a0, b0, c0, d0, e0;
    var t := Sum(a, f, e, v, temp[round]);
    e := d;
    d := c;
    c := RotL(b, 30);
    b := a;
    a := t;
  }

  method Extend(temp: array<Word>, round: nat, ghost m: seq<Word>)
    requires temp.Length == 80 && 16 <= round < 80 && Scheduled(temp[..], m, round)
    modifies temp
    ensures Scheduled(temp[..], m, round + 1)
  {
    ghost var was := temp[..];
    assert was[round - 3] == Schedule(m, round - 3) && was[round - 8] == Schedule(m, round - 8);
    assert was[round - 14] == Schedule(m, round - 14) && was[round - 16] == Schedule(m, round - 16);
    temp[round] := RotL(temp[round - 3] ^ temp[round - 8] ^ temp[round - 14] ^ temp[round - 16], 1);
    assert temp[..] == was[round := Schedule(m, round)];
  }

  // The macro of the later rounds extends the schedule first.
  method ShiftShiftSwap(a0: Word, b0: Word, c0: Word, d0: Word, e0: Word, f: Word, v: Word,
                        temp: array<Word>, round: nat, ghost h: Registers, ghost m: seq<Word>)
    returns (a: Word, b: Word, c: Word, d: Word, e: Word)
    requires temp.Length == 80 && 16 <= round < 80 && Scheduled(temp[..], m, round)
    requires Registers(a0, b0, c0, d0, e0) == Rounds(h, m, round)
    requires f == CodeF(round, b0, c0, d0) && v == K(round)
    modifies temp
    ensures Scheduled(temp[..], m, round + 1)
    ensures Registers(a, b, c, d, e) == Rounds(h, m, round + 1)
  {
    Extend(temp, round, m);
    a, b, c, d, e := ShiftSwap(a0, b0, c0, d0, e0, f, v, temp, round, h, m);
  }

  method PartHash(sha: array<Word>, temp: array<Word>)
    requires sha.Length == 5 && temp.Length == 80 && sha != temp
    modifies sha, temp
    ensures sha[..] == Compress(old(sha[..]), old(temp[..16]))
  {
    ghost var h, m := sha[..], temp[..16];
    ghost var start := Registers(h[0], h[1], h[2], h[3], h[4]);
    var a, b, c, d, e := sha[0], sha[1], sha[2], sha[3], sha[4];
    var round := 0;
    while round < 16
      invariant 0 <= round <= 16 && Scheduled(temp[..], m, 16) && sha[..] == h
      invariant Registers(a, b, c, d, e) == Rounds(start, m, round)
    {
      a, b, c, d, e := ShiftSwap(a, b, c, d, e, ChoiceByOr(b, c, d), 0x5a827999, temp, round, start, m);
      round := round + 1;
    }
    while round < 20
      invariant 16 <= round <= 20 && Scheduled(temp[..], m, round) && sha[..] == h
      invariant Registers(a, b, c, d, e) == Rounds(start, m, round)
    {
      a, b, c, d, e := ShiftShiftSwap(a, b, c, d, e, ChoiceByOr(b, c, d), 0x5a827999, temp, round, start, m);
      round := round + 1;
    }
    while round < 40
      invariant 20 <= round <= 40 && Scheduled(temp[..], m, round) && sha[..] == h
      invariant Registers(a, b, c, d, e) == Rounds(start, m, round)
    {
      a, b, c, d, e := ShiftShiftSwap(a, b, c, d, e, Parity(b, c, d), 0x6ed9eba1, temp, round, start, m);
      round := round + 1;
    }
    while round < 60
      invariant 40 <= round <= 60 && Scheduled(temp[..], m, round) && sha[..] == h
      invariant Registers(a, b, c, d, e) == Rounds(start, m, round)
    {
      a, b, c, d, e := ShiftShiftSwap(a, b, c, d, e, MajorityByOr(b, c, d), 0x8f1bbcdc, temp, round, start, m);
      round := round + 1;
    }
    while round < 80
      invariant 60 <= round <= 80 && Scheduled(temp[..], m, round) && sha[..] == h
      invariant Registers(a, b, c, d, e) == Rounds(start, m, round)
    {
      a, b, c, d, e := ShiftShiftSwap(a, b, c, d, e, Parity(b, c, d), 0xca62c1d6, temp, round, start, m);
      round := round + 1;
    }
    AddTo(sha, a, b, c, d, e);
  }

  method AddTo(sha: array<Word>, a: Word, b: Word, c: Word, d: Word, e: Word)
    requires sha.Length == 5
    modifies sha
    ensures sha[..] == Added(old(sha[..]), Registers(a, b, c, d, e))
  {
    ghost var was := sha[..];
    sha[0] := Plus(sha[0], a);
    sha[1] := Plus(sha[1], b);
    sha[2] := Plus(sha[2], c);
    sha[3] := Plus(sha[3], d);
    sha[4] := Plus(sha[4], e);
    assert sha[..] == [Plus(was[0], a), Plus(was[1], b), Plus(was[2], c), Plus(was[3], d), Plus(was[4], e)];
  }

  // ---- Blocks and padding --------------------------------------------------------

  // Four bytes of a full block, put together from the low end.
  function ReadWord(b0: Byte, b1: Byte, b2: Byte, b3: Byte): Word {
    (b3 as Word) | ((b2 as Word) << 8) | ((b1 as Word) << 16) | ((b0 as Word) << 24)
  }

  lemma ReadWordIsWordOf(b0: Byte, b1: Byte, b2: Byte, b3: Byte)
    ensures ReadWord(b0, b1, b2, b3) == WordOf(b0, b1, b2, b3)
  {
    assert (b3 as Word) | ((b2 as Word) << 8) | ((b1 as Word) << 16) | ((b0 as Word) << 24)
        == ((b0 as Word) << 24) | ((b1 as Word) << 16) | ((b2 as Word) << 8) | (b3 as Word);
  }

  method ReadBlock(temp: array<Word>, data: seq<Byte>, start: nat)
    requires temp.Length == 80 && start + 64 <= |data|
    modifies temp
    ensures temp[..16] == Words(data[start..start + 64])
  {
    var block, i := start, 0;
    ghost var bytes := data[start..start + 64];
    while block < start + 64
      invariant 0 <= i <= 16 && block == start + 4 * i
      invariant forall j :: 0 <= j < i ==> temp[j] == Words(bytes)[j]
    {
      ReadWordIsWordOf(data[block], data[block + 1], data[block + 2], data[block + 3]);
      assert bytes[4 * i] == data[block] && bytes[4 * i + 1] == data[block + 1];
      assert bytes[4 * i + 2] == data[block + 2] && bytes[4 * i + 3] == data[block + 3];
      temp[i] := ReadWord(data[block], data[block + 1], data[block + 2], data[block + 3]);
      assert temp[i] == WordAt(bytes, i);
      i := i + 1;
      block := block + 4;
    }
    assert temp[..16] == Words(bytes);
  }

  // A byte moved to its place in a word of the last block.
  function Shifted(b: Byte, pos: nat): Word
    requires pos < 4
  {
    (b as Word) << ((3 - pos) * 8)
  }

  lemma ShiftedHigh(b: Byte)
    ensures Shifted(b, 0) == (b as Word) << 24 && Shifted(b, 1) == (b as Word) << 16
  {
  }

  lemma ShiftedLow(b: Byte)
    ensures Shifted(b, 2) == (b as Word) << 8 && Shifted(b, 3) == (b as Word) << 0
  {
  }

  function Merged(w: Word, b: Byte, pos: nat): Word
    requires pos < 4
  {
    w | Shifted(b, pos)
  }

  lemma OrByte0(b1: Byte, b2: Byte, b3: Byte, b: Byte)
    ensures Merged(WordOf(0, b1, b2, b3), b, 0) == WordOf(b, b1, b2, b3)
  {
    ShiftedHigh(b);
  }

  lemma OrByte1(b0: Byte, b2: Byte, b3: Byte, b: Byte)
    ensures Merged(WordOf(b0, 0, b2, b3), b, 1) == WordOf(b0, b, b2, b3)
  {
    ShiftedHigh(b);
  }

  lemma OrByte2(b0: Byte, b1: Byte, b3: Byte, b: Byte)
    ensures Merged(WordOf(b0, b1, 0, b3), b, 2) == WordOf(b0, b1, b, b3)
  {
    ShiftedLow(b);
  }

  lemma OrByte3(b0: Byte, b1: Byte, b2: Byte, b: Byte)
    ensures Merged(WordOf(b0, b1, b2, 0), b, 3) == WordOf(b0, b1, b2, b)
  {
    ShiftedLow(b);
  }

  lemma OrByte(bytes: seq<Byte>, pos: nat, b: Byte)
    requires |bytes| == 4 && pos < 4 && bytes[pos] == 0
    ensures Merged(WordAt(bytes, 0), b, pos) == WordAt(bytes[pos := b], 0)
  {
    if pos == 0 {
      OrByte0(bytes[1], bytes[2], bytes[3], b);
    } else if pos == 1 {
      OrByte1(bytes[0], bytes[2], bytes[3], b);
    } else if pos == 2 {
      OrByte2(bytes[0], bytes[1], bytes[3], b);
    } else {
      OrByte3(bytes[0], bytes[1], bytes[2], b);
    }
  }

  lemma WordOfSlice(bytes: seq<Byte>, i: nat)
    requires 4 * i + 4 <= |bytes|
    ensures WordAt(bytes, i) == WordAt(bytes[4 * i..4 * i + 4], 0)
  {
  }

  lemma MergedWord(bytes: seq<Byte>, k: nat, pos: nat, b: Byte)
    requires |bytes| == 64 && k < 16 && pos < 4 && bytes[4 * k + pos] == 0
    ensures Merged(WordAt(bytes, k), b, pos) == WordAt(bytes[4 * k + pos := b], k)
  {
    var after := bytes[4 * k + pos := b];
    WordOfSlice(bytes, k);
    WordOfSlice(after, k);
    assert after[4 * k..4 * k + 4] == bytes[4 * k..4 * k + 4][pos := b];
    OrByte(bytes[4 * k..4 * k + 4], pos, b);
  }

  lemma OrIntoWords(bytes: seq<Byte>, last: nat, b: Byte)
    requires |bytes| == 64 && last < 64 && bytes[last] == 0
    ensures var w := Words(bytes);
            w[last / 4 := Merged(w[last / 4], b, last % 4)] == Words(bytes[last := b])
  {
    MergedWord(bytes, last / 4, last % 4, b);
    forall j | 0 <= j < 16 && j != last / 4 ensures WordAt(bytes[last := b], j) == WordAt(bytes, j) {
      OtherWord(bytes, last, b, j);
    }
  }

  lemma OtherWord(bytes: seq<Byte>, last: nat, b: Byte, j: nat)
    requires |bytes| == 64 && last < 64 && j < 16 && j != last / 4
    ensures WordAt(bytes[last := b], j) == WordAt(bytes, j)
  {
  }

  lemma ZeroWords()
    ensures Words(Zeros(64)) == seq(16, _ => 0 as Word)
  {
    assert WordOf(0, 0, 0, 0) == 0;
    forall j | 0 <= j < 16 ensures WordAt(Zeros(64), j) == 0 {
    }
  }

  method ClearTemp(temp: array<Word>)
    requires temp.Length == 80
    modifies temp
    ensures temp[..16] == Words(Zeros(64))
  {
    for i := 0 to 16
      invariant forall j :: 0 <= j < i ==> temp[j] == 0
    {
      temp[i] := 0;
    }
    ZeroWords();
    assert temp[..16] == seq(16, _ => 0 as Word);
  }

  // The bytes after the last full block, the 0x80 that ends them, and zeros.
  function Tail(rest: seq<Byte>): (t: seq<Byte>)
    requires |rest| < 64
    ensures |t| == 64
  {
    rest + [0x80 as Byte] + Zeros(63 - |rest|)
  }

  method OrInto(temp: array<Word>, last: nat, b: Byte, ghost bytes: seq<Byte>)
    requires temp.Length == 80 && |bytes| == 64 && last < 64 && bytes[last] == 0
    requires temp[..16] == Words(bytes)
    modifies temp
    ensures temp[..16] == Words(bytes[last := b])
  {
    OrIntoWords(bytes, last, b);
    assert temp[..16][last / 4] == temp[last / 4];
    ghost var was := temp[..16];
    temp[last / 4] := Merged(temp[last / 4], b, last % 4);
    assert temp[..16] == was[last / 4 := temp[last / 4]];
  }

  method ReadTail(temp: array<Word>, data: seq<Byte>, block: nat)
    requires temp.Length == 80 && block <= |data| < block + 64
    modifies temp
    ensures temp[..16] == Words(Tail(data[block..]))
  {
    ClearTemp(temp);
    var end := |data| - block;
    ghost var rest := data[block..];
    var last := 0;
    assert rest[..0] + Zeros(64) == Zeros(64);
    while last < end
      invariant 0 <= last <= end && temp[..16] == Words(rest[..last] + Zeros(64 - last))
    {
      ghost var bytes := rest[..last] + Zeros(64 - last);
      OrInto(temp, last, data[last + block], bytes);
      last := last + 1;
      assert bytes[last - 1 := data[last - 1 + block]] == rest[..last] + Zeros(64 - last);
    }
    ghost var bytes := rest[..last] + Zeros(64 - last);
    OrInto(temp, last, 0x80, bytes);
    assert bytes[last := 0x80] == Tail(rest);
  }

  // Whole blocks, and one more.
  function WithBlock(a: seq<Byte>, b: seq<Byte>): (r: seq<Byte>)
    requires |a| % 64 == 0 && |b| == 64
    ensures |r| % 64 == 0
  {
    a + b
  }

  lemma HashOneMore(a: seq<Byte>, b: seq<Byte>)
    requires |a| % 64 == 0 && |b| == 64
    ensures HashBlocks(WithBlock(a, b)) == Compress(HashBlocks(a), Words(b))
  {
    assert (a + b)[..|a + b| - 64] == a && (a + b)[|a + b| - 64..] == b;
  }

  // The last word of a block holds the length.
  lemma LengthWord(bytes: seq<Byte>, n: nat)
    requires |bytes| == 64
    ensures Words(bytes)[15 := U32(n)] == Words(bytes[..60] + BigEndian32(n))
  {
    var after := bytes[..60] + BigEndian32(n);
    WordOfSlice(after, 15);
    assert after[60..64] == BigEndian32(n);
    forall j | 0 <= j < 15 ensures WordAt(after, j) == WordAt(bytes, j) {
    }
  }

  lemma BytesAreWord(w: Word)
    ensures WordOf(Bytes(w)[0], Bytes(w)[1], Bytes(w)[2], Bytes(w)[3]) == w
  {
  }

  lemma DoubleIsShift(n: nat)
    ensures Binary(2 * n) == Binary(n) << 1
  {
    assert 2 * n / 2 == n && 2 * n % 2 == 0;
  }

  lemma ThreeShifts(w: Word)
    ensures ((w << 1) << 1) << 1 == w << 3
  {
  }

  // `len << 3` on 32 bits: the number of bits, without what goes beyond 32 digits.
  lemma ShiftIsTimesEight(len: nat)
    ensures Binary(len) << 3 == U32(8 * len)
  {
    DoubleIsShift(len);
    DoubleIsShift(2 * len);
    DoubleIsShift(4 * len);
    ThreeShifts(Binary(len));
    BytesAreWord(Binary(8 * len));
  }

  // The length field as the code writes it: a 32-bit count of bits under four zero bytes.
  function CodeLength(n: nat): (b: seq<Byte>)
    ensures |b| == 8
  {
    Zeros(4) + BigEndian32(8 * n)
  }

  // What the code hashes: the padding of FIPS 180-4 but for the high half of the length.
  function CodeHash(data: seq<Byte>): (h: seq<Word>)
    ensures |h| == 5
  {
    HashBlocks(Padded(data, CodeLength(|data|)))
  }

  // The block that carries the length after sixty given bytes.
  function LengthBlock(bytes: seq<Byte>, len: nat): (b: seq<Byte>)
    requires |bytes| == 64
    ensures |b| == 64
  {
    bytes[..60] + BigEndian32(8 * len)
  }

  lemma PaddedShort(data: seq<Byte>, block: nat)
    requires block <= |data| < block + 56 && block % 64 == 0
    ensures Padded(data, CodeLength(|data|)) == WithBlock(data[..block], LengthBlock(Tail(data[block..]), |data|))
  {
    var rest := data[block..];
    assert data == data[..block] + rest;
    assert ZeroCount(|data|) == 55 - |rest|;
    assert Tail(rest)[..60] == rest + [0x80 as Byte] + Zeros(55 - |rest|) + Zeros(4);
  }

  lemma PaddedLong(data: seq<Byte>, block: nat)
    requires block + 56 <= |data| < block + 64 && block % 64 == 0
    ensures Padded(data, CodeLength(|data|))
         == WithBlock(WithBlock(data[..block], Tail(data[block..])), LengthBlock(Zeros(64), |data|))
  {
    var rest := data[block..];
    assert data == data[..block] + rest;
    assert ZeroCount(|data|) == 119 - |rest|;
    assert Zeros(119 - |rest|) + Zeros(4) == Zeros(63 - |rest|) + Zeros(64)[..60];
  }

  // One byte of the result, picked out of its word.
  function Pick(w: Word, shift: nat): Byte
    requires shift <= 32
  {
    ((w >> shift) & 0xFF) as Byte
  }

  function PickByte(w: Word, i: nat): Byte {
    Pick(w, ((3 - i) % 4) * 8)
  }

  lemma PickHigh(w: Word)
    ensures Pick(w, 24) == ((w >> 24) & 0xFF) as Byte && Pick(w, 16) == ((w >> 16) & 0xFF) as Byte
  {
  }

  lemma PickLow(w: Word)
    ensures Pick(w, 8) == ((w >> 8) & 0xFF) as Byte && Pick(w, 0) == (w & 0xFF) as Byte
  {
  }

  lemma PickShift(i: nat)
    requires i < 20
    ensures ((3 - i) % 4) * 8 == if i % 4 == 0 then 24 else if i % 4 == 1 then 16 else if i % 4 == 2 then 8 else 0
  {
  }

  lemma PickIsDigest(h: seq<Word>, i: nat)
    requires |h| == 5 && i < 20
    ensures PickByte(h[i / 4], i) == DigestByte(h, i)
  {
    PickShift(i);
    PickHigh(h[i / 4]);
    PickLow(h[i / 4]);
  }

  // The source counts bytes in 32 bits: from 2^32 - 64 on its loop condition wraps around.
  method HashSha1(data: seq<Byte>, dest: array<Byte>)
    requires dest.Length == 20 && |data| < 0x1_0000_0000 - 64
    modifies dest
    ensures forall i :: 0 <= i < 20 ==> dest[i] == DigestByte(CodeHash(data), i)
  {
    var temp := new Word[80];
    var sha := new Word[5] [0x67452301, 0xefcdab89, 0x98badcfe, 0x10325476, 0xc3d2e1f0];
    var block := 0;
    assert data[..0] == [] && sha[..] == INITIAL;
    while block + 64 <= |data|
      invariant block <= |data| && block % 64 == 0
      invariant sha[..] == HashBlocks(data[..block])
    {
      ReadBlock(temp, data, block);
      PartHash(sha, temp);
      assert data[..block + 64] == WithBlock(data[..block], data[block..block + 64]);
      HashOneMore(data[..block], data[block..block + 64]);
      block := block + 64;
    }
    LastBlocks(sha, temp, data, block);
    WriteDigest(sha, dest);
  }

  method WriteDigest(sha: array<Word>, dest: array<Byte>)
    requires sha.Length == 5 && dest.Length == 20
    modifies dest
    ensures forall i :: 0 <= i < 20 ==> dest[i] == DigestByte(sha[..], i)
  {
    var i := 19;
    while 0 <= i
      invariant -1 <= i < 20
      invariant forall j :: i < j < 20 ==> dest[j] == DigestByte(sha[..], j)
    {
      PickIsDigest(sha[..], i);
      dest[i] := PickByte(sha[i / 4], i);
      i := i - 1;
    }
  }

  // The end of the data, the padding, and one or two more blocks.
  method LastBlocks(sha: array<Word>, temp: array<Word>, data: seq<Byte>, block: nat)
    requires sha.Length == 5 && temp.Length == 80 && sha != temp
    requires block <= |data| < block + 64 && block % 64 == 0 && sha[..] == HashBlocks(data[..block])
    modifies sha, temp
    ensures sha[..] == CodeHash(data)
  {
    ghost var done, rest := data[..block], Tail(data[block..]);
    ReadTail(temp, data, block);
    if |data| - block >= 56 {
      PartHash(sha, temp);
      HashOneMore(done, rest);
      PaddedLong(data, block);
      ClearTemp(temp);
      done, rest := WithBlock(done, rest), Zeros(64);
    } else {
      PaddedShort(data, block);
    }
    HashLength(sha, temp, |data|, done, rest);
  }

  method HashLength(sha: array<Word>, temp: array<Word>, len: nat, ghost done: seq<Byte>, ghost bytes: seq<Byte>)
    requires sha.Length == 5 && temp.Length == 80 && sha != temp
    requires |done| % 64 == 0 && |bytes| == 64
    requires sha[..] == HashBlocks(done) && temp[..16] == Words(bytes)
    modifies sha, temp
    ensures sha[..] == HashBlocks(WithBlock(done, LengthBlock(bytes, len)))
  {
    LengthWord(bytes, 8 * len);
    ShiftIsTimesEight(len);
    ghost var was := temp[..16];
    temp[15] := Binary(len) << 3;
    assert temp[..16] == was[15 := U32(8 * len)];
    PartHash(sha, temp);
    HashOneMore(done, LengthBlock(bytes, len));
  }

  // ---- Where the code is SHA-1 ---------------------------------------------------

  // Below eight the digits are zero only for zero.
  lemma SmallBinary(x: nat)
    requires x < 8
    ensures Binary(x) == 0 <==> x == 0
  {
    if x > 0 {
      SmallBinary(x / 2);
      assert Binary(x / 2) < 4;
    }
  }

  lemma ZeroBytes(w: Word)
    ensures Bytes(w) == Zeros(4) <==> w == 0
  {
    BytesAreWord(w);
    var z := Zeros(4);
    assert z[0] == 0 && z[1] == 0 && z[2] == 0 && z[3] == 0;
    if Bytes(w) == z {
      assert w == WordOf(0, 0, 0, 0);
    }
  }

  lemma HighHalf(n: nat)
    requires n < 0x1_0000_0000
    ensures BigEndian32(8 * n / 0x1_0000_0000) == Zeros(4) <==> n < 0x2000_0000
  {
    var hi := 8 * n / 0x1_0000_0000;
    assert hi < 8 && (hi == 0 <==> n < 0x2000_0000);
    SmallBinary(hi);
    ZeroBytes(Binary(hi));
  }

  // Main result: the code's padding is that of FIPS 180-4 exactly for data below 2^29 bytes.
  lemma SamePaddingIff(data: seq<Byte>)
    requires |data| < 0x1_0000_0000
    ensures Padded(data, CodeLength(|data|)) == Padded(data, BigEndian64(8 * |data|)) <==> |data| < 0x2000_0000
  {
    var n := |data|;
    var front := data + [0x80 as Byte] + Zeros(ZeroCount(n));
    var code, fips := CodeLength(n), BigEndian64(8 * n);
    assert (front + code)[|front|..] == code && (front + fips)[|front|..] == fips;
    HighHalf(n);
    assert code[..4] == Zeros(4) && fips[..4] == BigEndian32(8 * n / 0x1_0000_0000);
    assert code[4..] == fips[4..];
    if BigEndian32(8 * n / 0x1_0000_0000) == Zeros(4) {
      assert code == code[..4] + code[4..] && fips == fips[..4] + fips[4..];
    }
  }

  // Main result: below that bound every digest is the one of FIPS 180-4.
  lemma CodeIsFips(data: seq<Byte>)
    requires |data| < 0x2000_0000
    ensures CodeHash(data) == Fips(data)
  {
    SamePaddingIff(data);
  }
}
