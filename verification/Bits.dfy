// pkg/bits: a bit-level reader and writer over bytes.
//
// Both are described by one abstraction. A buffer is an infinite string of
// bits, most significant bit of each byte first, continued with zeros after
// the last byte; Num(data, at, n) is the number written in the n bits from
// position `at`.

module Bits {
  import opened Bytes

  function Pow2(n: nat): (p: nat)
    ensures p > 0
  {
    if n == 0 then 1 else 2 * Pow2(n - 1)
  }

  // x >> n.
  function Shr(x: nat, n: nat): nat {
    if n == 0 then x else Shr(x, n - 1) / 2
  }

  function ByteAt(data: Data, i: nat): byte {
    if i < |data| then data[i] else 0
  }

  function BitAt(data: Data, at: nat): (b: nat)
    ensures b <= 1
  {
    Shr(ByteAt(data, at / 8), 7 - at % 8) % 2
  }

  function Num(data: Data, at: nat, n: nat): (v: nat)
    ensures v < Pow2(n)
  {
    if n == 0 then 0 else 2 * Num(data, at, n - 1) + BitAt(data, at + n - 1)
  }

  lemma {:induction false} Pow2Add(m: nat, n: nat)
    ensures Pow2(m + n) == Pow2(m) * Pow2(n)
  {
    if n > 0 {
      Pow2Add(m, n - 1);
      assert Pow2(m + n) == 2 * (Pow2(m) * Pow2(n - 1)) == Pow2(m) * Pow2(n);
    }
  }

  lemma Pow2Values()
    ensures Pow2(1) == 2 && Pow2(2) == 4 && Pow2(3) == 8 && Pow2(4) == 16 && Pow2(5) == 32
    ensures Pow2(6) == 64 && Pow2(7) == 128 && Pow2(8) == 256 && Pow2(10) == 0x400 && Pow2(13) == 0x2000
    ensures Pow2(16) == 0x1_0000 && Pow2(32) == 0x1_0000_0000
  {
    assert Pow2(8) == 0x100 by { assert Pow2(4) == 16; }
    Pow2Add(8, 8);
    Pow2Add(16, 16);
    assert Pow2(10) == 4 * Pow2(8) && Pow2(13) == 8 * Pow2(10);
  }

  // Quotient and remainder are unique.
  lemma DivMod(q: nat, r: nat, m: nat)
    requires r < m
    ensures (q * m + r) / m == q && (q * m + r) % m == r
  {
    var v := q * m + r;
    Unique(q, r, v / m, v % m, m);
  }

  lemma Unique(q: nat, r: nat, k: nat, s: nat, m: nat)
    requires r < m && s < m && q * m + r == k * m + s
    ensures q == k && r == s
  {
    if q > k {
      Below(k, q, s, m);
    } else if k > q {
      Below(q, k, r, m);
    }
  }

  lemma Below(k: nat, q: nat, s: nat, m: nat)
    requires k < q && s < m
    ensures k * m + s < q * m
  {
    AtLeast(q - k, m);
    assert q * m == (q - k) * m + k * m;
  }

  lemma AtLeast(n: nat, m: nat)
    requires n > 0
    ensures n * m >= m
  {
    assert n * m == (n - 1) * m + m;
  }

  lemma Double(a: nat, p: nat)
    ensures a * (2 * p) == 2 * (a * p)
  {
  }

  lemma Shift(a: nat, bit: nat, p: nat)
    ensures a * (2 * p) + bit * p == (2 * a + bit) * p
  {
  }

  // The first `done` bits of a field of n bits, in their places.
  function HighPart(data: Data, at: nat, done: nat, n: nat): nat
    requires done <= n
  {
    Num(data, at, done) * Pow2(n - done)
  }

  lemma HighPartEnds(data: Data, at: nat, n: nat)
    ensures HighPart(data, at, 0, n) == 0 && HighPart(data, at, n, n) == Num(data, at, n)
  {
  }

  lemma AddBit(data: Data, at: nat, done: nat, n: nat)
    requires done < n
    ensures HighPart(data, at, done + 1, n)
         == HighPart(data, at, done, n) + BitAt(data, at + done) * Pow2(n - 1 - done)
  {
    Shift(Num(data, at, done), BitAt(data, at + done), Pow2(n - 1 - done));
  }

  // A field is the concatenation of its two halves.
  lemma {:induction false} NumSplit(data: Data, at: nat, m: nat, n: nat)
    ensures Num(data, at, m + n) == Num(data, at, m) * Pow2(n) + Num(data, at + m, n)
  {
    hide BitAt;
    if n > 0 {
      NumSplit(data, at, m, n - 1);
      Double(Num(data, at, m), Pow2(n - 1));
      assert at + m + (n - 1) == at + (m + n) - 1;
      assert Num(data, at, m + n) == 2 * Num(data, at, m + n - 1) + BitAt(data, at + (m + n) - 1);
      assert Num(data, at + m, n) == 2 * Num(data, at + m, n - 1) + BitAt(data, at + m + (n - 1));
    }
  }

  lemma {:induction false} ShrBelow(x: nat, n: nat)
    requires x < Pow2(n)
    ensures Shr(x, n) == 0
  {
    if n > 0 {
      ShrComm(x, n - 1);
      ShrBelow(x / 2, n - 1);
    }
  }

  lemma {:induction false} ShrComm(x: nat, n: nat)
    ensures Shr(x, n + 1) == Shr(x / 2, n)
  {
    if n > 0 { ShrComm(x, n - 1); }
  }

  lemma ShrByte(x: byte)
    ensures Shr(x, 8) == 0
  {
    Pow2Values();
    ShrBelow(x, 8);
  }

  lemma {:induction false} NumPrefixOfByte(data: Data, i: nat, j: nat)
    requires j <= 8
    ensures Num(data, 8 * i, j) == Shr(ByteAt(data, i), 8 - j)
  {
    if j == 0 {
      ShrByte(ByteAt(data, i));
    } else {
      NumPrefixOfByte(data, i, j - 1);
      var at := 8 * i + j - 1;
      assert at / 8 == i && at % 8 == j - 1;
    }
  }

  lemma BitInByte(data: Data, i: nat, j: nat)
    requires j < 8
    ensures BitAt(data, 8 * i + j) == Shr(ByteAt(data, i), 7 - j) % 2
  {
    assert (8 * i + j) / 8 == i;
  }

  // Eight bits at a byte boundary are that byte.
  lemma NumByte(data: Data, i: nat)
    ensures Num(data, 8 * i, 8) == ByteAt(data, i)
  {
    NumPrefixOfByte(data, i, 8);
  }

  lemma NumOfFourBytes(data: Data, at: nat)
    ensures Num(data, at, 32) == Num(data, at, 8) * 0x100_0000 + Num(data, at + 8, 8) * 0x1_0000
                               + Num(data, at + 16, 8) * 0x100 + Num(data, at + 24, 8)
  {
    Pow2Values();
    NumSplit(data, at, 16, 16);
    NumSplit(data, at, 8, 8);
    NumSplit(data, at + 16, 8, 8);
  }

  // Four bytes at a byte boundary.
  lemma NumGet32(data: Data, i: nat)
    requires i + 4 <= |data|
    ensures Num(data, 8 * i, 32) == Get32(data[i..])
  {
    hide Num, Pow2;
    var at := 8 * i;
    NumOfFourBytes(data, at);
    ByteIs(data, i, at);
    ByteIs(data, i + 1, at + 8);
    ByteIs(data, i + 2, at + 16);
    ByteIs(data, i + 3, at + 24);
  }

  lemma ByteIs(data: Data, i: nat, at: nat)
    requires at == 8 * i && i < |data|
    ensures Num(data, at, 8) == data[i]
  {
    NumByte(data, i);
  }

  // A field inside two bytes, and inside one.
  lemma NumWithin(data: Data, at: nat, before: nat, n: nat, after: nat)
    ensures Num(data, at + before, n) == Num(data, at, before + n + after) / Pow2(after) % Pow2(n)
  {
    hide Num, Pow2;
    NumSplit(data, at, before + n, after);
    NumSplit(data, at, before, n);
    var high, low := Num(data, at, before), Num(data, at + before, n);
    DivMod(Num(data, at, before + n), Num(data, at + before + n, after), Pow2(after));
    DivMod(high, low, Pow2(n));
  }

  lemma TwoBytes(data: Data, p: nat)
    requires p + 2 <= |data|
    ensures Num(data, 8 * p, 16) == (data[p] as int) * 0x100 + data[p + 1]
  {
    Pow2Values();
    NumSplit(data, 8 * p, 8, 8);
    NumByte(data, p);
    ByteIs(data, p + 1, 8 * p + 8);
    hide Num;
  }

  lemma InTwoBytes(data: Data, p: nat, before: nat, n: nat, v: uint16, high: nat, low: nat)
    requires p + 2 <= |data| && data[p..p + 2] == Put16(v) && before + n <= 16
    requires high == Pow2(16 - before - n) && low == Pow2(n)
    ensures Num(data, 8 * p + before, n) == v / high % low
  {
    hide Num, Pow2;
    TwoBytes(data, p);
    NumWithin(data, 8 * p, before, n, 16 - before - n);
    assert data[p] == data[p..p + 2][0] && data[p + 1] == data[p..p + 2][1];
  }

  lemma InByte(data: Data, p: nat, before: nat, n: nat, high: nat, low: nat)
    requires p < |data| && before + n <= 8 && high == Pow2(8 - before - n) && low == Pow2(n)
    ensures Num(data, 8 * p + before, n) == data[p] as int / high % low
  {
    hide Num, Pow2;
    NumByte(data, p);
    NumWithin(data, 8 * p, before, n, 8 - before - n);
  }

  lemma SmallPowers()
    ensures Pow2(0) == 1 && Pow2(1) == 2 && Pow2(3) == 8 && Pow2(5) == 0x20 && Pow2(6) == 0x40 && Pow2(7) == 0x80
    ensures Pow2(10) == 0x400 && Pow2(13) == 0x2000 && Pow2(14) == 0x4000 && Pow2(16) == 0x1_0000
  {
    Pow2Values();
    assert Pow2(14) == 2 * Pow2(13);
  }

  // Two buffers that agree on the bits of a field give it the same value.
  lemma {:induction false} NumAgree(d: Data, e: Data, at: nat, n: nat)
    requires forall k :: at <= k < at + n ==> BitAt(d, k) == BitAt(e, k)
    ensures Num(d, at, n) == Num(e, at, n)
  {
    if n > 0 {
      NumAgree(d, e, at, n - 1);
      assert BitAt(d, at + n - 1) == BitAt(e, at + n - 1);
    }
  }

  // Past the end of the buffer every field is zero.
  lemma {:induction false} NumPastEnd(data: Data, at: nat, n: nat)
    requires at >= 8 * |data|
    ensures Num(data, at, n) == 0
  {
    if n > 0 {
      NumPastEnd(data, at, n - 1);
      var k := at + n - 1;
      assert ByteAt(data, k / 8) == 0;
      ShrZero(7 - k % 8);
    }
  }

  lemma {:induction false} ShrZero(n: nat)
    ensures Shr(0, n) == 0
  {
    if n > 0 { ShrZero(n - 1); }
  }

  // ---- Exp-Golomb codes ------------------------------------------------------

  // The zero bits before the next one bit, as ReadUEGolomb counts them from
  // `size` on: it gives up at 32 or when it has read past the end.
  function LeadingZeros(data: Data, at: nat, size: nat): (r: nat)
    requires size <= 32
    ensures size <= r <= 32
    decreases 32 - size
  {
    if size == 32 || BitAt(data, at) != 0 || at + 1 > 8 * |data| then size
    else LeadingZeros(data, at + 1, size + 1)
  }

  lemma NoMoreZeros(data: Data, at: nat)
    ensures LeadingZeros(data, at, 32) == 32
  {
  }

  lemma CountOneZero(data: Data, at: nat, size: nat)
    requires size < 32
    ensures var stop := BitAt(data, at) != 0 || at + 1 > 8 * |data|;
            LeadingZeros(data, at, size) == if stop then size else LeadingZeros(data, at + 1, size + 1)
  {
  }

  // What ReadUEGolomb returns at a position.
  function Ue(data: Data, at: nat): uint32 {
    var size := LeadingZeros(data, at, 0);
    UeValue(Num(data, SuffixStart(at, size), size), size)
  }

  // Where it leaves the reader.
  function UeEnd(data: Data, at: nat): (end: nat)
    ensures at <= end
  {
    var size := LeadingZeros(data, at, 0);
    SuffixStart(at, size) + size
  }

  // After the zeros and, unless the reader gave up, the bit that ended them.
  function SuffixStart(at: nat, size: nat): nat {
    at + size + (if size < 32 then 1 else 0)
  }

  function Wrap32(x: int): uint32 {
    x % 0x1_0000_0000
  }

  // The sum is that of uint32, where 1 << 32 is 0.
  function UeValue(suffix: nat, size: nat): uint32 {
    Wrap32(suffix + Pow2(size) - 1)
  }

  // int32 two's complement of a uint32 value.
  function Int32(x: int): (r: int)
    ensures -0x8000_0000 <= r < 0x8000_0000
  {
    (x + 0x8000_0000) % 0x1_0000_0000 - 0x8000_0000
  }

  // How ReadSEGolomb maps a code number to a signed value; b + 1 wraps.
  function Signed(b: uint32): (r: int) {
    if b % 2 == 0 then -Int32(b / 2) else Int32((b + 1) % 0x1_0000_0000 / 2)
  }

  function Se(data: Data, at: nat): int {
    Signed(Ue(data, at))
  }

  // The bits of v in a field of n bits.
  function BitsOf(v: nat, n: nat): (s: seq<nat>)
    ensures |s| == n && forall i :: 0 <= i < n ==> s[i] <= 1
  {
    if n == 0 then [] else BitsOf(v / 2, n - 1) + [v % 2]
  }

  // The number of bits after the leading one bit of v.
  function Log2(v: nat): (n: nat)
    requires v > 0
    ensures Pow2(n) <= v < Pow2(n + 1)
  {
    if v == 1 then 0 else 1 + Log2(v / 2)
  }

  // ue(v) of ITU-T H.264 section 9.1: as many zeros as v + 1 has bits after
  // its leading one, then the bits of v + 1.
  function UeCode(v: nat): seq<nat> {
    var n := Log2(v + 1);
    seq(n, _ => 0) + [1] + BitsOf(v + 1 - Pow2(n), n)
  }

  // se(v) of section 9.1.1: the code number of a signed value (Table 9-3).
  function SeNumber(v: int): nat {
    if v > 0 then 2 * v - 1 else -2 * v
  }

  ghost predicate HasBits(data: Data, at: nat, code: seq<nat>) {
    && at + |code| <= 8 * |data|
    && forall i :: 0 <= i < |code| ==> BitAt(data, at + i) == code[i]
  }

  lemma {:induction false} NumBitsOf(data: Data, at: nat, v: nat, n: nat)
    requires v < Pow2(n)
    requires forall i :: 0 <= i < n ==> BitAt(data, at + i) == BitsOf(v, n)[i]
    ensures Num(data, at, n) == v
  {
    if n > 0 {
      var s := BitsOf(v / 2, n - 1);
      assert BitsOf(v, n) == s + [v % 2];
      forall i | 0 <= i < n - 1 ensures BitAt(data, at + i) == s[i] {
        assert BitsOf(v, n)[i] == s[i];
      }
      NumBitsOf(data, at, v / 2, n - 1);
      assert BitAt(data, at + (n - 1)) == BitsOf(v, n)[n - 1];
      assert at + n - 1 == at + (n - 1);
    }
  }

  lemma {:induction false} LeadingZerosFound(data: Data, at: nat, n: nat, size: nat)
    requires size <= n <= 31
    requires at + (n - size) < 8 * |data|
    requires forall i :: at <= i < at + (n - size) ==> BitAt(data, i) == 0
    requires BitAt(data, at + (n - size)) == 1
    ensures LeadingZeros(data, at, size) == n
    decreases n - size
  {
    if size < n {
      LeadingZerosFound(data, at + 1, n, size + 1);
    }
  }

  lemma {:induction false} Pow2Monotone(m: nat, n: nat)
    requires m <= n
    ensures Pow2(m) <= Pow2(n)
  {
    if m < n { Pow2Monotone(m, n - 1); }
  }

  lemma UeOfParts(data: Data, at: nat, n: nat, rest: nat)
    requires n <= 31 && rest < Pow2(n)
    requires at + n < 8 * |data|
    requires forall i :: at <= i < at + n ==> BitAt(data, i) == 0
    requires BitAt(data, at + n) == 1
    requires Num(data, at + n + 1, n) == rest
    ensures Ue(data, at) == rest + Pow2(n) - 1
    ensures UeEnd(data, at) == at + 2 * n + 1
  {
    hide BitAt, Num, Pow2, UeValue, LeadingZeros;
    LeadingZerosFound(data, at, n, 0);
    UeValueSmall(rest, n);
  }

  lemma UeValueSmall(rest: nat, n: nat)
    requires n <= 31 && rest < Pow2(n)
    ensures UeValue(rest, n) == rest + Pow2(n) - 1
  {
    Pow2Values();
    Pow2Monotone(n + 1, 32);
  }

  lemma BitsOfCode(data: Data, at: nat, n: nat, suffix: seq<nat>)
    requires |suffix| == n
    requires HasBits(data, at, seq(n, _ => 0) + [1] + suffix)
    ensures at + n < 8 * |data|
    ensures forall i :: at <= i < at + n ==> BitAt(data, i) == 0
    ensures BitAt(data, at + n) == 1
    ensures forall i :: 0 <= i < n ==> BitAt(data, at + n + 1 + i) == suffix[i]
  {
    var code := seq(n, _ => 0) + [1] + suffix;
    forall i | at <= i < at + n ensures BitAt(data, i) == 0 {
      assert BitAt(data, at + (i - at)) == code[i - at];
    }
    assert BitAt(data, at + n) == code[n];
    forall i | 0 <= i < n ensures BitAt(data, at + n + 1 + i) == suffix[i] {
      assert BitAt(data, at + (n + 1 + i)) == code[n + 1 + i];
    }
  }

  lemma Pow2Next(n: nat)
    ensures Pow2(n + 1) == 2 * Pow2(n)
  {
  }

  lemma Log2Small(v: nat)
    requires 0 < v < 0x1_0000_0000
    ensures Log2(v) <= 31
  {
    if Log2(v) >= 32 {
      Pow2Values();
      Pow2Monotone(32, Log2(v));
    }
  }

  // ReadUEGolomb inverts the code at any alignment, for every number whose
  // code has at most 31 leading zeros.
  lemma UeInvertsCode(data: Data, at: nat, v: nat)
    requires v + 1 < 0x1_0000_0000
    requires HasBits(data, at, UeCode(v))
    ensures Ue(data, at) == v && UeEnd(data, at) == at + |UeCode(v)|
  {
    hide BitAt, Num, Ue, UeEnd, BitsOf, Log2, Pow2;
    var n := Log2(v + 1);
    var rest := v + 1 - Pow2(n);
    Log2Small(v + 1);
    Pow2Next(n);
    BitsOfCode(data, at, n, BitsOf(rest, n));
    NumBitsOf(data, at + n + 1, rest, n);
    UeOfParts(data, at, n, rest);
  }

  lemma SignedNumber(v: int)
    requires -0x8000_0000 < v < 0x8000_0000
    ensures SeNumber(v) + 1 < 0x1_0000_0000
    ensures Signed(SeNumber(v)) == v
  {
  }

  // ReadSEGolomb inverts the signed code for every value whose code number
  // has at most 31 leading zeros.
  lemma SeInvertsCode(data: Data, at: nat, v: int)
    requires -0x8000_0000 < v < 0x8000_0000
    requires HasBits(data, at, UeCode(SeNumber(v)))
    ensures Se(data, at) == v && UeEnd(data, at) == at + |UeCode(SeNumber(v))|
  {
    SignedNumber(v);
    UeInvertsCode(data, at, SeNumber(v));
  }

  // ---- Reader ----------------------------------------------------------------

  // The fields are those of the Go type. `at` is the abstract position in the
  // bit string: the next read starts there, aligned or not, and the reader is
  // at EOF exactly when it has gone past the last byte.
  class Reader {
    var EOF: bool
    const buf: Data
    var byte_: byte
    var bits: nat
    var pos: nat
    ghost var at: nat
    ghost var cell: nat // bytes begun

    ghost predicate Valid()
      reads this
    {
      && bits <= 7
      && pos <= |buf|
      && at + bits == 8 * cell
      && EOF == (at > 8 * |buf|)
      && pos == (if EOF then |buf| else cell)
      && (bits > 0 ==> byte_ == ByteAt(buf, cell - 1))
    }

    constructor (b: Data)
      ensures Valid() && buf == b && at == 0
    {
      EOF, buf, byte_, bits, pos, at, cell := false, b, 0, 0, 0, 0, 0;
    }

    method ReadByte() returns (b: byte)
      requires Valid()
      modifies this
      ensures Valid() && at == old(at) + 8 && bits == old(bits)
      ensures b == Num(buf, old(at), 8)
      decreases if bits == 0 then 0 else 3
    {
      if bits != 0 {
        Pow2Values();
        b := ReadBits(8);
        return;
      }
      NumByte(buf, cell);
      at, cell := at + 8, cell + 1;
      if pos >= |buf| {
        EOF := true;
        return 0;
      }
      b := buf[pos];
      pos := pos + 1;
    }

    method ReadBit() returns (b: nat)
      requires Valid()
      modifies this
      ensures Valid() && at == old(at) + 1
      ensures bits == if old(bits) == 0 then 7 else old(bits) - 1
      ensures b == BitAt(buf, old(at))
      decreases 1
    {
      ghost var from := at;
      if bits == 0 {
        NumByte(buf, cell);
        byte_ := ReadByte();
        bits := 7;
      } else {
        bits := bits - 1;
      }
      at := from + 1;
      BitInByte(buf, cell - 1, 7 - bits);
      return Shr(byte_, bits) % 2;
    }

    // ReadBits, ReadBits8, ReadBits16 and ReadBits64 of the source differ only
    // in the width of their result, which n never exceeds. The counter is a
    // byte and wraps from 0 to 255; the bits are or-ed into disjoint places, so
    // they add up.
    method ReadBits(n: byte) returns (res: nat)
      requires Valid() && n <= 64
      modifies this
      ensures Valid() && at == old(at) + n
      ensures n == 8 ==> bits == old(bits)
      ensures res == Num(buf, old(at), n)
      decreases 2
    {
      res := 0;
      HighPartEnds(buf, at, n);
      hide Num, BitAt, ByteAt, Pow2, HighPart;
      ghost var from, start, first, done: nat := at, bits, cell, 0;
      var i := if n == 0 then 255 else n - 1;
      while i != 255
        invariant done <= n && i == (if done == n then 255 else n - 1 - done)
        invariant Valid() && at == from + done
        invariant res == HighPart(buf, from, done, n)
        decreases n - done
      {
        var bit := ReadBit();
        AddBit(buf, from, done, n);
        res := res + bit * Pow2(i);
        i := if i == 0 then 255 else i - 1;
        done := done + 1;
      }
      if n == 8 {
        SameBits(from, start, first, bits, cell);
      }
    }

    lemma SameBits(from: nat, b: nat, c: nat, b': nat, c': nat)
      requires b <= 7 && b' <= 7 && from + b == 8 * c && from + 8 + b' == 8 * c'
      ensures b == b'
    {
    }

    method ReadUint16() returns (v: uint16)
      requires Valid()
      modifies this
      ensures Valid() && at == old(at) + 16 && v == Num(buf, old(at), 16)
    {
      Pow2Values();
      if bits != 0 {
        var r := ReadBits(16);
        return r;
      }
      NumSplit(buf, at, 8, 8);
      var hi := ReadByte();
      var lo := ReadByte();
      return (hi as int) * 0x100 + lo;
    }

    method ReadUint24() returns (v: uint32)
      requires Valid()
      modifies this
      ensures Valid() && at == old(at) + 24 && v == Num(buf, old(at), 24)
    {
      Pow2Values();
      Pow2Add(16, 8);
      if bits != 0 {
        var r := ReadBits(24);
        return r;
      }
      NumSplit(buf, at, 16, 8);
      NumSplit(buf, at, 8, 8);
      hide Num, Pow2;
      var a := ReadByte();
      var b := ReadByte();
      var c := ReadByte();
      return (a as int) * 0x1_0000 + (b as int) * 0x100 + c;
    }

    method ReadUint32() returns (v: uint32)
      requires Valid()
      modifies this
      ensures Valid() && at == old(at) + 32 && v == Num(buf, old(at), 32)
    {
      hide Num, Pow2;
      if bits != 0 {
        Pow2Values();
        var r := ReadBits(32);
        return r;
      }
      NumOfFourBytes(buf, at);
      var a := ReadByte();
      var b := ReadByte();
      var c := ReadByte();
      var d := ReadByte();
      return (a as int) * 0x100_0000 + (b as int) * 0x1_0000 + (c as int) * 0x100 + d;
    }

    method ReadUEGolomb() returns (v: uint32)
      requires Valid()
      modifies this
      ensures Valid() && v == Ue(buf, old(at)) && at == UeEnd(buf, old(at))
    {
      var size := CountZeros();
      hide Num, BitAt, UeValue, LeadingZeros;
      var r := ReadBits(size);
      v := UeValue(r, size);
    }

    // The loop of ReadUEGolomb.
    method CountZeros() returns (size: byte)
      requires Valid()
      modifies this
      ensures Valid() && size == LeadingZeros(buf, old(at), 0) && at == SuffixStart(old(at), size)
    {
      hide BitAt, LeadingZeros;
      ghost var from := at;
      size := 0;
      while size < 32
        invariant size <= 32 && Valid() && at == from + size
        invariant LeadingZeros(buf, from, 0) == LeadingZeros(buf, at, size)
      {
        CountOneZero(buf, at, size);
        var b := ReadBit();
        if b != 0 || EOF {
          return;
        }
        size := size + 1;
      }
      NoMoreZeros(buf, at);
    }

    method ReadSEGolomb() returns (v: int)
      requires Valid()
      modifies this
      ensures Valid() && v == Se(buf, old(at)) && at == UeEnd(buf, old(at))
    {
      var b := ReadUEGolomb();
      return Signed(b);
    }

    // The byte and the bit in it that the last ReadBit returned.
    function Pos(): (int, nat)
      reads this
    {
      (pos - 1, bits)
    }
  }

  // ---- Writer ----------------------------------------------------------------

  // The bytes as one number.
  function Be(data: Data): (v: nat)
    ensures v < Pow2(8 * |data|)
    decreases |data|
  {
    if data == [] then 0
    else
      var front := data[..|data| - 1];
      BeBound(Be(front), data[|data| - 1], 8 * |front|);
      Be(front) * 0x100 + data[|data| - 1]
  }

  lemma BeBound(v: nat, b: byte, n: nat)
    requires v < Pow2(n)
    ensures v * 0x100 + b < Pow2(n + 8)
  {
    Pow2Values();
    Pow2Add(n, 8);
  }

  lemma BeSnoc(data: Data, b: byte)
    ensures Be(data + [b]) == Be(data) * 0x100 + b
  {
    assert (data + [b])[..|data|] == data;
  }

  lemma {:induction false} BeInjective(a: Data, b: Data)
    requires |a| == |b| && Be(a) == Be(b)
    ensures a == b
    decreases |a|
  {
    if a != [] {
      BeInjective(a[..|a| - 1], b[..|b| - 1]);
      assert a == a[..|a| - 1] + [a[|a| - 1]] && b == b[..|b| - 1] + [b[|b| - 1]];
    }
  }

  // A reader sees the number that was written.
  lemma {:induction false} NumOfBe(data: Data, more: Data)
    ensures Num(data + more, 0, 8 * |data|) == Be(data)
    decreases |data|
  {
    if data != [] {
      var front, last := data[..|data| - 1], data[|data| - 1];
      assert front + ([last] + more) == data + more;
      NumOfBe(front, [last] + more);
      NumSplit(data + more, 0, 8 * |front|, 8);
      NumByte(data + more, |front|);
      Pow2Values();
    }
  }

  // The low n bits of v.
  function Low(v: nat, n: nat): (r: nat)
    ensures r < Pow2(n)
  {
    if n == 0 then 0 else 2 * Low(v / 2, n - 1) + v % 2
  }

  lemma {:induction false} LowAll(v: nat, n: nat)
    requires v < Pow2(n)
    ensures Low(v, n) == v
  {
    if n > 0 { LowAll(v / 2, n - 1); }
  }

  // The bits above them.
  lemma {:induction false} LowIs(v: nat, n: nat) returns (q: nat)
    ensures v == q * Pow2(n) + Low(v, n)
  {
    if n == 0 {
      q := v;
    } else {
      q := LowIs(v / 2, n - 1);
      assert q * Pow2(n) == 2 * (q * Pow2(n - 1));
    }
  }

  // `old` followed by the first `done` of n bits of v.
  function Written(old_: nat, v: nat, n: nat, done: nat): nat
    requires done <= n
  {
    old_ * Pow2(done) + Low(Shr(v, n - done), done)
  }

  lemma WrittenEnds(old_: nat, v: nat, n: nat)
    ensures Written(old_, v, n, 0) == old_ && Written(old_, v, n, n) == old_ * Pow2(n) + Low(v, n)
  {
    assert Shr(v, 0) == v;
  }

  lemma WriteOne(old_: nat, v: nat, n: nat, done: nat)
    requires done < n
    ensures Written(old_, v, n, done + 1) == 2 * Written(old_, v, n, done) + Shr(v, n - done - 1) % 2
  {
    Double(old_, Pow2(done));
  }

  lemma NextBit(old_: nat, v: nat, n: nat, done: nat, bit: nat)
    requires done < n && bit == Shr(v, n - done - 1) % 2
    ensures bit <= 1 && Written(old_, v, n, done + 1) == 2 * Written(old_, v, n, done) + bit % 2
  {
    WriteOne(old_, v, n, done);
  }

  ghost predicate Holds(buf: Data, value: nat, bits: nat) {
    Be(buf) == value * Pow2(bits)
  }

  // `value` is the number written so far, in `count` bits; the bytes hold it
  // with `bits` zero bits after it.
  class Writer {
    var buf: Data
    var bits: nat
    ghost var value: nat
    ghost var count: nat

    ghost predicate Valid()
      reads this
    {
      && bits <= 7
      && 8 * |buf| == count + bits
      && (bits > 0 ==> |buf| > 0 && Room(buf[|buf| - 1], bits))
      && Holds(buf, value, bits)
    }

    constructor ()
      ensures Valid() && buf == [] && bits == 0 && value == 0 && count == 0
    {
      buf, bits, value, count := [], 0, 0, 0;
    }

    method WriteBit(b: byte)
      requires Valid()
      modifies this
      ensures Valid() && value == 2 * old(value) + b % 2 && count == old(count) + 1
    {
      if bits == 0 {
        BeSnoc(buf, b % 2 * 0x80);
        buf := buf + [b % 2 * 0x80];
        bits := 7;
        Pow2Values();
      } else {
        ghost var front, v := buf[..|buf| - 1], value;
        bits := bits - 1;
        var last := buf[|buf| - 1];
        AddRoom(last, bits, b % 2);
        buf := buf[|buf| - 1 := last + b % 2 * Pow2(bits)];
        assert buf[..|buf| - 1] == front;
        Shift(v, b % 2, Pow2(bits));
      }
      value, count := 2 * value + b % 2, count + 1;
    }

    // WriteBits, WriteBits8 and WriteBits16 differ in the width of v.
    method WriteBits(v: uint32, n: byte)
      requires Valid() && n <= 32
      modifies this
      ensures Valid() && value == old(value) * Pow2(n) + Low(v, n) && count == old(count) + n
    {
      WrittenEnds(value, v, n);
      hide Written, Low, Holds, Room;
      WriteLow(v, n);
    }

    // The loop of WriteBits.
    method WriteLow(v: uint32, n: byte)
      requires Valid() && n <= 32
      modifies this
      ensures Valid() && value == Written(old(value), v, n, n) && count == old(count) + n
    {
      WrittenEnds(value, v, n);
      hide Written, Low, Pow2, Be, Room, Shr, Holds;
      ghost var from, v0: nat, done := count, value, 0;
      var i := if n == 0 then 255 else n - 1;
      while i != 255
        invariant done <= n && i == (if done == n then 255 else n - 1 - done)
        invariant Valid() && count == from + done
        invariant value == Written(v0, v, n, done)
        decreases n - done
      {
        var bit := Shr(v, i) % 2;
        NextBit(v0, v, n, done, bit);
        WriteBit(bit);
        i := if i == 0 then 255 else i - 1;
        done := done + 1;
      }
    }

    method WriteAllBits(bit: byte, n: byte)
      requires Valid() && n <= 32 && bit <= 1
      modifies this
      ensures Valid() && value == old(value) * Pow2(n) + bit * (Pow2(n) - 1) && count == old(count) + n
    {
      hide Holds, Room, Be;
      ghost var from, v0 := count, value;
      for i := 0 to n
        invariant Valid() && count == from + i
        invariant value == v0 * Pow2(i) + bit * (Pow2(i) - 1)
      {
        Double(v0, Pow2(i));
        WriteBit(bit);
      }
    }

    // On a byte boundary only: elsewhere the source writes the byte twice.
    method WriteByte(b: byte)
      requires Valid() && bits == 0
      modifies this
      ensures Valid() && bits == 0 && buf == old(buf) + [b] && value == old(value) * 0x100 + b
      ensures count == old(count) + 8
    {
      BeSnoc(buf, b);
      buf := buf + [b];
      value, count := value * 0x100 + b, count + 8;
    }

    method WriteUint16(v: uint16)
      requires Valid() && bits == 0
      modifies this
      ensures Valid() && bits == 0 && buf == old(buf) + Put16(v) && value == Be(buf) && count == 8 * |buf|
    {
      buf := buf + [v / 0x100, v % 0x100];
      value, count := Be(buf), 8 * |buf|;
    }

    method WriteBytes(bytes: Data)
      requires Valid() && bits == 0
      modifies this
      ensures Valid() && bits == 0 && buf == old(buf) + bytes && value == Be(buf) && count == 8 * |buf|
    {
      buf := buf + bytes;
      value, count := Be(buf), 8 * |buf|;
    }
  }

  // The last byte ends in n zero bits.
  predicate Room(last: byte, n: nat) {
    last % Pow2(n) == 0
  }

  lemma RoomFor(last: byte, b: nat, p: nat)
    requires p in {1, 2, 4, 8, 16, 32, 64} && b <= 1 && last % (2 * p) == 0
    ensures last + b * p < 0x100 && (last + b * p) % p == 0
  {
  }

  lemma AddRoom(last: byte, n: nat, b: nat)
    requires n < 7 && b <= 1 && Room(last, n + 1)
    ensures last + b * Pow2(n) < 0x100 && Room(last + b * Pow2(n), n)
  {
    match n
    case 0 => RoomFor(last, b, 1);
    case 1 => RoomFor(last, b, 2);
    case 2 => RoomFor(last, b, 4);
    case 3 => RoomFor(last, b, 8);
    case 4 => RoomFor(last, b, 16);
    case 5 => RoomFor(last, b, 32);
    case 6 => RoomFor(last, b, 64);
  }
}
