// Bytes, fixed-width unsigned integers and their big-endian encodings.

module Bytes {
  type byte = x: int | 0 <= x < 0x100
  type uint16 = x: int | 0 <= x < 0x1_0000
  type uint32 = x: int | 0 <= x < 0x1_0000_0000
  type uint64 = x: int | 0 <= x < 0x1_0000_0000_0000_0000
  type Data = seq<byte>

  datatype Option<T> = None | Some(value: T)

  function Put16(v: uint16): (b: Data)
    ensures |b| == 2
  {
    [v / 0x100, v % 0x100]
  }

  function Put32(v: uint32): (b: Data)
    ensures |b| == 4
  {
    [v / 0x100_0000, v / 0x1_0000 % 0x100, v / 0x100 % 0x100, v % 0x100]
  }

  function Put64(v: uint64): (b: Data)
    ensures |b| == 8
  {
    Put32(v / 0x1_0000_0000) + Put32(v % 0x1_0000_0000)
  }

  function Get16(b: Data): (v: uint16)
    requires |b| >= 2
  {
    (b[0] as int) * 0x100 + b[1]
  }

  function Get32(b: Data): (v: uint32)
    requires |b| >= 4
  {
    (b[0] as int) * 0x100_0000 + (b[1] as int) * 0x1_0000 + (b[2] as int) * 0x100 + b[3]
  }

  function Get64(b: Data): (v: uint64)
    requires |b| >= 8
  {
    Get32(b) * 0x1_0000_0000 + Get32(b[4..])
  }

  lemma Get32Prefix(b: Data, n: nat)
    requires 4 <= n <= |b|
    ensures Get32(b[..n]) == Get32(b)
  {
  }

  lemma Get16Put16(v: uint16, rest: Data)
    ensures Get16(Put16(v) + rest) == v
  {
  }

  lemma Get32Put32(v: uint32, rest: Data)
    ensures Get32(Put32(v) + rest) == v
  {
    var b := Put32(v) + rest;
    assert b[0] == v / 0x100_0000 && b[1] == v / 0x1_0000 % 0x100 && b[2] == v / 0x100 % 0x100 && b[3] == v % 0x100;
    Digits(v);
  }

  lemma Digits(v: uint32)
    ensures v / 0x100_0000 * 0x100_0000 + v / 0x1_0000 % 0x100 * 0x1_0000 + v / 0x100 % 0x100 * 0x100 + v % 0x100 == v
  {
    assert v / 0x100_0000 == v / 0x1_0000 / 0x100;
    assert v / 0x1_0000 == v / 0x100 / 0x100;
  }

  lemma Get64Put64(v: uint64, rest: Data)
    ensures Get64(Put64(v) + rest) == v
  {
    var hi, lo := v / 0x1_0000_0000, v % 0x1_0000_0000;
    assert Put64(v) + rest == Put32(hi) + (Put32(lo) + rest);
    Get32Put32(hi, Put32(lo) + rest);
    assert (Put64(v) + rest)[4..] == Put32(lo) + rest;
    Get32Put32(lo, rest);
  }

  // n zero bytes, as make([]byte, n) yields.
  function Zeros(n: nat): (b: Data)
    ensures |b| == n
    ensures forall i :: 0 <= i < n ==> b[i] == 0
  {
    seq(n, _ => 0)
  }

  // The items one after the other.
  function Concat(items: seq<Data>): Data {
    if items == [] then [] else items[0] + Concat(items[1..])
  }

  lemma {:induction false} ConcatSplit(a: seq<Data>, b: seq<Data>)
    ensures Concat(a + b) == Concat(a) + Concat(b)
  {
    if a == [] {
      assert a + b == b;
    } else {
      ConcatSplit(a[1..], b);
      assert (a + b)[0] == a[0] && (a + b)[1..] == a[1..] + b;
    }
  }

  lemma ConcatLast(a: seq<Data>, x: Data)
    ensures Concat(a + [x]) == Concat(a) + x
  {
    ConcatSplit(a, [x]);
    assert Concat([x]) == x + Concat([]);
  }
}
