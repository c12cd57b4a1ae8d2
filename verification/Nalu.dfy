// Lists of NAL units in one buffer: Annex B (start codes) and AVCC (32-bit
// sizes). pkg/h264/payloader.go EmitNalus, pkg/h264/avcc.go JoinNALU, SplitNALU.

module Nalu {
  import opened Bytes

  // ---- Annex B -----------------------------------------------------------------

  // A start code: its first zero and its length.
  datatype StartCode = StartCode(start: nat, len: nat)

  // The next start code when byte i is looked at after `zeros` zero bytes.
  // All the zeros before the one belong to the code.
  function Scan(d: Data, i: nat, zeros: nat): (r: Option<StartCode>)
    requires zeros <= i <= |d|
    ensures r.Some? ==> i - zeros <= r.value.start && i < r.value.start + r.value.len <= |d|
    decreases |d| - i
  {
    if i == |d| then None
    else if d[i] == 0 then Scan(d, i + 1, zeros + 1)
    else if d[i] == 1 && zeros >= 2 then Some(StartCode(i - zeros, zeros + 1))
    else Scan(d, i + 1, 0)
  }

  // The units from position prev, just after a start code.
  function UnitsFrom(d: Data, prev: nat): seq<Data>
    requires prev <= |d|
    decreases |d| - prev
  {
    match Scan(d, prev, 0)
    case None => [d[prev..]]
    case Some(code) => [d[prev..code.start]] + UnitsFrom(d, code.start + code.len)
  }

  function AnnexB(d: Data): seq<Data> {
    match Scan(d, 0, 0)
    case None => [d]
    case Some(code) => UnitsFrom(d, code.start + code.len)
  }

  // nextInd: (-1, -1) when there is no start code.
  method NextInd(nalu: Data, start: nat) returns (indStart: int, indLen: int)
    requires start <= |nalu|
    ensures match Scan(nalu, start, 0)
            case None => indStart == -1 && indLen == -1
            case Some(code) => indStart == code.start && indLen == code.len
  {
    var zeroCount := 0;
    for i := start to |nalu|
      invariant zeroCount <= i - start
      invariant Scan(nalu, start, 0) == Scan(nalu, i, zeroCount)
    {
      var b := nalu[i];
      if b == 0 {
        zeroCount := zeroCount + 1;
        continue;
      } else if b == 1 {
        if zeroCount >= 2 {
          return i - zeroCount, zeroCount + 1;
        }
      }
      zeroCount := 0;
    }
    return -1, -1;
  }

  // What a stream of start codes and units reads like: codes of any length
  // from three bytes on.
  function Stream(codes: seq<nat>, units: seq<Data>): Data
    requires |codes| == |units|
  {
    if units == [] then []
    else Zeros(codes[0]) + [1] + units[0] + Stream(codes[1..], units[1..])
  }

  predicate NoStartCode(unit: Data) {
    forall j :: 0 <= j && j + 2 < |unit| ==> !(unit[j] == 0 && unit[j + 1] == 0 && unit[j + 2] == 1)
  }

  predicate EndsInZero(unit: Data) {
    |unit| > 0 && unit[|unit| - 1] == 0
  }

  // No unit has a start code in it, and none but the last ends in a zero.
  predicate Separable(units: seq<Data>) {
    && (forall i :: 0 <= i < |units| ==> NoStartCode(units[i]))
    && (forall i :: 0 <= i < |units| - 1 ==> !EndsInZero(units[i]))
  }

  // Zeros counted so far are the run that ends before i.
  ghost predicate Counted(d: Data, from: nat, i: nat, zeros: nat) {
    && from + zeros <= i <= |d|
    && (forall k :: i - zeros <= k < i ==> d[k] == 0)
  }

  // Scanning passes over a unit that holds no start code.
  lemma {:induction false} ScanUnit(d: Data, from: nat, i: nat, zeros: nat, end: nat)
    requires from <= end <= |d| && Counted(d, from, i, zeros) && i <= end
    requires NoStartCode(d[from..end])
    ensures exists z :: Counted(d, from, end, z) && Scan(d, i, zeros) == Scan(d, end, z)
    decreases end - i
  {
    if i == end {
    } else if d[i] == 0 {
      ScanUnit(d, from, i + 1, zeros + 1, end);
    } else {
      var unit, j := d[from..end], i - from - 2;
      assert zeros >= 2 ==> unit[j] == 0 && unit[j + 1] == 0 && unit[j + 2] == d[i];
      ScanUnit(d, from, i + 1, 0, end);
    }
  }

  lemma {:induction false} ScanZeros(d: Data, i: nat, zeros: nat, end: nat)
    requires zeros <= i <= end < |d| && zeros + (end - i) >= 2
    requires forall k :: i <= k < end ==> d[k] == 0
    requires d[end] == 1
    ensures Scan(d, i, zeros) == Some(StartCode(i - zeros, zeros + (end - i) + 1))
    decreases end - i
  {
    if i < end { ScanZeros(d, i + 1, zeros + 1, end); }
  }

  lemma ScanToCode(d: Data, from: nat, end: nat, k: nat)
    requires from <= end && end + k < |d| && k >= 2
    requires NoStartCode(d[from..end]) && !EndsInZero(d[from..end])
    requires (forall j :: end <= j < end + k ==> d[j] == 0) && d[end + k] == 1
    ensures Scan(d, from, 0) == Some(StartCode(end, k + 1))
  {
    ScanUnit(d, from, from, 0, end);
    var z :| Counted(d, from, end, z) && Scan(d, from, 0) == Scan(d, end, z);
    assert end > from ==> d[from..end][end - from - 1] == d[end - 1];
    ScanZeros(d, end, 0, end + k);
  }

  lemma ScanToEnd(d: Data, from: nat)
    requires from <= |d| && NoStartCode(d[from..])
    ensures Scan(d, from, 0) == None
  {
    assert d[from..] == d[from..|d|];
    ScanUnit(d, from, from, 0, |d|);
  }

  lemma SeparableTail(unit: Data, units: seq<Data>)
    requires Separable([unit] + units)
    ensures Separable(units) && NoStartCode(unit) && (units != [] ==> !EndsInZero(unit))
  {
    hide NoStartCode, EndsInZero;
    var all := [unit] + units;
    assert all[0] == unit;
    forall i | 0 <= i < |units| ensures NoStartCode(units[i]) && (i < |units| - 1 ==> !EndsInZero(units[i])) {
      assert units[i] == all[i + 1];
    }
  }

  // One unit and the start code after it.
  lemma UnitStep(d: Data, prev: nat, unit: Data, k: nat, rest: Data)
    requires NoStartCode(unit) && !EndsInZero(unit) && k >= 2
    requires prev <= |d| && d[prev..] == unit + (Zeros(k) + [1] + rest)
    ensures prev + |unit| + k + 1 <= |d| && d[prev + |unit| + k + 1..] == rest
    ensures UnitsFrom(d, prev) == [unit] + UnitsFrom(d, prev + |unit| + k + 1)
  {
    var tail, end := d[prev..], prev + |unit|;
    assert d[prev..end] == tail[..|unit|] == unit;
    forall j | end <= j < end + k ensures d[j] == 0 {
      assert d[j] == tail[j - prev];
    }
    assert d[end + k] == tail[|unit| + k] == 1;
    assert d[end + k + 1..] == tail[|unit| + k + 1..] == rest;
    hide NoStartCode, EndsInZero, Scan;
    ScanToCode(d, prev, end, k);
  }

  lemma {:induction false} UnitsOfStream(d: Data, prev: nat, unit: Data, codes: seq<nat>, units: seq<Data>)
    requires |codes| == |units| && Separable([unit] + units)
    requires forall i :: 0 <= i < |codes| ==> codes[i] >= 2
    requires prev <= |d| && d[prev..] == unit + Stream(codes, units)
    ensures UnitsFrom(d, prev) == [unit] + units
    decreases |units|
  {
    hide Separable, NoStartCode, EndsInZero, Scan;
    SeparableTail(unit, units);
    if units == [] {
      assert d[prev..] == unit;
      ScanToEnd(d, prev);
    } else {
      var rest := units[0] + Stream(codes[1..], units[1..]);
      assert Stream(codes, units) == Zeros(codes[0]) + [1] + rest;
      UnitStep(d, prev, unit, codes[0], rest);
      assert [units[0]] + units[1..] == units;
      UnitsOfStream(d, prev + |unit| + codes[0] + 1, units[0], codes[1..], units[1..]);
    }
  }

  // No start code ends before position i.
  ghost predicate CleanTo(d: Data, from: nat, i: nat)
    requires i <= |d|
  {
    forall j :: from <= j && j + 2 < i ==> !(d[j] == 0 && d[j + 1] == 0 && d[j + 2] == 1)
  }

  // What Scan passes over holds no start code, and it stops right behind a
  // byte that is not zero.
  lemma {:induction false} ScanSound(d: Data, from: nat, i: nat, zeros: nat)
    requires Counted(d, from, i, zeros) && CleanTo(d, from, i)
    requires i - zeros == from || d[i - zeros - 1] != 0
    ensures match Scan(d, i, zeros)
            case None => CleanTo(d, from, |d|)
            case Some(c) => from <= c.start && CleanTo(d, from, c.start) && (c.start == from || d[c.start - 1] != 0)
    decreases |d| - i
  {
    if i < |d| && d[i] == 0 {
      ScanSound(d, from, i + 1, zeros + 1);
    } else if i < |d| && !(d[i] == 1 && zeros >= 2) {
      assert d[i] == 1 && zeros == 1 && i - from >= 2 ==> d[i - 2] != 0;
      assert CleanTo(d, from, i + 1);
      ScanSound(d, from, i + 1, 0);
    }
  }

  lemma SliceClean(d: Data, from: nat, end: nat)
    requires from <= end <= |d| && CleanTo(d, from, end) && (end == from || end == |d| || d[end - 1] != 0)
    ensures NoStartCode(d[from..end]) && (end < |d| ==> !EndsInZero(d[from..end]))
  {
    var unit := d[from..end];
    forall j | 0 <= j && j + 2 < |unit| ensures !(unit[j] == 0 && unit[j + 1] == 0 && unit[j + 2] == 1) {
      assert !(d[from + j] == 0 && d[from + j + 1] == 0 && d[from + j + 2] == 1);
    }
  }

  lemma {:induction false} UnitsSeparable(d: Data, prev: nat)
    requires prev <= |d|
    ensures |UnitsFrom(d, prev)| > 0 && Separable(UnitsFrom(d, prev))
    decreases |d| - prev
  {
    ScanSound(d, prev, prev, 0);
    SeparableOne(d[prev..]);
    ScanBounds(d, prev);
    hide NoStartCode, EndsInZero, CleanTo, Separable, Scan;
    match Scan(d, prev, 0)
    case None =>
      SliceClean(d, prev, |d|);
      assert d[prev..|d|] == d[prev..];
    case Some(c) =>
      SliceClean(d, prev, c.start);
      UnitsSeparable(d, c.start + c.len);
      SeparableCons(d[prev..c.start], UnitsFrom(d, c.start + c.len));
  }

  lemma SeparableOne(unit: Data)
    ensures Separable([unit]) == NoStartCode(unit)
  {
    hide NoStartCode;
    assert [unit][0] == unit;
  }

  lemma SeparableCons(unit: Data, units: seq<Data>)
    requires NoStartCode(unit) && !EndsInZero(unit) && Separable(units)
    ensures Separable([unit] + units)
  {
    hide NoStartCode, EndsInZero;
    var all := [unit] + units;
    forall i | 0 <= i < |all| ensures NoStartCode(all[i]) && (i < |all| - 1 ==> !EndsInZero(all[i])) {
      assert i > 0 ==> all[i] == units[i - 1];
    }
  }

  // Whatever the bytes are, the units found have no start code in them and
  // only the last may end in a zero.
  lemma AnnexBSeparable(d: Data)
    ensures |AnnexB(d)| > 0 && Separable(AnnexB(d))
  {
    ScanSound(d, 0, 0, 0);
    hide NoStartCode, EndsInZero, CleanTo;
    match Scan(d, 0, 0)
    case None =>
      SliceClean(d, 0, |d|);
      assert d[0..|d|] == d;
    case Some(c) =>
      UnitsSeparable(d, c.start + c.len);
  }

  // So a stream splits into the units it was made of exactly when they are
  // separable.
  lemma AnnexBInverse(codes: seq<nat>, units: seq<Data>)
    requires |codes| == |units| > 0
    requires forall i :: 0 <= i < |codes| ==> codes[i] >= 2
    ensures AnnexB(Stream(codes, units)) == units <==> Separable(units)
  {
    hide Separable, AnnexB, Stream;
    AnnexBSeparable(Stream(codes, units));
    if Separable(units) {
      AnnexBOfStream(codes, units);
    }
  }

  // Splitting recovers every unit of a stream, empty ones included.
  lemma AnnexBOfStream(codes: seq<nat>, units: seq<Data>)
    requires |codes| == |units| > 0 && Separable(units)
    requires forall i :: 0 <= i < |codes| ==> codes[i] >= 2
    ensures AnnexB(Stream(codes, units)) == units
  {
    hide Separable, NoStartCode, EndsInZero, Scan, UnitsFrom, Stream, Zeros;
    var d, k := Stream(codes, units), codes[0];
    var rest := units[0] + Stream(codes[1..], units[1..]);
    StreamFront(codes, units);
    FirstCode(d, k, rest);
    assert [units[0]] + units[1..] == units;
    UnitsOfStream(d, k + 1, units[0], codes[1..], units[1..]);
  }

  lemma StreamFront(codes: seq<nat>, units: seq<Data>)
    requires |codes| == |units| > 0
    ensures Stream(codes, units) == Zeros(codes[0]) + [1] + (units[0] + Stream(codes[1..], units[1..]))
  {
    hide Zeros;
    assert Zeros(codes[0]) + [1] + units[0] + Stream(codes[1..], units[1..]) == Zeros(codes[0]) + [1] + (units[0] + Stream(codes[1..], units[1..]));
  }

  lemma FirstCode(d: Data, k: nat, rest: Data)
    requires k >= 2 && d == Zeros(k) + [1] + rest
    ensures d[k + 1..] == rest && Scan(d, 0, 0) == Some(StartCode(0, k + 1))
  {
    hide Scan;
    ScanZeros(d, 0, 0, k);
  }

  // ---- AVCC --------------------------------------------------------------------

  // Size fields this large wrap the end of the unit below its start, and the
  // slice expression of EmitNalus panics.
  const MaxUnit := 0x1_0000_0000 - 4

  // The units EmitNalus finds: it stops at the first that does not fit. The
  // length is taken as a uint32.
  function Avcc(d: Data): seq<Data>
    decreases |d|
  {
    if |d| % 0x1_0000_0000 < 4 || Get32(d) >= MaxUnit || |d| % 0x1_0000_0000 < 4 + Get32(d) then []
    else [d[4..4 + Get32(d)]] + Avcc(d[4 + Get32(d)..])
  }

  predicate AvccPanics(d: Data)
    decreases |d|
  {
    && |d| % 0x1_0000_0000 >= 4
    && (Get32(d) >= MaxUnit || (|d| % 0x1_0000_0000 >= 4 + Get32(d) && AvccPanics(d[4 + Get32(d)..])))
  }

  // The units are passed to `emit` in the source; here they are collected.
  method EmitNalus(nals: Data, isAVC: bool) returns (emitted: seq<Data>)
    requires isAVC ==> !AvccPanics(nals)
    ensures emitted == if isAVC then Avcc(nals) else AnnexB(nals)
  {
    hide Scan, Avcc, AvccPanics;
    if !isAVC {
      emitted := EmitAnnexB(nals);
    } else {
      emitted := EmitAvcc(nals);
    }
  }

  // The Annex B branch of EmitNalus.
  method EmitAnnexB(nals: Data) returns (emitted: seq<Data>)
    ensures emitted == AnnexB(nals)
  {
    hide Scan, UnitsFrom;
    emitted := [];
    var nextIndStart, nextIndLen := NextInd(nals, 0);
    if nextIndStart == -1 {
      emitted := [nals];
    } else {
      ScanBounds(nals, 0);
      ghost var all := AnnexB(nals);
      assert [] + all == all;
      while nextIndStart != -1
        invariant nextIndStart >= -1
        invariant nextIndStart != -1 ==> 0 <= nextIndStart + nextIndLen <= |nals|
        invariant all == emitted + (if nextIndStart == -1 then [] else UnitsFrom(nals, nextIndStart + nextIndLen))
        decreases if nextIndStart == -1 then -1 else |nals| - (nextIndStart + nextIndLen)
      {
        var prevStart := nextIndStart + nextIndLen;
        ScanBounds(nals, prevStart);
        UnitsStep(nals, prevStart);
        nextIndStart, nextIndLen := NextInd(nals, prevStart);
        var unit := if nextIndStart != -1 then nals[prevStart..nextIndStart] else nals[prevStart..];
        MoveUnit(emitted, unit, if nextIndStart == -1 then [] else UnitsFrom(nals, nextIndStart + nextIndLen));
        emitted := emitted + [unit];
      }
      assert emitted + [] == emitted;
    }
  }

  lemma UnitsStep(d: Data, prev: nat)
    requires prev <= |d|
    ensures var r := Scan(d, prev, 0);
            UnitsFrom(d, prev) == if r == None then [d[prev..]] + [] else [d[prev..r.value.start]] + UnitsFrom(d, r.value.start + r.value.len)
  {
    hide Scan;
  }

  lemma MoveUnit(done: seq<Data>, unit: Data, rest: seq<Data>)
    ensures done + ([unit] + rest) == (done + [unit]) + rest
  {
  }

  lemma ScanBounds(d: Data, from: nat)
    requires from <= |d|
    ensures var r := Scan(d, from, 0); r.Some? ==> from <= r.value.start && from < r.value.start + r.value.len <= |d|
  {
  }

  // The AVCC branch of EmitNalus.
  method EmitAvcc(nals: Data) returns (emitted: seq<Data>)
    requires !AvccPanics(nals)
    ensures emitted == Avcc(nals)
  {
    hide Get32;
    emitted := [];
    var rest := nals;
    while true
      invariant !AvccPanics(rest) && Avcc(nals) == emitted + Avcc(rest)
      decreases |rest|
    {
      var n := |rest| % 0x1_0000_0000;
      if n < 4 {
        break;
      }
      var end := (4 + Get32(rest)) % 0x1_0000_0000;
      if n < end {
        break;
      }
      emitted := emitted + [rest[4..end]];
      rest := rest[end..];
    }
  }

  function Prefixed(unit: Data): (d: Data)
    ensures |d| == 4 + |unit|
  {
    Put32(|unit| % 0x1_0000_0000) + unit
  }

  // What JoinNALU makes of a list: empty units are dropped.
  function Join(units: seq<Data>): Data {
    if units == [] then []
    else (if units[0] == [] then [] else Prefixed(units[0])) + Join(units[1..])
  }

  lemma JoinFrom(units: seq<Data>, k: nat)
    requires k < |units|
    ensures Join(units[k..]) == (if units[k] == [] then [] else Prefixed(units[k])) + Join(units[k + 1..])
  {
    assert units[k..][0] == units[k] && units[k..][1..] == units[k + 1..];
  }

  // Allocates an array of the total size and fills it by index.
  method JoinNALU(nalus: seq<Data>) returns (avcc: array<byte>)
    ensures fresh(avcc) && avcc[..] == Join(nalus)
  {
    hide Join, Prefixed;
    assert Join([]) == [] by { JoinEmpty(); }
    assert nalus[0..] == nalus && nalus[|nalus|..] == [];
    var n := JoinedSize(nalus);
    avcc := new byte[n](_ => 0);
    n := 0;
    for k := 0 to |nalus|
      invariant n + |Join(nalus[k..])| == avcc.Length
      invariant avcc[..n] + Join(nalus[k..]) == Join(nalus)
    {
      var i := |nalus[k]|;
      JoinFrom(nalus, k);
      if i > 0 {
        PutUnit(avcc, n, nalus[k]);
        n := n + 4 + i;
      } else {
        assert [] + Join(nalus[k + 1..]) == Join(nalus[k + 1..]);
      }
    }
    assert avcc[..n] + [] == avcc[..];
  }

  lemma JoinEmpty()
    ensures Join([]) == []
  {
  }

  // The first loop of JoinNALU.
  method JoinedSize(nalus: seq<Data>) returns (n: nat)
    ensures n == |Join(nalus)|
  {
    hide Join, Put32;
    assert |Join([])| == 0 by { JoinEmpty(); }
    assert nalus[0..] == nalus && nalus[|nalus|..] == [];
    n := 0;
    for k := 0 to |nalus|
      invariant n + |Join(nalus[k..])| == |Join(nalus)|
    {
      var i := |nalus[k]|;
      JoinFrom(nalus, k);
      if i > 0 {
        n := n + 4 + i;
      }
    }
  }

  // The size and the bytes of one unit.
  method PutUnit(a: array<byte>, n: nat, nal: Data)
    requires n + 4 + |nal| <= a.Length
    modifies a
    ensures a[..n + 4 + |nal|] == old(a[..n]) + Prefixed(nal)
  {
    hide Put32;
    ghost var done := a[..n];
    var size := Put32(|nal| % 0x1_0000_0000);
    CopyInto(a, n, size);
    assert a[..n + 4] == done + size;
    CopyInto(a, n + 4, nal);
    assert a[..n + 4 + |nal|] == done + size + nal;
    assert done + size + nal == done + (size + nal);
  }

  // copy(a[at:], b).
  method CopyInto(a: array<byte>, at: nat, b: Data)
    requires at + |b| <= a.Length
    modifies a
    ensures a[..] == old(a[..at]) + b + old(a[at + |b|..])
  {
    forall i | 0 <= i < |b| {
      a[at + i] := b[i];
    }
  }

  // The list that survives joining.
  function NonEmpty(units: seq<Data>): seq<Data> {
    if units == [] then []
    else (if units[0] == [] then [] else [units[0]]) + NonEmpty(units[1..])
  }

  // EmitNalus inverts JoinNALU.
  lemma {:induction false} AvccOfJoin(units: seq<Data>)
    requires |Join(units)| < 0x1_0000_0000
    ensures Avcc(Join(units)) == NonEmpty(units) && !AvccPanics(Join(units))
  {
    hide Prefixed;
    if units == [] {
      AvccEnd();
    } else {
      hide Avcc, AvccPanics;
      var rest := Join(units[1..]);
      if units[0] == [] {
        assert [] + rest == rest;
        assert [] + NonEmpty(units[1..]) == NonEmpty(units[1..]);
        AvccOfJoin(units[1..]);
      } else {
        AvccStep(units[0], rest);
        AvccOfJoin(units[1..]);
      }
    }
  }

  lemma AvccEnd()
    ensures Avcc([]) == [] && !AvccPanics([])
  {
  }

  lemma AvccStep(unit: Data, rest: Data)
    requires |Prefixed(unit) + rest| < 0x1_0000_0000
    ensures Avcc(Prefixed(unit) + rest) == [unit] + Avcc(rest)
    ensures AvccPanics(Prefixed(unit) + rest) == AvccPanics(rest)
  {
    var d := Prefixed(unit) + rest;
    Get32Put32(|unit|, unit + rest);
    hide Get32, Put32;
    assert d == Put32(|unit|) + (unit + rest);
    assert d[4..4 + |unit|] == unit && d[4 + |unit|..] == rest;
    assert |d| % 0x1_0000_0000 == |d|;
  }

  // ---- SplitNALU ---------------------------------------------------------------

  // Every size field that SplitNALU reads is there; otherwise it panics.
  predicate Splittable(d: Data)
    decreases |d|
  {
    |d| >= 4 && (4 + Get32(d) < |d| ==> Splittable(d[4 + Get32(d)..]))
  }

  lemma EmptyConcat()
    ensures Concat([]) == []
  {
  }

  // The pieces keep their size fields.
  method SplitNALU(avcc: Data) returns (nals: seq<Data>)
    requires Splittable(avcc)
    ensures Concat(nals) == avcc
    ensures forall i :: 0 <= i < |nals| - 1 ==> |nals[i]| >= 4 && |nals[i]| == 4 + Get32(nals[i])
    ensures |nals| > 0 && |nals[|nals| - 1]| >= 4 && 4 + Get32(nals[|nals| - 1]) >= |nals[|nals| - 1]|
  {
    hide Get32, Concat;
    assert Concat([]) == [] by { EmptyConcat(); }
    nals := [];
    var rest := avcc;
    while true
      invariant Splittable(rest) && Concat(nals) + rest == avcc
      invariant forall i :: 0 <= i < |nals| ==> |nals[i]| >= 4 && |nals[i]| == 4 + Get32(nals[i])
      decreases |rest|
    {
      var size := Get32(rest) + 4;
      if size < |rest| {
        Get32Prefix(rest, size);
        ConcatLast(nals, rest[..size]);
        nals := nals + [rest[..size]];
        rest := rest[size..];
      } else {
        ConcatLast(nals, rest);
        nals := nals + [rest];
        break;
      }
    }
  }
}
