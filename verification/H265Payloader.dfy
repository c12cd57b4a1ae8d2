// pkg/h265/payloader.go: RTP payloads of H.265, against a receiver written
// from RFC 7798. AddDONL is off.

module H265Payloader {
  import opened Bytes
  import opened Nalu

  const AP := 48
  const FU := 49
  const PACI := 50

  // ---- The two-byte NAL unit header ----------------------------------------------

  function Type(b: Data): nat
    requires |b| >= 2
  {
    b[0] / 2 % 0x40
  }

  function LayerID(b: Data): nat
    requires |b| >= 2
  {
    b[0] % 2 * 0x20 + b[1] / 8
  }

  function TID(b: Data): nat
    requires |b| >= 2
  {
    b[1] % 8
  }

  // ---- Receiver: RFC 7798 ----------------------------------------------------------

  // The units of an aggregation packet after its header (section 4.4.2).
  function ApUnits(b: Data): seq<Data> {
    if |b| < 2 || |b| < 2 + Get16(b) then []
    else [b[2..2 + Get16(b)]] + ApUnits(b[2 + Get16(b)..])
  }

  predicate StartBit(fu: Data)
    requires |fu| >= 3
  {
    fu[2] >= 0x80
  }

  predicate EndBit(fu: Data)
    requires |fu| >= 3
  {
    fu[2] / 0x40 % 2 == 1
  }

  // The header of a fragmented unit: the payload header with the FuType in
  // the place of its type (section 4.4.3).
  function UnitHeader(fu: Data): Data
    requires |fu| >= 3
  {
    [fu[0] / 0x80 * 0x80 + fu[2] % 0x40 * 2 + fu[0] % 2, fu[1]]
  }

  datatype Received = Received(units: seq<Data>, partial: Option<Data>)

  function Receive(partial: Option<Data>, packet: Data): Received {
    if |packet| < 2 || Type(packet) == 50 then Received([], None)
    else if Type(packet) == 48 then Received(ApUnits(packet[2..]), None)
    else if Type(packet) == 49 then
      if |packet| < 3 then Received([], None)
      else
        var sofar := if StartBit(packet) then Some(UnitHeader(packet)) else partial;
        if sofar.None? then Received([], None)
        else if EndBit(packet) then Received([sofar.value + packet[3..]], None)
        else Received([], Some(sofar.value + packet[3..]))
    else Received([packet], None)
  }

  function ReceiveAll(partial: Option<Data>, packets: seq<Data>): Received
    decreases |packets|
  {
    if packets == [] then Received([], partial)
    else
      var first := Receive(partial, packets[0]);
      var rest := ReceiveAll(first.partial, packets[1..]);
      Received(first.units + rest.units, rest.partial)
  }

  lemma {:induction false} ReceiveAppend(partial: Option<Data>, a: seq<Data>, b: seq<Data>)
    ensures var x := ReceiveAll(partial, a);
            var y := ReceiveAll(x.partial, b);
            ReceiveAll(partial, a + b) == Received(x.units + y.units, y.partial)
    decreases |a|
  {
    hide Receive;
    if a == [] {
      assert a + b == b;
    } else {
      assert (a + b)[0] == a[0] && (a + b)[1..] == a[1..] + b;
      ReceiveAppend(Receive(partial, a[0]).partial, a[1..], b);
    }
  }

  // ---- What the payloader emits -----------------------------------------------------

  // What every unit must have: a header, and room for it in a fragment when
  // it is over the mtu. The source panics otherwise.
  predicate Payable(unit: Data, mtu: uint16) {
    unit == [] || (|unit| >= 2 && (|unit| > mtu ==> mtu >= 3))
  }

  function Min(a: int, b: int): int {
    if a < b then a else b
  }

  function MinLayer(units: seq<Data>): (m: nat)
    requires forall i :: 0 <= i < |units| ==> |units[i]| >= 2
    ensures m <= 0xFF
  {
    if units == [] then 0xFF
    else Min(MinLayer(units[..|units| - 1]), LayerID(units[|units| - 1]))
  }

  function MinTid(units: seq<Data>): (m: nat)
    requires forall i :: 0 <= i < |units| ==> |units[i]| >= 2
    ensures m <= 0xFF
  {
    if units == [] then 0xFF
    else Min(MinTid(units[..|units| - 1]), TID(units[|units| - 1]))
  }

  function Aggregated(unit: Data): Data {
    Put16(|unit| % 0x1_0000) + unit
  }

  function Aggregates(units: seq<Data>): Data
    decreases |units|
  {
    if units == [] then []
    else Aggregates(units[..|units| - 1]) + Aggregated(units[|units| - 1])
  }

  // AP << 9 | layer << 3 | tid; nothing overlaps when the layer has six bits.
  function ApHeader(layer: nat, tid: nat): uint16
    requires layer < 0x40 && tid < 8
  {
    AP * 0x200 + layer * 8 + tid
  }

  lemma {:induction false} MinimaAreSmall(units: seq<Data>)
    requires units != [] && forall i :: 0 <= i < |units| ==> |units[i]| >= 2
    ensures MinLayer(units) < 0x40 && MinTid(units) < 8
    decreases |units|
  {
    if |units| > 1 { MinimaAreSmall(units[..|units| - 1]); }
  }

  function ApPacket(units: seq<Data>): Data
    requires units != [] && forall i :: 0 <= i < |units| ==> |units[i]| >= 2
  {
    MinimaAreSmall(units);
    Put16(ApHeader(MinLayer(units), MinTid(units))) + Aggregates(units)
  }

  function Flushed(units: seq<Data>): seq<Data>
    requires forall i :: 0 <= i < |units| ==> |units[i]| >= 2
  {
    if units == [] then [] else if |units| == 1 then [units[0]] else [ApPacket(units)]
  }

  function Fragments(head: Data, kind: byte, data: Data, max: nat, first: bool): seq<Data>
    requires max > 0 && kind < 0x40 && |head| == 2
    decreases |data|
  {
    if data == [] then []
    else
      var n := Min(max, |data|);
      var flag := if first then 0x80 else if n == |data| then 0x40 else 0;
      [head + [kind + flag] + data[..n]] + Fragments(head, kind, data[n..], max, false)
  }

  // The payload header of the fragments: the unit's with the type FU.
  function FuHeader(unit: Data): Data
    requires |unit| >= 2
  {
    [unit[0] / 0x80 * 0x80 + FU * 2 + unit[0] % 2, unit[1]]
  }

  function AllFragments(unit: Data, mtu: uint16): seq<Data>
    requires |unit| > mtu > 3
  {
    Fragments(FuHeader(unit), Type(unit), unit[2..], mtu - 3, true)
  }

  datatype State = State(payloads: seq<Data>, buffered: seq<Data>)

  predicate Headed(units: seq<Data>) {
    forall i :: 0 <= i < |units| ==> |units[i]| >= 2
  }

  // aggregationBufferSize.
  function Size(units: seq<Data>): nat
    decreases |units|
  {
    if units == [] then 0 else Size(units[..|units| - 1]) + |units[|units| - 1]| + 2
  }

  function AddUnit(buffered: seq<Data>, mtu: uint16, skip: bool, unit: Data): (s: State)
    requires Headed(buffered) && Payable(unit, mtu)
    ensures Headed(s.buffered)
  {
    if unit == [] then State([], buffered)
    else if |unit| <= mtu then
      var full := Size(buffered) + |unit| + 2 > mtu;
      var out := if full then Flushed(buffered) else [];
      var now := if full then [unit] else buffered + [unit];
      if skip then State(out + Flushed(now), []) else State(out, now)
    else if mtu == 3 then State([], buffered)
    else State(Flushed(buffered) + AllFragments(unit, mtu), [])
  }

  predicate AllPayable(units: seq<Data>, mtu: uint16) {
    forall i :: 0 <= i < |units| ==> Payable(units[i], mtu)
  }

  function AddUnits(mtu: uint16, skip: bool, units: seq<Data>): (s: State)
    requires AllPayable(units, mtu)
    ensures Headed(s.buffered)
    decreases |units|
  {
    if units == [] then State([], [])
    else
      var before := AddUnits(mtu, skip, units[..|units| - 1]);
      var last := AddUnit(before.buffered, mtu, skip, units[|units| - 1]);
      State(before.payloads + last.payloads, last.buffered)
  }

  function Payloads(mtu: uint16, skip: bool, units: seq<Data>): seq<Data>
    requires AllPayable(units, mtu)
  {
    var s := AddUnits(mtu, skip, units);
    s.payloads + Flushed(s.buffered)
  }

  class Payloader {
    var SkipAggregation: bool

    constructor (skip: bool)
      ensures SkipAggregation == skip
    {
      SkipAggregation := skip;
    }

    method Payload(mtu: uint16, payload: Data) returns (payloads: seq<Data>)
      requires !AvccPanics(payload) && AllPayable(Avcc(payload), mtu)
      ensures payloads == Payloads(mtu, SkipAggregation, Avcc(payload))
    {
      hide Avcc, AvccPanics, AddUnit, Flushed, Payable;
      payloads := [];
      if |payload| == 0 {
        NoPayload(mtu, SkipAggregation);
        return;
      }
      var nalus := EmitNalus(payload, true);
      var bufferedNALUs, aggregationBufferSize := [], 0;
      for i := 0 to |nalus|
        invariant Headed(bufferedNALUs) && aggregationBufferSize == Size(bufferedNALUs)
        invariant State(payloads, bufferedNALUs) == AddUnits(mtu, SkipAggregation, nalus[..i])
      {
        assert nalus[..i + 1][..i] == nalus[..i] && nalus[..i + 1][i] == nalus[i];
        var more;
        more, bufferedNALUs, aggregationBufferSize := EmitUnit(mtu, bufferedNALUs, aggregationBufferSize, nalus[i]);
        payloads := payloads + more;
      }
      assert nalus[..|nalus|] == nalus;
      var last := FlushBufferedNals(bufferedNALUs, aggregationBufferSize);
      payloads := payloads + last;
    }

    // The function that Payload passes to EmitNalus.
    method EmitUnit(mtu: uint16, buffered: seq<Data>, size: nat, nalu: Data)
      returns (payloads: seq<Data>, buffered': seq<Data>, size': nat)
      requires Headed(buffered) && size == Size(buffered) && Payable(nalu, mtu)
      ensures State(payloads, buffered') == AddUnit(buffered, mtu, SkipAggregation, nalu)
      ensures size' == Size(buffered')
    {
      hide Flushed, AllFragments;
      payloads, buffered', size' := [], buffered, size;
      if |nalu| == 0 {
        return;
      }
      if |nalu| <= mtu {
        var marginalAggregationSize := |nalu| + 2;
        if size' + marginalAggregationSize > mtu {
          payloads := FlushBufferedNals(buffered', size');
          buffered', size' := [], 0;
        }
        assert (buffered' + [nalu])[..|buffered'|] == buffered';
        buffered', size' := buffered' + [nalu], size' + marginalAggregationSize;
        if SkipAggregation {
          var more := FlushBufferedNals(buffered', size');
          payloads := payloads + more;
          buffered', size' := [], 0;
        }
      } else {
        var maxFUPayloadSize := mtu - 3;
        if maxFUPayloadSize == 0 || |nalu| - 2 == 0 {
          return;
        }
        payloads := FlushBufferedNals(buffered', size');
        buffered', size' := [], 0;
        var fus := Fragment(mtu, nalu);
        payloads := payloads + fus;
      }
    }

    // What the buffer is emitted as; the caller clears it.
    method FlushBufferedNals(buffered: seq<Data>, size: nat) returns (payloads: seq<Data>)
      requires Headed(buffered) && size == Size(buffered)
      ensures payloads == Flushed(buffered)
    {
      hide Aggregated, LayerID, TID;
      if |buffered| == 0 {
        return [];
      }
      if |buffered| == 1 {
        return [buffered[0]];
      }
      var layerID, tid := 0xFF, 0xFF;
      for i := 0 to |buffered|
        invariant layerID == MinLayer(buffered[..i]) && tid == MinTid(buffered[..i])
      {
        var headerLayerID, headerTID := LayerID(buffered[i]), TID(buffered[i]);
        assert buffered[..i + 1][..i] == buffered[..i];
        if headerLayerID < layerID {
          layerID := headerLayerID;
        }
        if headerTID < tid {
          tid := headerTID;
        }
      }
      assert buffered[..|buffered|] == buffered;
      MinimaAreSmall(buffered);
      var buf := Put16(ApHeader(layerID, tid));
      ghost var head := buf;
      for i := 0 to |buffered|
        invariant buf == head + Aggregates(buffered[..i])
      {
        assert buffered[..i + 1][..i] == buffered[..i];
        buf := buf + Aggregated(buffered[i]);
      }
      payloads := [buf];
    }

    // The fragmentation loop.
    method Fragment(mtu: uint16, unit: Data) returns (fus: seq<Data>)
      requires |unit| > mtu > 3
      ensures fus == AllFragments(unit, mtu)
    {
      var maxFUPayloadSize := mtu - 3;
      var head, kind := FuHeader(unit), Type(unit);
      var nalu := unit[2..];
      var fullNALUSize := |nalu|;
      fus := [];
      while |nalu| > 0
        invariant |nalu| <= fullNALUSize
        invariant AllFragments(unit, mtu) == fus + Fragments(head, kind, nalu, maxFUPayloadSize, |nalu| == fullNALUSize)
      {
        var currentFUPayloadSize := |nalu|;
        if currentFUPayloadSize > maxFUPayloadSize {
          currentFUPayloadSize := maxFUPayloadSize;
        }
        var fuHeader := kind;
        if |nalu| == fullNALUSize {
          fuHeader := fuHeader + 0x80;
        } else if |nalu| - currentFUPayloadSize == 0 {
          fuHeader := fuHeader + 0x40;
        }
        fus := fus + [head + [fuHeader] + nalu[..currentFUPayloadSize]];
        nalu := nalu[currentFUPayloadSize..];
      }
    }
  }

  lemma NoPayload(mtu: uint16, skip: bool)
    ensures Avcc([]) == [] && Payloads(mtu, skip, []) == []
  {
  }

  // ---- What arrives --------------------------------------------------------------------

  // Unit types that section 1.1.4 leaves to NAL units proper.
  predicate Defined(units: seq<Data>) {
    forall i :: 0 <= i < |units| && |units[i]| >= 2 ==> Type(units[i]) < AP
  }

  function Arrives(unit: Data, mtu: uint16): seq<Data> {
    if unit == [] || (|unit| > mtu && mtu == 3) then [] else [unit]
  }

  // Every unit in order; only units that need fragments of no bytes are lost.
  function Arrived(mtu: uint16, units: seq<Data>): seq<Data>
    decreases |units|
  {
    if units == [] then [] else Arrived(mtu, units[..|units| - 1]) + Arrives(units[|units| - 1], mtu)
  }

  lemma {:induction false} AggregatesFront(unit: Data, units: seq<Data>)
    ensures Aggregates([unit] + units) == Aggregated(unit) + Aggregates(units)
    decreases |units|
  {
    hide Aggregated;
    var all := [unit] + units;
    if units == [] {
      assert all[..0] == [] && all[0] == unit;
    } else {
      assert all[..|all| - 1] == [unit] + units[..|units| - 1] && all[|all| - 1] == units[|units| - 1];
      AggregatesFront(unit, units[..|units| - 1]);
    }
  }

  lemma {:induction false} ApUnitsOfAggregates(units: seq<Data>)
    requires forall i :: 0 <= i < |units| ==> |units[i]| < 0x1_0000
    ensures ApUnits(Aggregates(units)) == units
    decreases |units|
  {
    if units != [] {
      assert [units[0]] + units[1..] == units;
      AggregatesFront(units[0], units[1..]);
      ApUnitsStep(units[0], Aggregates(units[1..]));
      ApUnitsOfAggregates(units[1..]);
    }
  }

  lemma ApUnitsStep(unit: Data, rest: Data)
    requires |unit| < 0x1_0000
    ensures ApUnits(Aggregated(unit) + rest) == [unit] + ApUnits(rest)
  {
    var b := Aggregated(unit) + rest;
    assert b == Put16(|unit|) + (unit + rest);
    Get16Put16(|unit|, unit + rest);
    assert b[2..2 + |unit|] == unit && b[2 + |unit|..] == rest;
  }

  // The header of an aggregation packet: type 48, no forbidden bit, and the
  // least layer and temporal id of its units.
  lemma ApHeaderFields(units: seq<Data>)
    requires Headed(units) && units != []
    ensures var p := ApPacket(units);
            Type(p) == AP && p[0] < 0x80 && LayerID(p) == MinLayer(units) && TID(p) == MinTid(units)
  {
    hide Aggregates, MinLayer, MinTid;
    MinimaAreSmall(units);
  }

  lemma MinStep(units: seq<Data>)
    requires Headed(units) && units != []
    ensures var front, last := units[..|units| - 1], units[|units| - 1];
            MinLayer(units) == Min(MinLayer(front), LayerID(last)) && MinTid(units) == Min(MinTid(front), TID(last))
  {
  }

  lemma MinNone()
    ensures MinLayer([]) == 0xFF && MinTid([]) == 0xFF
  {
  }

  lemma {:induction false} MinimaAreLeast(units: seq<Data>)
    requires Headed(units) && units != []
    ensures forall i :: 0 <= i < |units| ==> MinLayer(units) <= LayerID(units[i]) && MinTid(units) <= TID(units[i])
    ensures exists i :: 0 <= i < |units| && MinLayer(units) == LayerID(units[i])
    ensures exists i :: 0 <= i < |units| && MinTid(units) == TID(units[i])
    decreases |units|
  {
    hide LayerID, TID, MinLayer, MinTid;
    var front, last := units[..|units| - 1], |units| - 1;
    MinStep(units);
    if front == [] {
      MinNone();
      assert LayerID(units[0]) <= 0xFF && TID(units[0]) <= 0xFF by { MinimaAreSmall(units); IdsAreBytes(units[0]); }
      assert MinLayer(units) == LayerID(units[0]) && MinTid(units) == TID(units[0]);
    } else {
      MinimaAreLeast(front);
      var i :| 0 <= i < |front| && MinLayer(front) == LayerID(front[i]);
      var j :| 0 <= j < |front| && MinTid(front) == TID(front[j]);
      assert front[i] == units[i] && front[j] == units[j];
      assert MinLayer(units) == LayerID(units[if MinLayer(front) < LayerID(units[last]) then i else last]);
      assert MinTid(units) == TID(units[if MinTid(front) < TID(units[last]) then j else last]);
      assert forall k :: 0 <= k < last ==> units[k] == front[k];
    }
  }

  lemma IdsAreBytes(unit: Data)
    requires |unit| >= 2
    ensures LayerID(unit) < 0x40 && TID(unit) < 8
  {
  }

  // The units held back always fit in one aggregation packet or one packet.
  predicate Together(units: seq<Data>, mtu: uint16) {
    && (forall i :: 0 <= i < |units| ==> 2 <= |units[i]| <= mtu)
    && (|units| >= 2 ==> Size(units) <= mtu)
  }

  predicate Held(units: seq<Data>, mtu: uint16) {
    Together(units, mtu) && forall i :: 0 <= i < |units| ==> Type(units[i]) < AP
  }

  lemma FlushedArrives(units: seq<Data>, mtu: uint16)
    requires Held(units, mtu)
    ensures ReceiveAll(None, Flushed(units)) == Received(units, None)
  {
    if |units| == 1 {
      assert Flushed(units) == units && units[1..] == [] && Receive(None, units[0]) == Received([units[0]], None);
    } else if |units| >= 2 {
      var p := ApPacket(units);
      ApHeaderFields(units);
      assert p[2..] == Aggregates(units);
      ApUnitsOfAggregates(units);
      assert Receive(None, p) == Received(units, None);
      assert [p][1..] == [];
    }
  }

  lemma {:induction false} LaterFragments(head: Data, kind: byte, data: Data, max: nat, sofar: Data)
    requires max > 0 && kind < 0x40 && |head| == 2 && Type(head) == FU && data != []
    ensures ReceiveAll(Some(sofar), Fragments(head, kind, data, max, false)) == Received([sofar + data], None)
    decreases |data|
  {
    var n := Min(max, |data|);
    var fus := Fragments(head, kind, data, max, false);
    var fu, rest := fus[0], fus[1..];
    assert fu[3..] == data[..n];
    if n == |data| {
      assert data[..n] == data && data[n..] == [];
      assert rest == Fragments(head, kind, data[n..], max, false);
    } else {
      assert !EndBit(fu) && Receive(Some(sofar), fu) == Received([], Some(sofar + data[..n]));
      hide Receive, Fragments;
      LaterFragments(head, kind, data[n..], max, sofar + data[..n]);
      assert sofar + data[..n] + data[n..] == sofar + data;
    }
  }

  // The octets of the original header come back, forbidden bit included.
  lemma HeaderComesBack(unit: Data, fu: Data)
    requires |unit| >= 2 && |fu| >= 3 && fu[..2] == FuHeader(unit) && fu[2] % 0x40 == Type(unit)
    ensures Type(fu) == FU && UnitHeader(fu) == unit[..2]
  {
    assert fu[0] == fu[..2][0] && fu[1] == fu[..2][1];
  }

  lemma FragmentsArrive(unit: Data, mtu: uint16)
    requires |unit| > mtu > 3
    ensures ReceiveAll(None, AllFragments(unit, mtu)) == Received([unit], None)
  {
    var head, kind, data, n := FuHeader(unit), Type(unit), unit[2..], mtu - 3;
    var fus := AllFragments(unit, mtu);
    var fu := fus[0];
    assert fu == head + [kind + 0x80] + data[..n] && fus[1..] == Fragments(head, kind, data[n..], n, false);
    assert fu[..2] == head && fu[3..] == data[..n] && StartBit(fu) && !EndBit(fu);
    HeaderComesBack(unit, fu);
    assert Receive(None, fu) == Received([], Some(unit[..2] + data[..n]));
    assert Type(head) == FU;
    hide Receive, Fragments, FuHeader;
    LaterFragments(head, kind, data[n..], n, unit[..2] + data[..n]);
    assert unit[..2] + data[..n] + data[n..] == unit;
  }

  // One unit: what the receiver gets and what is still held make up what was
  // held before and the unit.
  lemma UnitArrives(buffered: seq<Data>, mtu: uint16, skip: bool, unit: Data)
    requires Held(buffered, mtu) && Payable(unit, mtu) && (|unit| >= 2 ==> Type(unit) < AP)
    ensures var s := AddUnit(buffered, mtu, skip, unit); var r := ReceiveAll(None, s.payloads);
            Held(s.buffered, mtu) && r.partial == None && r.units + s.buffered == buffered + Arrives(unit, mtu)
  {
    hide Receive, Fragments, Type;
    if unit == [] || (|unit| > mtu && mtu == 3) {
      assert [] + buffered == buffered + [];
    } else if |unit| > mtu {
      FlushedArrives(buffered, mtu);
      FragmentsArrive(unit, mtu);
      ReceiveAppend(None, Flushed(buffered), AllFragments(unit, mtu));
    } else {
      SmallUnitArrives(buffered, mtu, skip, unit);
    }
  }

  lemma StillHeld(buffered: seq<Data>, mtu: uint16, unit: Data)
    requires Held(buffered, mtu) && 2 <= |unit| <= mtu && Type(unit) < AP
    ensures Held([unit], mtu) && (Size(buffered) + |unit| + 2 <= mtu ==> Held(buffered + [unit], mtu))
  {
    hide Type;
    assert (buffered + [unit])[..|buffered|] == buffered;
  }

  lemma StillTogether(buffered: seq<Data>, mtu: uint16, unit: Data)
    requires Together(buffered, mtu) && 2 <= |unit| <= mtu
    ensures Together([unit], mtu) && (Size(buffered) + |unit| + 2 <= mtu ==> Together(buffered + [unit], mtu))
  {
    SizeSnoc(buffered, unit);
    hide Size;
  }

  lemma SizeSnoc(units: seq<Data>, unit: Data)
    ensures Size(units + [unit]) == Size(units) + |unit| + 2
  {
    assert (units + [unit])[..|units|] == units && (units + [unit])[|units|] == unit;
  }

  lemma SmallUnitArrives(buffered: seq<Data>, mtu: uint16, skip: bool, unit: Data)
    requires Held(buffered, mtu) && 2 <= |unit| <= mtu && Type(unit) < AP
    ensures var s := AddUnit(buffered, mtu, skip, unit); var r := ReceiveAll(None, s.payloads);
            Held(s.buffered, mtu) && r.partial == None && r.units + s.buffered == buffered + [unit]
  {
    hide Type, Flushed, Held, Together, ReceiveAll, Size;
    HeldHeaded(buffered, mtu);
    StillHeld(buffered, mtu, unit);
    NothingHeld(mtu);
    FlushedArrives(buffered, mtu);
    var full := Size(buffered) + |unit| + 2 > mtu;
    var now := if full then [unit] else buffered + [unit];
    NothingSent();
    assert [] + (buffered + [unit]) == buffered + [unit] && buffered + [unit] + [] == buffered + [unit];
    if skip {
      FlushedArrives(now, mtu);
      ReceiveAppend(None, if full then Flushed(buffered) else [], Flushed(now));
    }
  }

  lemma HeldHeaded(units: seq<Data>, mtu: uint16)
    requires Held(units, mtu)
    ensures Headed(units)
  {
  }

  lemma NothingSent()
    ensures ReceiveAll(None, []) == Received([], None)
  {
  }

  lemma NothingHeld(mtu: uint16)
    ensures Held([], mtu) && Together([], mtu)
  {
  }

  lemma {:induction false} UnitsArrive(mtu: uint16, skip: bool, units: seq<Data>)
    requires AllPayable(units, mtu) && Defined(units)
    ensures var s := AddUnits(mtu, skip, units); var r := ReceiveAll(None, s.payloads);
            Held(s.buffered, mtu) && r.partial == None && r.units + s.buffered == Arrived(mtu, units)
    decreases |units|
  {
    hide AddUnit, Held, Payable, Type, Arrives;
    if units == [] {
      NothingHeld(mtu);
    } else {
      var front, last := units[..|units| - 1], units[|units| - 1];
      assert forall i :: 0 <= i < |front| ==> front[i] == units[i];
      UnitsArrive(mtu, skip, front);
      var s := AddUnits(mtu, skip, front);
      UnitArrives(s.buffered, mtu, skip, last);
      var t := AddUnit(s.buffered, mtu, skip, last);
      ReceiveAppend(None, s.payloads, t.payloads);
      Glue(ReceiveAll(None, s.payloads).units, s.buffered, Arrived(mtu, front),
           ReceiveAll(None, t.payloads).units, t.buffered, Arrives(last, mtu));
    }
  }

  lemma Glue(r: seq<Data>, b: seq<Data>, a: seq<Data>, x: seq<Data>, y: seq<Data>, s: seq<Data>)
    requires r + b == a && x + y == b + s
    ensures r + x + y == a + s
  {
    assert r + x + y == r + (x + y) == r + b + s;
  }

  // Every access unit: the receiver gets its units in order and nothing else.
  lemma AllArrive(mtu: uint16, skip: bool, units: seq<Data>)
    requires AllPayable(units, mtu) && Defined(units)
    ensures ReceiveAll(None, Payloads(mtu, skip, units)) == Received(Arrived(mtu, units), None)
  {
    hide Flushed, Held, Payable, Defined;
    UnitsArrive(mtu, skip, units);
    var s := AddUnits(mtu, skip, units);
    FlushedArrives(s.buffered, mtu);
    ReceiveAppend(None, s.payloads, Flushed(s.buffered));
  }

  lemma {:induction false} NothingLost(mtu: uint16, units: seq<Data>)
    requires mtu > 3
    ensures Arrived(mtu, units) == NonEmpty(units)
    decreases |units|
  {
    if units != [] {
      NothingLost(mtu, units[..|units| - 1]);
      NonEmptySnoc(units[..|units| - 1], units[|units| - 1]);
      assert units[..|units| - 1] + [units[|units| - 1]] == units;
    }
  }

  lemma {:induction false} NonEmptySnoc(units: seq<Data>, unit: Data)
    ensures NonEmpty(units + [unit]) == NonEmpty(units) + (if unit == [] then [] else [unit])
    decreases |units|
  {
    if units == [] {
      assert units + [unit] == [unit] && [unit][1..] == [];
    } else {
      assert (units + [unit])[0] == units[0] && (units + [unit])[1..] == units[1..] + [unit];
      NonEmptySnoc(units[1..], unit);
    }
  }

  // From JoinNALU to the receiver, for every mtu that admits fragments.
  lemma JoinedArrives(mtu: uint16, skip: bool, units: seq<Data>)
    requires mtu > 3 && |Join(units)| < 0x1_0000_0000
    requires AllPayable(NonEmpty(units), mtu) && Defined(NonEmpty(units))
    ensures Avcc(Join(units)) == NonEmpty(units)
    ensures ReceiveAll(None, Payloads(mtu, skip, NonEmpty(units))) == Received(NonEmpty(units), None)
  {
    hide AllPayable, Defined, ReceiveAll, Payloads;
    AvccOfJoin(units);
    AllArrive(mtu, skip, NonEmpty(units));
    NothingLost(mtu, NonEmpty(units));
    NonEmptyTwice(units);
  }

  lemma {:induction false} NonEmptyTwice(units: seq<Data>)
    ensures NonEmpty(NonEmpty(units)) == NonEmpty(units)
  {
    if units != [] {
      NonEmptyTwice(units[1..]);
      var rest := NonEmpty(units[1..]);
      assert units[0] != [] ==> ([units[0]] + rest)[1..] == rest;
      assert [] + rest == rest;
    }
  }

  // ---- Size of the packets -----------------------------------------------------------------

  // A single unit or a fragment keeps to the mtu; an aggregation packet may
  // exceed it by its own two-byte header.
  predicate Fits(packet: Data, mtu: uint16) {
    |packet| >= 2 && |packet| <= (if Type(packet) == AP then mtu + 2 else mtu)
  }

  lemma {:induction false} SizeOfAggregates(units: seq<Data>)
    ensures |Aggregates(units)| == Size(units)
    decreases |units|
  {
    if units != [] { SizeOfAggregates(units[..|units| - 1]); }
  }

  lemma FlushedFits(units: seq<Data>, mtu: uint16)
    requires Held(units, mtu)
    ensures forall p :: p in Flushed(units) ==> Fits(p, mtu)
  {
    if |units| >= 2 {
      ApHeaderFields(units);
      SizeOfAggregates(units);
    }
  }

  lemma {:induction false} FragmentsFit(head: Data, kind: byte, data: Data, max: nat, first: bool)
    requires max > 0 && kind < 0x40 && |head| == 2
    ensures forall p :: p in Fragments(head, kind, data, max, first) ==> 3 <= |p| <= max + 3 && p[..2] == head
    decreases |data|
  {
    if data != [] {
      var n := Min(max, |data|);
      var fus := Fragments(head, kind, data, max, first);
      FragmentsFit(head, kind, data[n..], max, false);
      assert |fus[0]| == 3 + n && fus[0][..2] == head;
    }
  }

  lemma AllFragmentsFit(unit: Data, mtu: uint16)
    requires |unit| > mtu > 3
    ensures forall p :: p in AllFragments(unit, mtu) ==> Fits(p, mtu)
  {
    FragmentsFit(FuHeader(unit), Type(unit), unit[2..], mtu - 3, true);
    forall p | p in AllFragments(unit, mtu) ensures Fits(p, mtu) {
      assert p[0] == p[..2][0];
    }
  }

  lemma {:induction false} PayloadsFit(mtu: uint16, skip: bool, units: seq<Data>)
    requires AllPayable(units, mtu) && Defined(units)
    ensures forall p :: p in AddUnits(mtu, skip, units).payloads ==> Fits(p, mtu)
    decreases |units|
  {
    hide Fits, Held, Payable, Type, Flushed, AllFragments;
    if units != [] {
      var front, last := units[..|units| - 1], units[|units| - 1];
      assert forall i :: 0 <= i < |front| ==> front[i] == units[i];
      PayloadsFit(mtu, skip, front);
      UnitsArrive(mtu, skip, front);
      UnitFits(AddUnits(mtu, skip, front).buffered, mtu, skip, last);
    }
  }

  lemma UnitFits(buffered: seq<Data>, mtu: uint16, skip: bool, unit: Data)
    requires Held(buffered, mtu) && Payable(unit, mtu) && (|unit| >= 2 ==> Type(unit) < AP)
    ensures forall p :: p in AddUnit(buffered, mtu, skip, unit).payloads ==> Fits(p, mtu)
  {
    hide Fits, Type, Flushed, AllFragments;
    FlushedFits(buffered, mtu);
    if unit != [] && |unit| <= mtu {
      var now := if Size(buffered) + |unit| + 2 > mtu then [unit] else buffered + [unit];
      assert (buffered + [unit])[..|buffered|] == buffered;
      assert Held(now, mtu);
      FlushedFits(now, mtu);
    } else if unit != [] && mtu > 3 {
      AllFragmentsFit(unit, mtu);
    }
  }

  // Every payload of an access unit.
  lemma AllFit(mtu: uint16, skip: bool, units: seq<Data>)
    requires AllPayable(units, mtu) && Defined(units)
    ensures forall p :: p in Payloads(mtu, skip, units) ==> Fits(p, mtu)
  {
    hide Fits, Flushed, Held, Payable, Defined;
    PayloadsFit(mtu, skip, units);
    UnitsArrive(mtu, skip, units);
    FlushedFits(AddUnits(mtu, skip, units).buffered, mtu);
  }
}
