// pkg/h264/payloader.go: RTP payloads of H.264, against a receiver written
// from RFC 6184.

module H264Payloader {
  import opened Bytes
  import opened Nalu

  const FUA := 28
  const SPS := 7
  const PPS := 8
  const AUD := 9
  const FILLER := 12
  const STAPA_HEADER: byte := 0x78

  function Type(unit: Data): nat
    requires unit != []
  {
    unit[0] % 0x20
  }

  // ---- Receiver: RFC 6184 -------------------------------------------------------

  // The units of a STAP-A after its header byte (section 5.7.1).
  function StapUnits(b: Data): seq<Data> {
    if |b| < 2 || |b| < 2 + Get16(b) then []
    else [b[2..2 + Get16(b)]] + StapUnits(b[2 + Get16(b)..])
  }

  predicate StartBit(fu: Data)
    requires |fu| >= 2
  {
    fu[1] >= 0x80
  }

  predicate EndBit(fu: Data)
    requires |fu| >= 2
  {
    fu[1] / 0x40 % 2 == 1
  }

  // The octet of a fragmented unit: F and NRI of the FU indicator, the type
  // of the FU header (section 5.8).
  function UnitHeader(fu: Data): byte
    requires |fu| >= 2
  {
    fu[0] / 0x20 * 0x20 + fu[1] % 0x20
  }

  datatype Received = Received(units: seq<Data>, partial: Option<Data>)

  // One packet in the non-interleaved mode: a single unit (section 5.6), a
  // STAP-A or an FU-A; everything else is ignored.
  function Receive(partial: Option<Data>, packet: Data): Received {
    if packet == [] then Received([], None)
    else if 1 <= Type(packet) <= 23 then Received([packet], None)
    else if Type(packet) == 24 then Received(StapUnits(packet[1..]), None)
    else if Type(packet) == 28 && |packet| >= 2 then
      var sofar := if StartBit(packet) then Some([UnitHeader(packet)]) else partial;
      if sofar.None? then Received([], None)
      else if EndBit(packet) then Received([sofar.value + packet[2..]], None)
      else Received([], Some(sofar.value + packet[2..]))
    else Received([], None)
  }

  function ReceiveAll(partial: Option<Data>, packets: seq<Data>): Received
    decreases |packets|
  {
    if packets == [] then Received([], partial)
    else
      var first := Receive(partial, packets[0]);
      var rest := ReceiveAll(first.partial, packets[1..]);
      Received(first.units + rest.units, rest.partial)
  }

  lemma {:induction false} ReceiveAppend(partial: Option<Data>, a: seq<Data>, b: seq<Data>)
    ensures var x := ReceiveAll(partial, a);
            var y := ReceiveAll(x.partial, b);
            ReceiveAll(partial, a + b) == Received(x.units + y.units, y.partial)
    decreases |a|
  {
    hide Receive;
    if a == [] {
      assert a + b == b;
    } else {
      assert (a + b)[0] == a[0] && (a + b)[1..] == a[1..] + b;
      ReceiveAppend(Receive(partial, a[0]).partial, a[1..], b);
    }
  }

  // ---- What the payloader emits --------------------------------------------------

  function Min(a: int, b: int): int {
    if a < b then a else b
  }

  // The fragments of the data after the unit's first octet.
  function Fragments(indicator: byte, kind: byte, data: Data, max: nat, first: bool): seq<Data>
    requires max > 0 && kind < 0x20
    decreases |data|
  {
    if data == [] then []
    else
      var n := Min(max, |data|);
      var flag := if first then 0x80 else if n == |data| then 0x40 else 0;
      [[indicator, kind + flag] + data[..n]] + Fragments(indicator, kind, data[n..], max, false)
  }

  function Indicator(unit: Data): byte
    requires unit != []
  {
    FUA + unit[0] / 0x20 % 4 * 0x20
  }

  function Aggregated(unit: Data): Data {
    Put16(|unit| % 0x1_0000) + unit
  }

  function Aggregates(units: seq<Data>): Data {
    if units == [] then [] else Aggregated(units[0]) + Aggregates(units[1..])
  }

  // The STAP-A of a group of units.
  function StapA(units: seq<Data>): Data {
    [STAPA_HEADER] + Aggregates(units)
  }

  // A unit that is sent: alone or in fragments.
  function Packets(unit: Data, mtu: uint16): seq<Data>
    requires unit != []
  {
    if |unit| <= mtu then [unit]
    else if Min(mtu - 2, |unit| - 1) <= 0 then []
    else Fragments(Indicator(unit), Type(unit), unit[1..], mtu - 2, true)
  }

  datatype Emitted = Emitted(payloads: seq<Data>, stap: Option<Data>)

  // What one unit adds to the payloads, and the STAP-A left pending.
  function PayUnit(stap: Option<Data>, mtu: uint16, unit: Data): Emitted {
    if unit == [] || Type(unit) == AUD || Type(unit) == FILLER then Emitted([], stap)
    else if Type(unit) == SPS || Type(unit) == PPS then
      Emitted([], Some((if stap.None? then [STAPA_HEADER] else stap.value) + Aggregated(unit)))
    else
      Emitted((if stap.Some? && |stap.value| <= mtu then [stap.value] else []) + Packets(unit, mtu), None)
  }

  function PayUnits(stap: Option<Data>, mtu: uint16, units: seq<Data>): Emitted
    decreases |units|
  {
    if units == [] then Emitted([], stap)
    else
      var before := PayUnits(stap, mtu, units[..|units| - 1]);
      var last := PayUnit(before.stap, mtu, units[|units| - 1]);
      Emitted(before.payloads + last.payloads, last.stap)
  }

  lemma EmptyPayload(stap: Option<Data>, mtu: uint16)
    ensures PayUnits(stap, mtu, Avcc([])) == PayUnits(stap, mtu, AnnexB([])) == Emitted([], stap)
  {
    var units := AnnexB([]);
    assert units == [[]] && units[..0] == [];
  }

  class Payloader {
    var IsAVC: bool
    var stapANalu: Option<Data> // nil when no parameter set is pending

    constructor (isAVC: bool)
      ensures IsAVC == isAVC && stapANalu == None
    {
      IsAVC, stapANalu := isAVC, None;
    }

    method Payload(mtu: uint16, payload: Data) returns (payloads: seq<Data>)
      requires IsAVC ==> !AvccPanics(payload)
      modifies this`stapANalu
      ensures var units := if IsAVC then Avcc(payload) else AnnexB(payload);
              Emitted(payloads, stapANalu) == PayUnits(old(stapANalu), mtu, units)
    {
      hide Avcc, AnnexB, PayUnit;
      payloads := [];
      if |payload| == 0 {
        EmptyPayload(stapANalu, mtu);
        return;
      }
      var nalus := EmitNalus(payload, IsAVC);
      for i := 0 to |nalus|
        invariant Emitted(payloads, stapANalu) == PayUnits(old(stapANalu), mtu, nalus[..i])
      {
        var more := EmitUnit(mtu, nalus[i]);
        payloads := payloads + more;
        assert nalus[..i + 1][..i] == nalus[..i] && nalus[..i + 1][i] == nalus[i];
      }
      assert nalus[..|nalus|] == nalus;
    }

    // The function that Payload passes to EmitNalus.
    method EmitUnit(mtu: uint16, nalu: Data) returns (payloads: seq<Data>)
      modifies this`stapANalu
      ensures Emitted(payloads, stapANalu) == PayUnit(old(stapANalu), mtu, nalu)
    {
      hide Fragments, Put16;
      payloads := [];
      if |nalu| == 0 {
        return;
      }
      var naluType := nalu[0] % 0x20;
      if naluType == AUD || naluType == FILLER {
        return;
      }
      if naluType == SPS || naluType == PPS {
        if stapANalu == None {
          stapANalu := Some([STAPA_HEADER]);
        }
        stapANalu := Some(stapANalu.value + Put16(|nalu| % 0x1_0000) + nalu);
        assert stapANalu.value == (if old(stapANalu) == None then [STAPA_HEADER] else old(stapANalu).value) + Aggregated(nalu);
        return;
      }
      if stapANalu != None {
        if |stapANalu.value| <= mtu {
          payloads := payloads + [stapANalu.value];
        }
        stapANalu := None;
      }
      if |nalu| <= mtu {
        payloads := payloads + [nalu];
        return;
      }
      if Min(mtu - 2, |nalu| - 1) <= 0 {
        assert payloads + [] == payloads;
        return;
      }
      var fus := Fragment(mtu, nalu);
      payloads := payloads + fus;
    }

    // The fragmentation loop.
    method Fragment(mtu: uint16, nalu: Data) returns (fus: seq<Data>)
      requires |nalu| > mtu > 2
      ensures fus == Fragments(Indicator(nalu), Type(nalu), nalu[1..], mtu - 2, true)
    {
      hide Fragments, Indicator, Type;
      HeaderOf(nalu);
      var naluType, naluRefIdc := nalu[0] % 0x20, nalu[0] / 0x20 % 4 * 0x20;
      var maxFragmentSize := mtu - 2;
      var naluDataIndex := 1;
      var naluDataLength := |nalu| - naluDataIndex;
      var naluDataRemaining := naluDataLength;
      fus := [];
      ghost var indicator := Indicator(nalu);
      ghost var left := Fragments(indicator, naluType, nalu[1..], maxFragmentSize, true);
      ghost var all := left;
      while naluDataRemaining > 0
        invariant 0 <= naluDataRemaining <= naluDataLength && naluDataIndex + naluDataRemaining == |nalu|
        invariant left == Fragments(indicator, naluType, nalu[naluDataIndex..], maxFragmentSize, naluDataRemaining == naluDataLength)
        invariant all == fus + left
      {
        var currentFragmentSize := Min(maxFragmentSize, naluDataRemaining);
        var fuHeader := naluType;
        if naluDataRemaining == naluDataLength {
          fuHeader := fuHeader + 0x80;
        } else if naluDataRemaining - currentFragmentSize == 0 {
          fuHeader := fuHeader + 0x40;
        }
        var chunk := nalu[naluDataIndex..naluDataIndex + currentFragmentSize];
        var out: Data := [FUA + naluRefIdc, fuHeader] + chunk;
        FragmentsStep(indicator, naluType, nalu[naluDataIndex..], chunk, nalu[naluDataIndex + currentFragmentSize..],
                      maxFragmentSize, naluDataRemaining == naluDataLength);
        MoveOne(fus, left, out);
        left := left[1..];
        fus := fus + [out];
        naluDataRemaining := naluDataRemaining - currentFragmentSize;
        naluDataIndex := naluDataIndex + currentFragmentSize;
        assert naluDataRemaining != naluDataLength;
      }
      assert nalu[naluDataIndex..] == [];
      NoFragments(indicator, naluType, maxFragmentSize, naluDataRemaining == naluDataLength);
    }
  }

  lemma HeaderOf(nalu: Data)
    requires nalu != []
    ensures Type(nalu) == nalu[0] % 0x20 && Indicator(nalu) == FUA + nalu[0] / 0x20 % 4 * 0x20
  {
  }

  lemma MoveOne(done: seq<Data>, left: seq<Data>, x: Data)
    requires left != [] && left[0] == x
    ensures done + left == (done + [x]) + left[1..]
  {
  }

  lemma FragmentsStep(indicator: byte, kind: byte, data: Data, chunk: Data, rest: Data, max: nat, first: bool)
    requires max > 0 && kind < 0x20 && data != [] && |chunk| == Min(max, |data|) && data == chunk + rest
    ensures var flag := if first then 0x80 else if rest == [] then 0x40 else 0;
            var fus := Fragments(indicator, kind, data, max, first);
            && fus != [] && fus[0] == [indicator, kind + flag] + chunk && fus[1..] == Fragments(indicator, kind, rest, max, false)
  {
    assert data[..|chunk|] == chunk && data[|chunk|..] == rest;
  }

  lemma NoFragments(indicator: byte, kind: byte, max: nat, first: bool)
    requires max > 0 && kind < 0x20
    ensures Fragments(indicator, kind, [], max, first) == []
  {
  }

  // ---- What arrives ----------------------------------------------------------------

  datatype Flow = Flow(delivered: seq<Data>, pending: seq<Data>)

  // A fragmented unit loses its forbidden bit.
  function NoForbiddenBit(unit: Data): Data
    requires unit != []
  {
    [unit[0] % 0x80] + unit[1..]
  }

  function Arrives(unit: Data, mtu: uint16): seq<Data>
    requires unit != []
  {
    if |unit| <= mtu then [unit] else if mtu <= 2 then [] else [NoForbiddenBit(unit)]
  }

  // Stated on units: delimiters and fillers are dropped, parameter sets wait
  // for the next other unit and are then delivered before it, or lost when
  // their group does not fit.
  function DeliverUnit(pending: seq<Data>, mtu: uint16, unit: Data): Flow {
    if unit == [] || Type(unit) == AUD || Type(unit) == FILLER then Flow([], pending)
    else if Type(unit) == SPS || Type(unit) == PPS then Flow([], pending + [unit])
    else Flow((if |StapA(pending)| <= mtu then pending else []) + Arrives(unit, mtu), [])
  }

  function Deliver(pending: seq<Data>, mtu: uint16, units: seq<Data>): Flow
    decreases |units|
  {
    if units == [] then Flow([], pending)
    else
      var before := Deliver(pending, mtu, units[..|units| - 1]);
      var last := DeliverUnit(before.pending, mtu, units[|units| - 1]);
      Flow(before.delivered + last.delivered, last.pending)
  }

  // stapANalu as bytes.
  function StapOf(pending: seq<Data>): Option<Data> {
    if pending == [] then None else Some(StapA(pending))
  }

  // Units of the types that H.264 defines.
  predicate Defined(units: seq<Data>) {
    forall i :: 0 <= i < |units| && units[i] != [] ==> 1 <= Type(units[i]) <= 23
  }

  lemma {:induction false} AggregatesSnoc(units: seq<Data>, unit: Data)
    ensures Aggregates(units + [unit]) == Aggregates(units) + Aggregated(unit)
    decreases |units|
  {
    hide Aggregated;
    if units == [] {
      assert units + [unit] == [unit] && [unit][1..] == [];
    } else {
      assert (units + [unit])[0] == units[0] && (units + [unit])[1..] == units[1..] + [unit];
      AggregatesSnoc(units[1..], unit);
    }
  }

  lemma {:induction false} StapUnitsOfAggregates(units: seq<Data>)
    requires |Aggregates(units)| < 0x1_0000
    ensures StapUnits(Aggregates(units)) == units
    decreases |units|
  {
    if units != [] {
      var unit, rest := units[0], Aggregates(units[1..]);
      assert |Aggregates(units)| == |Aggregated(unit)| + |rest|;
      StapUnitsStep(unit, rest);
      StapUnitsOfAggregates(units[1..]);
    }
  }

  lemma StapUnitsStep(unit: Data, rest: Data)
    requires |Aggregated(unit)| < 0x1_0000
    ensures StapUnits(Aggregated(unit) + rest) == [unit] + StapUnits(rest)
  {
    var b := Aggregated(unit) + rest;
    assert b == Put16(|unit|) + (unit + rest);
    Get16Put16(|unit|, unit + rest);
    assert b[2..2 + |unit|] == unit && b[2 + |unit|..] == rest;
  }

  // Fragments after the first complete what has been received so far.
  lemma {:induction false} LaterFragments(indicator: byte, kind: byte, data: Data, max: nat, sofar: Data)
    requires max > 0 && kind < 0x20 && indicator % 0x20 == FUA && data != []
    ensures ReceiveAll(Some(sofar), Fragments(indicator, kind, data, max, false)) == Received([sofar + data], None)
    decreases |data|
  {
    var n := Min(max, |data|);
    var fus := Fragments(indicator, kind, data, max, false);
    var fu, rest := fus[0], fus[1..];
    assert fu[2..] == data[..n];
    if n == |data| {
      assert data[..n] == data && data[n..] == [];
      assert rest == Fragments(indicator, kind, data[n..], max, false);
    } else {
      assert !EndBit(fu) && Receive(Some(sofar), fu) == Received([], Some(sofar + data[..n]));
      LaterFragments(indicator, kind, data[n..], max, sofar + data[..n]);
      assert sofar + data[..n] + data[n..] == sofar + data;
    }
  }

  // A unit over the limit arrives from its fragments.
  lemma FragmentsArrive(unit: Data, mtu: uint16)
    requires |unit| > mtu > 2
    ensures ReceiveAll(None, Packets(unit, mtu)) == Received([NoForbiddenBit(unit)], None)
  {
    hide Fragments, Receive, Indicator, Type;
    var indicator, kind, data, n := Indicator(unit), Type(unit), unit[1..], mtu - 2;
    HeaderOf(unit);
    LargePackets(unit, mtu);
    var fus := Fragments(indicator, kind, data, n, true);
    FragmentsStep(indicator, kind, data, data[..n], data[n..], n, true);
    var head: Data := [unit[0] % 0x80];
    FirstFragment(unit, data[..n]);
    LaterFragments(indicator, kind, data[n..], n, head + data[..n]);
    assert head + data[..n] + data[n..] == head + data;
  }

  lemma LargePackets(unit: Data, mtu: uint16)
    requires |unit| > mtu > 2
    ensures Packets(unit, mtu) == Fragments(Indicator(unit), Type(unit), unit[1..], mtu - 2, true)
  {
    hide Fragments;
  }

  lemma FirstFragment(unit: Data, chunk: Data)
    requires unit != []
    ensures Receive(None, [Indicator(unit), Type(unit) + 0x80] + chunk) == Received([], Some([unit[0] % 0x80] + chunk))
  {
    var fu: Data := [Indicator(unit), Type(unit) + 0x80] + chunk;
    assert fu[2..] == chunk;
    FirstHeader(unit[0]);
    hide StapUnits;
  }

  // The two header bytes of the first fragment hold the octet of the unit.
  lemma FirstHeader(b: byte)
    ensures var indicator, header := FUA + b / 0x20 % 4 * 0x20, b % 0x20 + 0x80;
            && indicator / 0x20 * 0x20 + header % 0x20 == b % 0x80
            && indicator % 0x20 == FUA && header >= 0x80 && header / 0x40 % 2 == 0
  {
    var r, k := b / 0x20 % 4, b % 0x20;
    assert b % 0x80 == r * 0x20 + k;
    assert (FUA + r * 0x20) / 0x20 == r;
  }

  lemma PacketsArrive(unit: Data, mtu: uint16)
    requires unit != [] && 1 <= Type(unit) <= 23
    ensures ReceiveAll(None, Packets(unit, mtu)) == Received(Arrives(unit, mtu), None)
  {
    if |unit| <= mtu {
      assert Packets(unit, mtu) == [unit] && [unit][1..] == [];
    } else if mtu > 2 {
      FragmentsArrive(unit, mtu);
    }
  }

  lemma StapArrives(pending: seq<Data>)
    requires |StapA(pending)| < 0x1_0000
    ensures ReceiveAll(None, [StapA(pending)]) == Received(pending, None)
  {
    hide Aggregates;
    var stap := StapA(pending);
    assert stap[1..] == Aggregates(pending) && Type(stap) == 24;
    StapUnitsOfAggregates(pending);
    assert [stap][1..] == [];
  }

  // One unit: what the receiver makes of the packets is what Deliver says.
  lemma UnitDelivered(pending: seq<Data>, mtu: uint16, unit: Data)
    requires unit != [] ==> 1 <= Type(unit) <= 23
    ensures var e, f := PayUnit(StapOf(pending), mtu, unit), DeliverUnit(pending, mtu, unit);
            e.stap == StapOf(f.pending) && ReceiveAll(None, e.payloads) == Received(f.delivered, None)
  {
    hide Receive, Packets, Arrives, Aggregates, Aggregated;
    if unit == [] || Type(unit) == AUD || Type(unit) == FILLER {
    } else if Type(unit) == SPS || Type(unit) == PPS {
      AggregatesSnoc(pending, unit);
      assert Aggregates([]) == [] by { NoAggregates(); }
      assert [STAPA_HEADER] + Aggregates(pending) + Aggregated(unit) == StapA(pending + [unit]);
      assert [STAPA_HEADER] + [] == [STAPA_HEADER];
    } else {
      PacketsArrive(unit, mtu);
      if pending != [] && |StapA(pending)| <= mtu {
        StapArrives(pending);
        ReceiveAppend(None, [StapA(pending)], Packets(unit, mtu));
      } else {
        assert [] + Packets(unit, mtu) == Packets(unit, mtu);
        assert [] + Arrives(unit, mtu) == Arrives(unit, mtu);
      }
    }
  }

  lemma NoAggregates()
    ensures Aggregates([]) == []
  {
  }

  // One call of Payload: whatever the mtu, the receiver gets the delivered
  // units in order and nothing else, and the rest is carried to the next call.
  lemma {:induction false} UnitsDelivered(pending: seq<Data>, mtu: uint16, units: seq<Data>)
    requires Defined(units)
    ensures var e, f := PayUnits(StapOf(pending), mtu, units), Deliver(pending, mtu, units);
            e.stap == StapOf(f.pending) && ReceiveAll(None, e.payloads) == Received(f.delivered, None)
    decreases |units|
  {
    hide PayUnit, DeliverUnit, StapOf;
    if units != [] {
      var front, last := units[..|units| - 1], units[|units| - 1];
      assert forall i :: 0 <= i < |front| ==> front[i] == units[i];
      UnitsDelivered(pending, mtu, front);
      var e, f := PayUnits(StapOf(pending), mtu, front), Deliver(pending, mtu, front);
      UnitDelivered(f.pending, mtu, last);
      ReceiveAppend(None, e.payloads, PayUnit(e.stap, mtu, last).payloads);
    }
  }

  // From JoinNALU to the receiver: the units joined into one AVCC payload.
  lemma JoinedDelivered(pending: seq<Data>, mtu: uint16, units: seq<Data>)
    requires Defined(NonEmpty(units)) && |Join(units)| < 0x1_0000_0000
    ensures var e, f := PayUnits(StapOf(pending), mtu, Avcc(Join(units))), Deliver(pending, mtu, NonEmpty(units));
            e.stap == StapOf(f.pending) && ReceiveAll(None, e.payloads) == Received(f.delivered, None)
  {
    hide Defined, PayUnits, Deliver, ReceiveAll;
    AvccOfJoin(units);
    UnitsDelivered(pending, mtu, NonEmpty(units));
  }

  // A run of calls, each with its own mtu.
  datatype Call = Call(mtu: uint16, units: seq<Data>)

  function PayRun(stap: Option<Data>, calls: seq<Call>): Emitted
    decreases |calls|
  {
    if calls == [] then Emitted([], stap)
    else
      var first := PayUnits(stap, calls[0].mtu, calls[0].units);
      var rest := PayRun(first.stap, calls[1..]);
      Emitted(first.payloads + rest.payloads, rest.stap)
  }

  function DeliverRun(pending: seq<Data>, calls: seq<Call>): Flow
    decreases |calls|
  {
    if calls == [] then Flow([], pending)
    else
      var first := Deliver(pending, calls[0].mtu, calls[0].units);
      var rest := DeliverRun(first.pending, calls[1..]);
      Flow(first.delivered + rest.delivered, rest.pending)
  }

  lemma {:induction false} RunDelivered(pending: seq<Data>, calls: seq<Call>)
    requires forall i :: 0 <= i < |calls| ==> Defined(calls[i].units)
    ensures var e, f := PayRun(StapOf(pending), calls), DeliverRun(pending, calls);
            e.stap == StapOf(f.pending) && ReceiveAll(None, e.payloads) == Received(f.delivered, None)
    decreases |calls|
  {
    hide PayUnits, Deliver, StapOf, Defined;
    if calls != [] {
      UnitsDelivered(pending, calls[0].mtu, calls[0].units);
      var first := Deliver(pending, calls[0].mtu, calls[0].units);
      RunDelivered(first.pending, calls[1..]);
      ReceiveAppend(None, PayUnits(StapOf(pending), calls[0].mtu, calls[0].units).payloads,
                    PayRun(StapOf(first.pending), calls[1..]).payloads);
    }
  }

  // ---- Nothing is lost when everything fits -------------------------------------------

  // The units that Payload means to send: all but access unit delimiters and
  // filler data, types 9 and 12 of ITU-T H.264.
  function Kept(units: seq<Data>): seq<Data>
    decreases |units|
  {
    if units == [] then []
    else Kept(units[..|units| - 1]) + Sent(units[|units| - 1])
  }

  function Sent(unit: Data): seq<Data> {
    if unit == [] || unit[0] as int % 32 in {9, 12} then [] else [unit]
  }

  // A sequence or picture parameter set.
  predicate IsParameterSet(unit: Data) {
    unit != [] && unit[0] as int % 32 in {7, 8}
  }

  // The parameter sets at the end.
  function LastSets(units: seq<Data>): seq<Data>
    decreases |units|
  {
    if units == [] || !IsParameterSet(units[|units| - 1]) then []
    else LastSets(units[..|units| - 1]) + [units[|units| - 1]]
  }

  // What is pending are the parameter sets that came last, apart from units that
  // are not sent.
  lemma {:induction false} PendingAreSets(mtu: uint16, units: seq<Data>)
    ensures Deliver([], mtu, units).pending == LastSets(Kept(units))
    decreases |units|
  {
    hide StapA, Arrives;
    if units != [] {
      var before, last := units[..|units| - 1], units[|units| - 1];
      PendingAreSets(mtu, before);
      if Sent(last) == [] {
        assert Kept(before) + [] == Kept(before);
      } else {
        assert (Kept(before) + [last])[..|Kept(before)|] == Kept(before);
      }
    }
  }

  // Every group of parameter sets fits when the unit after it is sent.
  predicate GroupsFit(pending: seq<Data>, mtu: uint16, units: seq<Data>)
    decreases |units|
  {
    units == [] ||
    var before, last := units[..|units| - 1], units[|units| - 1];
    GroupsFit(pending, mtu, before) && |StapA(Deliver(pending, mtu, before).pending)| <= mtu
  }

  // Then what was delivered and what is still pending are together exactly
  // what was pending and came in, in order.
  lemma {:induction false} NothingLost(pending: seq<Data>, mtu: uint16, units: seq<Data>)
    requires mtu > 2 && GroupsFit(pending, mtu, units)
    requires forall i :: 0 <= i < |units| && units[i] != [] ==> units[i][0] < 0x80
    ensures var f := Deliver(pending, mtu, units); f.delivered + f.pending == pending + Kept(units)
    decreases |units|
  {
    hide StapA, DeliverUnit, Sent;
    if units == [] {
      assert pending + [] == pending == [] + pending;
    } else {
      var before, last := units[..|units| - 1], units[|units| - 1];
      assert forall i :: 0 <= i < |before| ==> before[i] == units[i];
      NothingLost(pending, mtu, before);
      var f := Deliver(pending, mtu, before);
      UnitKept(f.pending, mtu, last);
      var g := DeliverUnit(f.pending, mtu, last);
      Glue(f.delivered, f.pending, pending, Kept(before), g.delivered, g.pending, Sent(last));
    }
  }

  lemma Glue(d: seq<Data>, p: seq<Data>, a: seq<Data>, k: seq<Data>, x: seq<Data>, y: seq<Data>, s: seq<Data>)
    requires d + p == a + k && x + y == p + s
    ensures d + x + y == a + (k + s)
  {
    assert d + x + y == d + (x + y) == d + p + s;
  }

  lemma UnitKept(pending: seq<Data>, mtu: uint16, unit: Data)
    requires mtu > 2 && |StapA(pending)| <= mtu && (unit != [] ==> unit[0] < 0x80)
    ensures var f := DeliverUnit(pending, mtu, unit); f.delivered + f.pending == pending + Sent(unit)
  {
    hide StapA;
    if unit != [] {
      assert Arrives(unit, mtu) == [unit] by { assert [unit[0]] + unit[1..] == unit; }
    }
  }

  // ---- Shape of the packets ------------------------------------------------------------

  predicate Fragment(fu: Data, indicator: byte, max: nat, start: bool, end: bool) {
    2 <= |fu| <= max + 2 && fu[0] == indicator && StartBit(fu) == start && EndBit(fu) == end
  }

  // The first of them starts the unit, if any does; the last ends it, unless
  // it is also the first.
  predicate Shaped(fus: seq<Data>, indicator: byte, max: nat, first: bool) {
    forall i :: 0 <= i < |fus| ==>
      Fragment(fus[i], indicator, max, first && i == 0, i == |fus| - 1 && !(first && i == 0))
  }

  lemma {:induction false} FragmentsShape(indicator: byte, kind: byte, data: Data, max: nat, first: bool)
    requires max > 0 && kind < 0x20
    ensures Shaped(Fragments(indicator, kind, data, max, first), indicator, max, first)
    decreases |data|
  {
    if data != [] {
      var n := Min(max, |data|);
      var fus, rest := Fragments(indicator, kind, data, max, first), Fragments(indicator, kind, data[n..], max, false);
      FragmentsShape(indicator, kind, data[n..], max, false);
      assert fus == [fus[0]] + rest;
      assert rest == [] <==> data[n..] == [];
      assert Fragment(fus[0], indicator, max, first, !first && |fus| == 1);
      hide Fragment, Fragments;
      forall i | 0 <= i < |fus|
        ensures Fragment(fus[i], indicator, max, first && i == 0, i == |fus| - 1 && !(first && i == 0))
      {
        assert i > 0 ==> fus[i] == rest[i - 1];
      }
    }
  }

  // A unit over the limit goes out in two fragments or more; the first alone
  // has the start bit and the last alone the end bit.
  lemma FragmentShape(unit: Data, mtu: uint16)
    requires |unit| > mtu > 2
    ensures var fus := Packets(unit, mtu);
            && |fus| >= 2
            && forall i :: 0 <= i < |fus| ==> Fragment(fus[i], Indicator(unit), mtu - 2, i == 0, i == |fus| - 1)
  {
    var fus := Packets(unit, mtu);
    FragmentsShape(Indicator(unit), Type(unit), unit[1..], mtu - 2, true);
    assert Fragments(Indicator(unit), Type(unit), unit[1..][mtu - 2..], mtu - 2, false) != [];
    assert |fus| >= 2 && Shaped(fus, Indicator(unit), mtu - 2, true);
    hide Fragment, Fragments;
    assert forall i :: 0 <= i < |fus| ==> Fragment(fus[i], Indicator(unit), mtu - 2, i == 0, i == |fus| - 1);
  }

  // No payload is longer than the mtu, whatever was pending.
  lemma {:induction false} PayloadsFit(stap: Option<Data>, mtu: uint16, units: seq<Data>)
    ensures forall p :: p in PayUnits(stap, mtu, units).payloads ==> |p| <= mtu
    decreases |units|
  {
    hide StartBit, EndBit, Fragments, Indicator;
    if units != [] {
      var last := units[|units| - 1];
      PayloadsFit(stap, mtu, units[..|units| - 1]);
      if last != [] && |last| > mtu > 2 {
        FragmentShape(last, mtu);
      }
    }
  }
}
