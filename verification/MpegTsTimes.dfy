// pkg/mpegts/demuxer.go: demuxing PES packets that the muxer does not write, with
// decode times, other header fields and any mixture of streams.

module MpegTsTimes {
  import opened Bytes
  import opened Bits
  import opened MpegTs
  import opened MpegTsFormat
  import opened MpegTsRoundTrip

  // ---- The packets, after section 2.4.3.6 of ISO/IEC 13818-1 -----------------------------

  // Times have 33 bits.
  datatype Stamp = NoTime | Pts(pts: nat) | Both(pts: nat, dts: nat)

  // A PES packet on a stream: counter is the continuity counter of its first
  // transport packet, marks and flags are the header's bits that do not announce
  // times, more are the bytes of the header behind the times, and sized says
  // whether the packet length is given.
  datatype Unit = Unit(pid: uint16, counter: uint16, streamID: byte, marks: byte, flags: nat, stamp: Stamp, more: Data, sized: bool, body: Data)

  // A time: three, fifteen and fifteen bits, with a marker after each.
  function TimeField(prefix: nat, t: nat): (b: Data)
    requires prefix < 0x10 && t < 0x2_0000_0000
    ensures |b| == 5
  {
    [prefix * 0x10 + t / 0x4000_0000 * 2 + 1, t / 0x40_0000 % 0x100, t / 0x8000 % 0x80 * 2 + 1, t / 0x80 % 0x100, t % 0x80 * 2 + 1]
  }

  function TimeFields(stamp: Stamp): (b: Data)
    requires Fits33(stamp)
  {
    match stamp
    case NoTime => []
    case Pts(pts) => TimeField(2, pts)
    case Both(pts, dts) => TimeField(3, pts) + TimeField(1, dts)
  }

  predicate Fits33(stamp: Stamp) {
    && (stamp.Pts? ==> stamp.pts < 0x2_0000_0000)
    && (stamp.Both? ==> stamp.pts < 0x2_0000_0000 && stamp.dts < 0x2_0000_0000)
  }

  // The two bits that announce the times.
  function TimeFlags(stamp: Stamp): nat {
    if stamp.NoTime? then 0 else if stamp.Pts? then 2 else 3
  }

  function HeaderLength(u: Unit): nat {
    |u.more| + if u.stamp.NoTime? then 0 else if u.stamp.Pts? then 5 else 10
  }

  // The header fits the first transport packet, and the length its field.
  predicate IsUnit(u: Unit) {
    && Fits33(u.stamp) && u.flags < 0x40 && 9 + HeaderLength(u) <= PacketSize - 4
    && (u.sized ==> 3 + HeaderLength(u) + |u.body| <= 0xFFFF)
  }

  function HeaderOf(u: Unit): (b: Data)
    requires IsUnit(u)
    ensures |b| == 9 + HeaderLength(u)
  {
    [0, 0, 1, u.streamID] + Put16(if u.sized then 3 + HeaderLength(u) + |u.body| else 0)
    + [u.marks, TimeFlags(u.stamp) * 0x40 + u.flags, HeaderLength(u)] + TimeFields(u.stamp) + u.more
  }

  // A stream of transport packets.
  function Printed(units: seq<Unit>): Data
    requires AllUnits(units)
  {
    if units == [] then []
    else
      var rest, u := units[..|units| - 1], units[|units| - 1];
      Printed(rest) + TsPackets(u.pid, true, u.counter, HeaderOf(u) + u.body)
  }

  predicate AllUnits(units: seq<Unit>) {
    forall k :: 0 <= k < |units| ==> IsUnit(units[k]) && units[k].pid < 0x2000
  }

  // ---- The demuxer reads a header ------------------------------------------------------------

  // Its times: 32 bits of each, zero when there is none.
  function PtsOf(stamp: Stamp): uint32 {
    if stamp.NoTime? then 0 else stamp.pts % 0x1_0000_0000
  }

  function DtsOf(stamp: Stamp): uint32 {
    if stamp.Both? then stamp.dts % 0x1_0000_0000 else 0
  }

  lemma FieldReads(buf: Data, pos: nat, prefix: nat, t: nat)
    requires prefix < 0x10 && t < 0x2_0000_0000 && pos + 5 <= |buf| && buf[pos..pos + 5] == TimeField(prefix, t)
    ensures MpegTs.ReadTime(buf, pos) == t % 0x1_0000_0000
  {
    hide Num, Pow2, Put16, TimeField;
    var b := TimeField(prefix, t);
    var x, y := (b[1] as int) * 0x100 + b[2], (b[3] as int) * 0x100 + b[4];
    FiveBytes(buf, pos, b);
    PowersForTime();
    InByte(buf, pos, 4, 3, 2, 8);
    InTwoBytes(buf, pos + 1, 0, 15, x, 2, 0x8000);
    InTwoBytes(buf, pos + 3, 0, 15, y, 2, 0x8000);
    FieldParts(prefix, t);
  }

  lemma FieldParts(prefix: nat, t: nat)
    requires prefix < 0x10 && t < 0x2_0000_0000
    ensures var b := TimeField(prefix, t);
            && (b[0] as int / 2 % 8) * 0x4000_0000 % 0x1_0000_0000 == t % 0x1_0000_0000 / 0x4000_0000 * 0x4000_0000
            && ((b[1] as int) * 0x100 + b[2]) / 2 % 0x8000 == t / 0x8000 % 0x8000
            && ((b[3] as int) * 0x100 + b[4]) / 2 % 0x8000 == t % 0x8000
    ensures t % 0x1_0000_0000 / 0x4000_0000 * 0x4000_0000 + t / 0x8000 % 0x8000 * 0x8000 + t % 0x8000 == t % 0x1_0000_0000
  {
    var h, m, l := t / 0x4000_0000, t / 0x8000 % 0x8000, t % 0x8000;
    HighPart(prefix, h);
    Fifteen(t / 0x8000);
    Fifteen(t);
    Digits(t);
    assert t / 0x40_0000 == t / 0x8000 / 0x80;
  }

  lemma HighPart(prefix: nat, h: nat)
    requires h < 8
    ensures (prefix * 0x10 + h * 2 + 1) / 2 % 8 == h && h * 0x4000_0000 % 0x1_0000_0000 == h % 4 * 0x4000_0000
  {
  }

  // Fifteen bits in two bytes, before a marker.
  lemma Fifteen(x: nat)
    ensures (x / 0x80 % 0x100 * 0x100 + (x % 0x80 * 2 + 1)) / 2 % 0x8000 == x % 0x8000
  {
    FifteenParts(x);
    BeforeMarker(x / 0x80 % 0x100, x % 0x80);
  }

  lemma FifteenParts(x: nat)
    ensures x % 0x8000 == x / 0x80 % 0x100 * 0x80 + x % 0x80
  {
  }

  lemma BeforeMarker(a: nat, b: nat)
    requires a < 0x100 && b < 0x80
    ensures (a * 0x100 + (b * 2 + 1)) / 2 % 0x8000 == a * 0x80 + b
  {
  }

  lemma Digits(t: nat)
    requires t < 0x2_0000_0000
    ensures t % 0x1_0000_0000 / 0x4000_0000 == t / 0x4000_0000 % 4
    ensures t % 0x1_0000_0000 == t / 0x4000_0000 % 4 * 0x4000_0000 + t / 0x8000 % 0x8000 * 0x8000 + t % 0x8000
  {
    assert t / 0x8000 / 0x8000 == t / 0x4000_0000;
    assert t == t / 0x4000_0000 * 0x4000_0000 + t / 0x8000 % 0x8000 * 0x8000 + t % 0x8000;
  }

  // The stream after the header, once it has the whole payload.
  function Begun(p: Pes, u: Unit): Pes {
    p.(streamID := u.streamID, pts := PtsOf(u.stamp), dts := DtsOf(u.stamp), payload := u.body, size := if u.sized then |u.body| else 0)
  }

  lemma UnitStarts(p: Pes, u: Unit, conv: Conv)
    requires IsUnit(u)
    ensures Starts(p, HeaderOf(u), Begun(p, u), conv)
  {
    hide StartPes, HeaderOf, Finish;
    var header := HeaderOf(u);
    forall buf: Data, pos: nat | |buf| == PacketSize && pos < PacketSize && pos + |header| <= PacketSize && buf[pos..pos + |header|] == header
      ensures StartPes(p, buf, pos, conv) == Finish(Begun(p, u).(payload := buf[pos + |header|..]), conv)
    {
      UnitReads(p, u, buf, pos);
      HeaderBytesOf(u, buf, pos);
      BeginsWithPrefix(p, buf, pos, conv);
    }
  }

  lemma BeginsWithPrefix(p: Pes, buf: Data, pos: nat, conv: Conv)
    requires |buf| == PacketSize && pos + 9 <= PacketSize && buf[pos] == 0 && buf[pos + 1] == 0 && buf[pos + 2] == 1
    ensures StartPes(p, buf, pos, conv) == if ReadStart(p, buf, pos) == None then Fault else Finish(ReadStart(p, buf, pos).value, conv)
  {
    hide ReadStart, Finish;
  }

  lemma HeaderBytesOf(u: Unit, buf: Data, pos: nat)
    requires IsUnit(u) && pos + |HeaderOf(u)| <= |buf| && buf[pos..pos + |HeaderOf(u)|] == HeaderOf(u)
    ensures buf[pos] == 0 && buf[pos + 1] == 0 && buf[pos + 2] == 1 && buf[pos + 3] == u.streamID
    ensures buf[pos + 4..pos + 6] == Put16(if u.sized then 3 + HeaderLength(u) + |u.body| else 0)
    ensures buf[pos + 7] == TimeFlags(u.stamp) * 0x40 + u.flags && buf[pos + 8] == HeaderLength(u)
    ensures var n := |TimeFields(u.stamp)|; buf[pos + 9..pos + 9 + n] == TimeFields(u.stamp) && 9 + n + |u.more| == |HeaderOf(u)|
  {
    hide Put16, TimeFields;
    var h, t := HeaderOf(u), TimeFields(u.stamp);
    TimeFieldsSize(u.stamp);
    assert h[9..9 + |t|] == t && h[4..6] == Put16(if u.sized then 3 + HeaderLength(u) + |u.body| else 0);
    SubSlice(buf, pos, pos + |h|, 9, 9 + |t|);
    SubSlice(buf, pos, pos + |h|, 4, 6);
    assert h[0] == buf[pos] && h[1] == buf[pos + 1] && h[2] == buf[pos + 2] && h[3] == buf[pos + 3] && h[7] == buf[pos + 7] && h[8] == buf[pos + 8];
  }

  lemma TimeFieldsSize(stamp: Stamp)
    requires Fits33(stamp)
    ensures |TimeFields(stamp)| == if stamp.NoTime? then 0 else if stamp.Pts? then 5 else 10
  {
  }

  lemma UnitReads(p: Pes, u: Unit, buf: Data, pos: nat)
    requires IsUnit(u) && |buf| == PacketSize && pos + |HeaderOf(u)| <= PacketSize && buf[pos..pos + |HeaderOf(u)|] == HeaderOf(u)
    ensures ReadStart(p, buf, pos) == Some(Begun(p, u).(payload := buf[pos + |HeaderOf(u)|..]))
  {
    hide Num, Pow2, Put16, TimeFields, MpegTs.ReadTime, HeaderOf, Skip, ReadStart, TimeFlags;
    HeaderBytesOf(u, buf, pos);
    SmallPowers();
    TimeFieldsSize(u.stamp);
    var size := if u.sized then 3 + HeaderLength(u) + |u.body| else 0;
    InTwoBytes(buf, pos + 4, 0, 16, size, 1, 0x1_0000);
    InByte(buf, pos + 7, 0, 1, 0x80, 2);
    InByte(buf, pos + 7, 1, 1, 0x40, 2);
    FlagsAre(u.stamp, u.flags);
    FieldsRead(u.stamp, buf, pos + 9);
    StartIs(p, u, buf, pos);
  }

  // The header, field by field.
  lemma StartIs(p: Pes, u: Unit, buf: Data, pos: nat)
    requires IsUnit(u) && |buf| == PacketSize && pos + 9 + HeaderLength(u) <= PacketSize
    requires Num(buf, 8 * (pos + 4), 16) == (if u.sized then 3 + HeaderLength(u) + |u.body| else 0)
    requires buf[pos + 3] == u.streamID && buf[pos + 8] == HeaderLength(u)
    requires (Num(buf, 8 * (pos + 7), 1) != 0 <==> !u.stamp.NoTime?) && (Num(buf, 8 * (pos + 7) + 1, 1) != 0 <==> u.stamp.Both?)
    requires !u.stamp.NoTime? ==> MpegTs.ReadTime(buf, pos + 9) == PtsOf(u.stamp)
    requires u.stamp.Both? ==> MpegTs.ReadTime(buf, pos + 14) == DtsOf(u.stamp)
    ensures ReadStart(p, buf, pos) == Some(Begun(p, u).(payload := buf[pos + 9 + HeaderLength(u)..]))
  {
    hide Num, MpegTs.ReadTime, Skip;
    SkipsTo(pos + 9 + HeaderLength(u) - |u.more|, |u.more|);
    if u.sized {
      RoomIs(HeaderLength(u), |u.body|);
    }
  }

  lemma FlagsAre(stamp: Stamp, flags: nat)
    requires flags < 0x40
    ensures var b := TimeFlags(stamp) * 0x40 + flags; (b / 0x80 % 2 != 0 <==> !stamp.NoTime?) && (b / 0x40 % 2 != 0 <==> stamp.Both?)
  {
  }

  lemma FieldsRead(stamp: Stamp, buf: Data, pos: nat)
    requires Fits33(stamp) && pos + |TimeFields(stamp)| <= |buf| && buf[pos..pos + |TimeFields(stamp)|] == TimeFields(stamp)
    ensures !stamp.NoTime? ==> MpegTs.ReadTime(buf, pos) == PtsOf(stamp)
    ensures stamp.Both? ==> MpegTs.ReadTime(buf, pos + 5) == DtsOf(stamp)
  {
    hide MpegTs.ReadTime, TimeField;
    match stamp
    case NoTime =>
    case Pts(pts) => FieldReads(buf, pos, 2, pts);
    case Both(pts, dts) =>
      var a, b := TimeField(3, pts), TimeField(1, dts);
      assert (a + b)[0..5] == a && (a + b)[5..10] == b;
      SubSlice(buf, pos, pos + 10, 0, 5);
      SubSlice(buf, pos, pos + 10, 5, 10);
      FieldReads(buf, pos, 3, pts);
      FieldReads(buf, pos + 5, 1, dts);
  }

  lemma SkipsTo(b: nat, n: nat)
    requires b + n <= PacketSize
    ensures Skip(b, n % 0x100) == b + n
  {
  }

  lemma RoomIs(length: nat, body: nat)
    requires length <= PacketSize && 3 + length + body <= 0xFFFF
    ensures (3 + length + body - (3 + length) % 0x100) % 0x1_0000 == body
  {
  }

  // ---- What the units mean ---------------------------------------------------------------------

  // Types of streams: H.264, H.265, AAC and PCM in two variants.
  predicate Known(types: seq<byte>) {
    1 <= |types| <= 33 && forall k :: 0 <= k < |types| ==> types[k] in [0x1B, 0x24, 0x0F, 0x90, 0x91]
  }

  // The streams of a program with these types have consecutive identifiers.
  predicate OnStreams(types: seq<byte>, units: seq<Unit>) {
    |types| <= 33 && forall k :: 0 <= k < |units| ==> IsUnit(units[k]) && 0x100 <= units[k].pid < 0x100 + |types|
  }

  // Units of a stream that are not empty.
  function Given(units: seq<Unit>, pid: uint16): nat {
    if units == [] then 0
    else
      var u := units[|units| - 1];
      Given(units[..|units| - 1], pid) + if u.pid == pid && u.body != [] then 1 else 0
  }

  // The packet for a unit. Video is timed by the decode time, unless that is zero
  // modulo 2^32, with the difference of the times beside it; audio by the
  // presentation time, with a number of its own.
  function Shown(streamType: byte, number: nat, u: Unit, conv: Conv): Packet {
    if streamType == 0x1B || streamType == 0x24 then
      if u.stamp.Both? && u.stamp.dts % 0x1_0000_0000 != 0 then
        Media(streamType, 0, u.stamp.dts % 0x1_0000_0000, (u.stamp.pts - u.stamp.dts) % 0x1_0000, conv.avcc(u.body))
      else Media(streamType, 0, PtsOf(u.stamp), 0, conv.avcc(u.body))
    else Media(streamType, number % 0x1_0000, PtsOf(u.stamp), 0, if streamType == 0x0F then conv.rtp(u.body) else u.body)
  }

  function PacketOf(types: seq<byte>, units: seq<Unit>, k: nat, conv: Conv): Packet
    requires OnStreams(types, units) && k < |units|
  {
    Shown(types[units[k].pid - 0x100], Given(units[..k + 1], units[k].pid), units[k], conv)
  }

  predicate Within(ks: seq<nat>, n: nat) {
    forall j :: 0 <= j < |ks| ==> ks[j] < n
  }

  function PacketsOf(types: seq<byte>, units: seq<Unit>, ks: seq<nat>, conv: Conv): (packets: seq<Packet>)
    requires OnStreams(types, units) && Within(ks, |units|)
    ensures |packets| == |ks|
  {
    seq(|ks|, j requires 0 <= j < |ks| => PacketOf(types, units, ks[j], conv))
  }

  // The unit that its stream still has: the last, when it has no length.
  function Pending(units: seq<Unit>, pid: uint16): (ks: seq<nat>)
    ensures Within(ks, |units|)
  {
    if units == [] then []
    else
      var n := |units| - 1;
      if units[n].pid != pid then Pending(units[..n], pid)
      else if units[n].sized || units[n].body == [] then [] else [n]
  }

  function Own(units: seq<Unit>): (ks: seq<nat>)
    requires units != []
    ensures Within(ks, |units|)
  {
    var n := |units| - 1;
    if units[n].sized && units[n].body != [] then [n] else []
  }

  // The order in which units come out: one without a length when the next of its
  // stream starts.
  function Out(units: seq<Unit>): (ks: seq<nat>)
    ensures Within(ks, |units|)
  {
    if units == [] then []
    else
      var rest := units[..|units| - 1];
      Out(rest) + Pending(rest, units[|units| - 1].pid) + Own(units)
  }

  // Every unit with a payload comes out, unless its stream still has it; none
  // comes out twice, and those of a stream come out in order.
  lemma {:induction false} OutExact(units: seq<Unit>)
    ensures forall k :: 0 <= k < |units| ==> (k in Out(units) <==> units[k].body != [] && k !in Pending(units, units[k].pid))
    ensures InOrder(units, Out(units)) && forall j :: 0 <= j < |Out(units)| ==> Earlier(units, Out(units)[j])
  {
    hide InOrder, Earlier;
    if units == [] {
      NothingInOrder(units);
    } else {
      OutExact(units[..|units| - 1]);
      OutStep(units);
      OrderStep(units);
    }
  }

  // Among the indices none occurs twice, and those of a stream ascend.
  predicate InOrder(units: seq<Unit>, ks: seq<nat>) {
    Within(ks, |units|) && forall i, j :: 0 <= i < j < |ks| ==> ks[i] != ks[j] && (units[ks[i]].pid == units[ks[j]].pid ==> ks[i] < ks[j])
  }

  // Index k is before what its stream still has.
  predicate Earlier(units: seq<Unit>, k: nat) {
    k < |units| && forall i :: i in Pending(units, units[k].pid) ==> k < i
  }

  lemma NothingInOrder(units: seq<Unit>)
    ensures InOrder(units, [])
  {
  }

  lemma OutIs(units: seq<Unit>)
    requires units != []
    ensures var n := |units| - 1; Out(units) == Out(units[..n]) + Pending(units[..n], units[n].pid) + Own(units)
  {
    hide Pending, Own;
  }

  lemma OwnHas(units: seq<Unit>, k: nat)
    requires units != []
    ensures k in Own(units) <==> k == |units| - 1 && units[k].sized && units[k].body != []
  {
  }

  lemma PendingNext(units: seq<Unit>, pid: uint16)
    requires units != []
    ensures var n := |units| - 1;
            Pending(units, pid) ==
            if units[n].pid != pid then Pending(units[..n], pid) else if units[n].sized || units[n].body == [] then [] else [n]
  {
  }

  lemma OutStep(units: seq<Unit>)
    requires units != []
    requires var rest := units[..|units| - 1];
             forall k :: 0 <= k < |rest| ==> (k in Out(rest) <==> rest[k].body != [] && k !in Pending(rest, rest[k].pid))
    ensures forall k :: 0 <= k < |units| ==> (k in Out(units) <==> units[k].body != [] && k !in Pending(units, units[k].pid))
  {
    hide Out, Pending, Own, Given;
    var n := |units| - 1;
    var rest, u := units[..n], units[n];
    var a, b := Out(rest), Pending(rest, u.pid);
    PendingIsLast(rest, u.pid);
    OutIs(units);
    forall k | 0 <= k <= n ensures k in Out(units) <==> units[k].body != [] && k !in Pending(units, units[k].pid) {
      PendingNext(units, units[k].pid);
      OutHas(a, b, Own(units), k, n);
      OwnHas(units, k);
      if k < n {
        assert rest[k] == units[k];
        PendingIsLast(rest, units[k].pid);
      }
    }
  }

  lemma OutHas(a: seq<nat>, b: seq<nat>, c: seq<nat>, k: nat, n: nat)
    requires Within(a, n) && Within(b, n)
    ensures k in a + b + c <==> k in a || k in b || k in c
    ensures n !in a && n !in b
  {
  }

  lemma OrderStep(units: seq<Unit>)
    requires units != []
    requires var rest := units[..|units| - 1];
             InOrder(rest, Out(rest)) && forall j :: 0 <= j < |Out(rest)| ==> Earlier(rest, Out(rest)[j])
    ensures InOrder(units, Out(units)) && forall j :: 0 <= j < |Out(units)| ==> Earlier(units, Out(units)[j])
  {
    hide Out, Pending, Own, Given, InOrder, Earlier;
    var n := |units| - 1;
    var rest, u := units[..n], units[n];
    var a, b := Out(rest), Pending(rest, u.pid);
    OutIs(units);
    PendingIsLast(rest, u.pid);
    PendingNext(units, u.pid);
    MoreInOrder(units, a);
    forall j | 0 <= j < |a| ensures Earlier(units, a[j]) && (units[a[j]].pid == u.pid ==> forall i :: i in b ==> a[j] < i) {
      StillEarlier(units, a[j]);
    }
    forall j | 0 <= j < |b| ensures Earlier(units, b[j]) {
      LateIsEarlier(units, b[j]);
    }
    if b != [] {
      var k := b[0];
      assert rest[k] == units[k] && k in b;
      forall j | 0 <= j < |a| ensures a[j] != k && (units[a[j]].pid == units[k].pid ==> a[j] < k) {
      }
    }
    OneInOrder(units, a, b);
    forall j | 0 <= j < |a + b| ensures Earlier(units, (a + b)[j]) && (a + b)[j] < n {
    }
    var c := Own(units);
    if c != [] {
      assert c == [n] by { OwnIs(units); }
      OwnIsEarlier(units);
      OneInOrder(units, a + b, c);
    } else {
      assert a + b + c == a + b;
    }
  }

  lemma OwnIs(units: seq<Unit>)
    requires units != []
    ensures Own(units) == [] || Own(units) == [|units| - 1]
  {
  }

  lemma MoreInOrder(units: seq<Unit>, ks: seq<nat>)
    requires units != [] && InOrder(units[..|units| - 1], ks)
    ensures InOrder(units, ks)
  {
    var rest := units[..|units| - 1];
    assert forall k :: 0 <= k < |rest| ==> rest[k] == units[k];
  }

  lemma StillEarlier(units: seq<Unit>, k: nat)
    requires units != [] && Earlier(units[..|units| - 1], k)
    ensures Earlier(units, k)
    ensures var n := |units| - 1; units[k].pid == units[n].pid ==> forall i :: i in Pending(units[..n], units[n].pid) ==> k < i
  {
    hide Pending;
    assert units[..|units| - 1][k] == units[k];
    PendingNext(units, units[k].pid);
  }

  lemma LateIsEarlier(units: seq<Unit>, k: nat)
    requires units != [] && k in Pending(units[..|units| - 1], units[|units| - 1].pid)
    ensures Earlier(units, k)
  {
    hide Pending, Given;
    var rest, u := units[..|units| - 1], units[|units| - 1];
    PendingIsLast(rest, u.pid);
    PendingNext(units, u.pid);
    assert rest[k] == units[k];
  }

  lemma OwnIsEarlier(units: seq<Unit>)
    requires units != [] && Own(units) != []
    ensures Earlier(units, |units| - 1)
  {
    PendingNext(units, units[|units| - 1].pid);
  }

  // One more index, or none, after all those of its stream.
  lemma OneInOrder(units: seq<Unit>, a: seq<nat>, b: seq<nat>)
    requires InOrder(units, a) && |b| <= 1 && Within(b, |units|)
    requires forall j :: 0 <= j < |a| && b != [] ==> a[j] != b[0] && (units[a[j]].pid == units[b[0]].pid ==> a[j] < b[0])
    ensures InOrder(units, a + b)
  {
    var all := a + b;
    forall i, j | 0 <= i < j < |all|
      ensures all[i] != all[j] && (units[all[i]].pid == units[all[j]].pid ==> all[i] < all[j])
    {
      assert all[i] == a[i] && (j < |a| ==> all[j] == a[j]);
    }
  }

  lemma {:induction false} PendingIsLast(units: seq<Unit>, pid: uint16)
    ensures |Pending(units, pid)| <= 1
    ensures Pending(units, pid) != [] ==>
              var k := Pending(units, pid)[0];
              k < |units| && units[k].pid == pid && units[k].body != [] && !units[k].sized && Given(units[..k + 1], pid) == Given(units, pid)
  {
    if units != [] {
      var n := |units| - 1;
      PendingIsLast(units[..n], pid);
      if units[n].pid != pid {
        if Pending(units[..n], pid) != [] {
          var k := Pending(units[..n], pid)[0];
          assert units[..n][..k + 1] == units[..k + 1];
        }
      } else {
        assert units[..n + 1] == units;
      }
    }
  }

  // ---- Runs --------------------------------------------------------------------------------------

  predicate IsVideoType(streamType: byte) {
    streamType == 0x1B || streamType == 0x24
  }

  // The demuxer between two units.
  ghost predicate StreamHas(p: Pes, streamType: byte, units: seq<Unit>, pid: uint16) {
    var ks := Pending(units, pid);
    && p.streamType == streamType
    && (if ks == [] then p.payload == []
        else p.payload == units[ks[0]].body && p.pts == PtsOf(units[ks[0]].stamp) && p.dts == DtsOf(units[ks[0]].stamp))
    && (!IsVideoType(streamType) ==> (if p.payload == [] then p.sequence else Next16(p.sequence)) == Given(units, pid) % 0x1_0000)
  }

  ghost predicate Between(d: Demux, types: seq<byte>, units: seq<Unit>) {
    && d.held == None && d.pes.Some?
    && forall pid: uint16 :: 0x100 <= pid < 0x100 + |types| ==> pid in d.pes.value && StreamHas(d.pes.value[pid], types[pid - 0x100], units, pid)
  }

  // What a stream hands out.
  lemma EmitsShown(p: Pes, u: Unit, number: nat, conv: Conv)
    requires p.streamType in [0x1B, 0x24, 0x0F, 0x90, 0x91] && p.payload == u.body && p.pts == PtsOf(u.stamp) && p.dts == DtsOf(u.stamp)
    requires !IsVideoType(p.streamType) ==> Next16(p.sequence) == number % 0x1_0000
    ensures var r := Emit(p, conv);
            && r.Ready? && !r.again && r.packet == Shown(p.streamType, number, u, conv)
            && r.pes == p.(payload := [], sequence := if IsVideoType(p.streamType) then p.sequence else Next16(p.sequence))
  {
    if u.stamp.Both? {
      SameDifference(u.stamp.pts, u.stamp.dts);
    }
  }

  lemma SameDifference(a: nat, b: nat)
    ensures (a % 0x1_0000_0000 - b % 0x1_0000_0000) % 0x1_0000 == (a - b) % 0x1_0000
  {
    var k := (a / 0x1_0000_0000 - b / 0x1_0000_0000) * 0x1_0000;
    Shifted(a % 0x1_0000_0000 - b % 0x1_0000_0000, k);
  }

  lemma Shifted(x: int, k: int)
    ensures (x + k * 0x1_0000) % 0x1_0000 == x % 0x1_0000
  {
  }

  // Before a unit: the stream hands out what it has.
  lemma LateShown(p: Pes, types: seq<byte>, units: seq<Unit>, pid: uint16, conv: Conv)
    requires Known(types) && OnStreams(types, units) && 0x100 <= pid < 0x100 + |types| && StreamHas(p, types[pid - 0x100], units, pid)
    ensures p.payload == [] <==> Pending(units, pid) == []
    ensures p.payload != [] ==>
              var r := Emit(p, conv);
              && r.Ready? && !r.again && [r.packet] == PacketsOf(types, units, Pending(units, pid), conv)
              && r.pes.payload == [] && r.pes.streamType == p.streamType
              && (!IsVideoType(p.streamType) ==> r.pes.sequence == Given(units, pid) % 0x1_0000)
  {
    hide Emit, Shown, Given, Pending, Next16;
    PendingIsLast(units, pid);
    if Pending(units, pid) != [] {
      var k := Pending(units, pid)[0];
      EmitsShown(p, units[k], Given(units, pid), conv);
    }
  }

  // A unit: what the stream hands out, and what it has afterwards.
  lemma OwnShown(p: Pes, types: seq<byte>, units: seq<Unit>, conv: Conv)
    requires Known(types) && OnStreams(types, units) && units != []
    requires var n := |units| - 1;
             p.streamType == types[units[n].pid - 0x100] && (!IsVideoType(p.streamType) ==> p.sequence == Given(units[..n], units[n].pid) % 0x1_0000)
    ensures var u := units[|units| - 1];
            var r := Finish(Begun(p, u), conv);
            && (r.Quiet? || (r.Ready? && !r.again)) && (if r.Quiet? then [] else [r.packet]) == PacketsOf(types, units, Own(units), conv)
            && StreamHas(r.pes, types[u.pid - 0x100], units, u.pid)
  {
    hide Emit, Shown, Given, Pending, Next16;
    var n := |units| - 1;
    var u := units[n];
    PendingNext(units, u.pid);
    GivenNext(units);
    assert units[..n + 1] == units;
    if u.body != [] {
      EmitsShown(Begun(p, u), u, Given(units, u.pid), conv);
    }
  }

  lemma GivenNext(units: seq<Unit>)
    requires units != []
    ensures var n := |units| - 1;
            var u := units[n];
            Given(units, u.pid) % 0x1_0000 == if u.body == [] then Given(units[..n], u.pid) % 0x1_0000 else Next16(Given(units[..n], u.pid) % 0x1_0000)
  {
    OneMore16(Given(units[..|units| - 1], units[|units| - 1].pid));
  }

  lemma OneMore16(n: nat)
    ensures (n + 1) % 0x1_0000 == Next16(n % 0x1_0000)
  {
  }

  lemma OthersHave(d: Demux, e: Demux, types: seq<byte>, units: seq<Unit>)
    requires OnStreams(types, units) && units != [] && Between(d, types, units[..|units| - 1]) && e.held == None && e.pes.Some?
    requires var u := units[|units| - 1];
             && (forall pid :: pid in d.pes.value && pid != u.pid ==> pid in e.pes.value && e.pes.value[pid] == d.pes.value[pid])
             && u.pid in e.pes.value && StreamHas(e.pes.value[u.pid], types[u.pid - 0x100], units, u.pid)
    ensures Between(e, types, units)
  {
    hide StreamHas;
    forall pid: uint16 | 0x100 <= pid < 0x100 + |types| ensures pid in e.pes.value && StreamHas(e.pes.value[pid], types[pid - 0x100], units, pid) {
      if pid != units[|units| - 1].pid {
        StillHas(d.pes.value[pid], types[pid - 0x100], units, pid);
      }
    }
  }

  lemma StillHas(p: Pes, streamType: byte, units: seq<Unit>, pid: uint16)
    requires units != [] && units[|units| - 1].pid != pid && StreamHas(p, streamType, units[..|units| - 1], pid)
    ensures StreamHas(p, streamType, units, pid)
  {
  }

  lemma UnitLeads(d: Demux, types: seq<byte>, units: seq<Unit>, more: Data, conv: Conv) returns (e: Demux)
    requires Known(types) && OnStreams(types, units) && units != [] && Between(d, types, units[..|units| - 1])
    ensures Between(e, types, units)
    ensures var n := |units| - 1;
            var u := units[n];
            Leads(d, TsPackets(u.pid, true, u.counter, HeaderOf(u) + u.body) + more,
                  PacketsOf(types, units[..n], Pending(units[..n], u.pid), conv) + PacketsOf(types, units, Own(units), conv), e, more, conv)
  {
    hide Emit, Finish, TsPackets, ReadPacket, HeaderOf, Begun, PacketsOf, Pending, Own, Leads, Feeds, Starts, Shown, StreamHas;
    var n := |units| - 1;
    var rest, u := units[..n], units[n];
    var q, data := d.pes.value[u.pid], HeaderOf(u) + u.body;
    var k := if |data| < PacketSize - 4 then |data| else PacketSize - 4;
    PacketsStep(u.pid, true, u.counter, data);
    var first, others := TsPacket(u.pid, true, u.counter % 0x10, data[..k]), TsPackets(u.pid, false, Next16(u.counter), data[k..]);
    assert first + others + more == first + (others + more);
    var input := TsPackets(u.pid, true, u.counter, data) + more;
    TypeOf(q, types, rest, u.pid);
    LateShown(q, types, rest, u.pid, conv);
    var a := LateLeads(d, u.pid, u.counter % 0x10, data[..k], others + more, conv);
    NoPackets(types, rest, conv);
    NothingHeld(q, types, rest, u.pid);
    OwnShown(a.pes.value[u.pid], types, units, conv);
    UnitStarts(a.pes.value[u.pid], u, conv);
    BegunIs(a.pes.value[u.pid], u);
    FeedFrame(a, u.pid, u.counter, HeaderOf(u), u.body, Begun(a.pes.value[u.pid], u), more, conv);
    var r := Finish(Begun(a.pes.value[u.pid], u), conv);
    FeedsLeads(a, input, u.pid, r, more, conv);
    e := With(a, u.pid, r.pes);
    OthersHave(d, e, types, units);
    LeadsOn(d, input, PacketsOf(types, rest, Pending(rest, u.pid), conv), a, input, PacketsOf(types, units, Own(units), conv), e, more, conv);
  }

  lemma TypeOf(p: Pes, types: seq<byte>, units: seq<Unit>, pid: uint16)
    requires Known(types) && 0x100 <= pid < 0x100 + |types| && StreamHas(p, types[pid - 0x100], units, pid)
    ensures p.streamType == types[pid - 0x100] && Convertible(p.streamType) && p.streamType != PrivateOPUS
  {
  }

  lemma NothingHeld(p: Pes, types: seq<byte>, units: seq<Unit>, pid: uint16)
    requires 0x100 <= pid < 0x100 + |types| && StreamHas(p, types[pid - 0x100], units, pid)
    ensures p.payload == [] && !IsVideoType(p.streamType) ==> p.sequence == Given(units, pid) % 0x1_0000
  {
  }

  lemma NoPackets(types: seq<byte>, units: seq<Unit>, conv: Conv)
    requires OnStreams(types, units)
    ensures PacketsOf(types, units, [], conv) == []
  {
  }

  lemma BegunIs(p: Pes, u: Unit)
    ensures Begun(p, u).payload == u.body && (Begun(p, u).size == 0 || Begun(p, u).size == |u.body|)
  {
  }

  // The packets of more units.
  lemma PacketsMore(types: seq<byte>, units: seq<Unit>, conv: Conv)
    requires OnStreams(types, units) && units != []
    ensures var n := |units| - 1;
            PacketsOf(types, units, Out(units), conv)
            == PacketsOf(types, units[..n], Out(units[..n]), conv)
               + (PacketsOf(types, units[..n], Pending(units[..n], units[n].pid), conv) + PacketsOf(types, units, Own(units), conv))
  {
    hide Out, Pending, Own, PacketsOf, IsUnit;
    var n := |units| - 1;
    var rest := units[..n];
    var a, b, c := Out(rest), Pending(rest, units[n].pid), Own(units);
    OutIs(units);
    SamePackets(types, units, a, conv);
    SamePackets(types, units, b, conv);
    PacketsJoin(types, units, a, b, conv);
    PacketsJoin(types, units, a + b, c, conv);
    Associates(PacketsOf(types, units, a, conv), PacketsOf(types, units, b, conv), PacketsOf(types, units, c, conv));
  }

  lemma Associates(a: seq<Packet>, b: seq<Packet>, c: seq<Packet>)
    ensures a + b + c == a + (b + c)
  {
  }

  lemma PacketsJoin(types: seq<byte>, units: seq<Unit>, a: seq<nat>, b: seq<nat>, conv: Conv)
    requires OnStreams(types, units) && Within(a, |units|) && Within(b, |units|)
    ensures Within(a + b, |units|) && PacketsOf(types, units, a + b, conv) == PacketsOf(types, units, a, conv) + PacketsOf(types, units, b, conv)
  {
    hide PacketOf;
  }

  lemma SamePackets(types: seq<byte>, units: seq<Unit>, ks: seq<nat>, conv: Conv)
    requires OnStreams(types, units) && units != [] && Within(ks, |units| - 1)
    ensures PacketsOf(types, units[..|units| - 1], ks, conv) == PacketsOf(types, units, ks, conv)
  {
    hide PacketOf;
    forall j | 0 <= j < |ks| ensures PacketOf(types, units[..|units| - 1], ks[j], conv) == PacketOf(types, units, ks[j], conv) {
      SamePacketOf(types, units, ks[j], conv);
    }
  }

  lemma SamePacketOf(types: seq<byte>, units: seq<Unit>, k: nat, conv: Conv)
    requires OnStreams(types, units) && k < |units| - 1
    ensures PacketOf(types, units[..|units| - 1], k, conv) == PacketOf(types, units, k, conv)
  {
    hide Shown, Given;
    assert units[..|units| - 1][..k + 1] == units[..k + 1];
  }

  lemma {:induction false} UnitsLead(d: Demux, types: seq<byte>, units: seq<Unit>, more: Data, conv: Conv) returns (e: Demux)
    requires Known(types) && OnStreams(types, units) && Between(d, types, [])
    ensures Between(e, types, units) && Leads(d, Printed(units) + more, PacketsOf(types, units, Out(units), conv), e, more, conv)
  {
    hide TsPackets, ReadPacket, HeaderOf, PacketsOf, Pending, Own, Between, Leads;
    if units == [] {
      assert [] + more == more;
      e := d;
      BetweenIsValid(d, types, []);
      NoPackets(types, [], conv);
      QuietLeads(d, more, d, more, conv);
    } else {
      var n := |units| - 1;
      var rest, u := units[..n], units[n];
      var last := TsPackets(u.pid, true, u.counter, HeaderOf(u) + u.body);
      var before := UnitsLead(d, types, rest, last + more, conv);
      e := UnitLeads(before, types, units, more, conv);
      assert Printed(units) + more == Printed(rest) + (last + more);
      PacketsMore(types, units, conv);
      LeadsOn(d, Printed(units) + more, PacketsOf(types, rest, Out(rest), conv), before, last + more,
              PacketsOf(types, rest, Pending(rest, u.pid), conv) + PacketsOf(types, units, Own(units), conv), e, more, conv);
    }
  }

  lemma BetweenIsValid(d: Demux, types: seq<byte>, units: seq<Unit>)
    requires Between(d, types, units)
    ensures MpegTs.Valid(d) && d.held == None
  {
  }

  // Demuxing tables and then units on any streams gives the table and the packets
  // of the units, in the order in which they come out.
  lemma UnitsDemuxed(types: seq<byte>, units: seq<Unit>, checksum: Data -> uint32, conv: Conv, fuel: nat)
    requires Known(types) && OnStreams(types, units) && fuel > |Out(units)| + 1
    ensures ReadAll(NewDemux, Pat(checksum) + Pmt(types, checksum) + Printed(units), conv, fuel)
         == Done([Table(multiset(types))] + PacketsOf(types, units, Out(units), conv))
  {
    hide Pat, Pmt, Printed, ReadBuffer, PacketsOf, Out, Types, AddStreams, Between;
    var pes, input := AddStreams(map[], types, Pes0PID), Printed(units);
    var d := Demux(PmtPID, Some(pes), None);
    PatReads(checksum, conv);
    PmtReads(types, checksum, conv);
    TypesOfStreams(types, 0x2000);
    assert types[..|types|] == types;
    HeaderFirst(NewDemux, Demux(PmtPID, None, None), d, Table(multiset(types)), Pat(checksum), Pmt(types, checksum), input, conv);
    FirstHas(d, types);
    assert input + [] == input;
    var e := UnitsLead(d, types, units, [], conv);
    BetweenIsValid(e, types, units);
    hide ReadPacket;
    var packets := PacketsOf(types, units, Out(units), conv);
    assert LeadsBy(d, input, packets, e, [], conv, fuel - 1);
    AtEnd(e, conv, fuel - 1 - |packets|);
    assert packets + [] == packets;
  }

  lemma FirstHas(d: Demux, types: seq<byte>)
    requires |types| <= 33 && d == Demux(PmtPID, Some(AddStreams(map[], types, Pes0PID)), None)
    ensures Between(d, types, [])
  {
    hide AddStreams;
    forall pid: uint16 | 0x100 <= pid < 0x100 + |types| ensures pid in d.pes.value && d.pes.value[pid] == NewPes(types[pid - 0x100]) {
      StreamsAdded(map[], types, Pes0PID, pid);
    }
  }

  // The times of a packet of video, in terms of the 33-bit times of its unit. With
  // a decode time that is not zero modulo 2^32 the timestamp is the decode time,
  // and adding cts gives the presentation time exactly when the difference fits
  // sixteen bits; otherwise the timestamp is the presentation time.
  lemma TimesOfVideo(types: seq<byte>, units: seq<Unit>, k: nat, conv: Conv)
    requires OnStreams(types, units) && k < |units| && types[units[k].pid - 0x100] in [0x1B, 0x24]
    ensures var p, stamp := PacketOf(types, units, k, conv), units[k].stamp;
            && p.Media? && p.payload == conv.avcc(units[k].body) && p.sequence == 0
            && (stamp.NoTime? ==> p.timestamp == 0 && p.cts == 0)
            && (stamp.Pts? ==> p.timestamp == stamp.pts % 0x1_0000_0000 && p.cts == 0)
            && (stamp.Both? ==>
                  && (p.timestamp == stamp.dts % 0x1_0000_0000 <==> stamp.dts % 0x1_0000_0000 != 0 || stamp.pts % 0x1_0000_0000 == 0)
                  && ((p.timestamp + p.cts) % 0x1_0000_0000 == stamp.pts % 0x1_0000_0000
                      <==> stamp.dts % 0x1_0000_0000 == 0 || (stamp.pts - stamp.dts) % 0x1_0000_0000 < 0x1_0000))
  {
    var stamp := units[k].stamp;
    if stamp.Both? {
      SumOfTimes(stamp.pts, stamp.dts);
    }
  }

  lemma SumOfTimes(pts: nat, dts: nat)
    ensures (dts % 0x1_0000_0000 + (pts - dts) % 0x1_0000) % 0x1_0000_0000 == pts % 0x1_0000_0000 <==> (pts - dts) % 0x1_0000_0000 < 0x1_0000
  {
    var x, a := (pts - dts) % 0x1_0000_0000, dts % 0x1_0000_0000;
    LowOfLow(pts - dts);
    SumBack(pts, dts);
    Apart(a, x % 0x1_0000, x);
  }

  lemma LowOfLow(z: int)
    ensures z % 0x1_0000_0000 % 0x1_0000 == z % 0x1_0000
  {
    Shifted(z % 0x1_0000_0000, z / 0x1_0000_0000 * 0x1_0000);
  }

  lemma SumBack(pts: nat, dts: nat)
    ensures (dts % 0x1_0000_0000 + (pts - dts) % 0x1_0000_0000) % 0x1_0000_0000 == pts % 0x1_0000_0000
  {
  }

  // Different offsets below 2^32 give different sums.
  lemma Apart(a: nat, x: nat, y: nat)
    requires a < 0x1_0000_0000 && x < 0x1_0000 && y < 0x1_0000_0000 && x == y % 0x1_0000
    ensures (a + x) % 0x1_0000_0000 == (a + y) % 0x1_0000_0000 <==> y < 0x1_0000
  {
  }
}
