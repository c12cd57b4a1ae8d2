// pkg/h265/rtp.go: RTPDepay writes the size of a fragmented unit at an index
// that an earlier unit may have left behind. When it is out of range.

module H265Loss {
  import opened Bytes
  import opened Nalu
  import P = H265Payloader
  import opened H265Rtp

  // ---- Exactly when -------------------------------------------------------------------------

  // What matters of the variables of RTPDepay: how much has been collected, where
  // the last accepted start fragment put its size field, the last accepted
  // sequence number, and whether the present collection has a start fragment.
  datatype Shape = Shape(size: nat, start: nat, last: uint16, started: bool)

  predicate Accepts(sh: Shape, p: Packet) {
    !Ignored(p) && (sh.size == 0 || (p.seqNum - sh.last) % 0x1_0000 == 1)
  }

  // How much a packet adds; its contents do not matter.
  function Drop(sh: Shape): Shape {
    sh.(size := 0, started := false)
  }

  function Closed(sh: Shape, p: Packet): Shape
    requires |p.payload| >= 3
  {
    if Ends(p) then Drop(sh) else sh
  }

  function Grown(sets: nat, sh: Shape, p: Packet): Shape
    requires |p.payload| >= 3
  {
    var d := p.payload;
    if UnitType(d) != FU then Closed(sh.(size := sh.size + 4 + |d|), p)
    else if d[2] / 0x40 == 2 then
      var at := if sh.size == 0 && 19 <= d[2] % 0x40 <= 21 then sets else sh.size;
      Shape(at + |d| + 3, at, sh.last, true)
    else if d[2] / 0x40 == 3 then Closed(sh.(size := sh.size + |d| + 3), p)
    else if sh.size == 0 then sh
    else if d[2] / 0x40 == 0 then sh.(size := sh.size + |d| - 3)
    else if sh.start > sh.size + |d| - 3 + 4 then Drop(sh)
    else Closed(sh.(size := sh.size + |d| - 3), p)
  }

  // sets is the size of the stored parameter sets.
  function Next(sets: nat, sh: Shape, p: Packet): Shape {
    if Ignored(p) then sh
    else if !Accepts(sh, p) then Drop(sh)
    else Grown(sets, sh.(last := p.seqNum), p)
  }

  function ShapeOf(sets: nat, packets: seq<Packet>): Shape {
    if packets == [] then Shape(0, 0, 0, false)
    else Next(sets, ShapeOf(sets, packets[..|packets| - 1]), packets[|packets| - 1])
  }

  // The size field of an earlier unit lies across the end of the data with the
  // packet, or up to four bytes behind it, and no later unit has its own.
  predicate Across(sh: Shape, d: Data) {
    sh.size > 0 && !sh.started && sh.start - 4 <= sh.size + |d| - 3 < sh.start + 4
  }

  // The last fragment of a unit is accepted into a collection that has no first.
  predicate Overruns(sh: Shape, p: Packet) {
    Accepts(sh, p) && UnitType(p.payload) == FU && p.payload[2] / 0x40 == 1 && Across(sh, p.payload)
  }

  // The shape tells the state.
  predicate Fits(sh: Shape, st: State) {
    && sh.size == |st.buf| && sh.start == st.nuStart && sh.last == st.seqNum
    && (sh.started ==> sh.start + 4 <= sh.size)
  }

  lemma FitsFragment(ps: Data, sh: Shape, st: State, p: Packet)
    requires Fits(sh, st) && |p.payload| >= 3 && UnitType(p.payload) == FU
    ensures Fragment(ps, st, p) == Panic <==> p.payload[2] / 0x40 == 1 && Across(sh, p.payload)
    ensures Fragment(ps, st, p).Step? ==> Fits(Grown(|ps|, sh, p), Fragment(ps, st, p).state)
  {
    hide Put32, HeaderByte, UnitType, Ends;
    assert |st.buf| == 0 <==> st.buf == [];
    assert |p.payload[3..]| == |p.payload| - 3;
  }

  lemma FitsPacket(ps: Data, sh: Shape, st: State, p: Packet)
    requires Fits(sh, st)
    ensures Depay(ps, st, p) == Panic <==> Overruns(sh, p)
    ensures Depay(ps, st, p).Step? ==> Fits(Next(|ps|, sh, p), Depay(ps, st, p).state)
  {
    hide Fragment, Put32, Across, Ends;
    assert |st.buf| == 0 <==> st.buf == [];
    if Accepts(sh, p) && UnitType(p.payload) == FU {
      FitsFragment(ps, sh.(last := p.seqNum), st.(seqNum := p.seqNum), p);
      assert Across(sh.(last := p.seqNum), p.payload) == Across(sh, p.payload) by { SameAcross(sh, p); }
    }
  }

  lemma SameAcross(sh: Shape, p: Packet)
    ensures Across(sh.(last := p.seqNum), p.payload) == Across(sh, p.payload)
  {
  }

  ghost predicate SomeOverruns(sets: nat, packets: seq<Packet>) {
    exists k :: 0 <= k < |packets| && Overruns(ShapeOf(sets, packets[..k]), packets[k])
  }

  lemma OverrunsSnoc(sets: nat, packets: seq<Packet>)
    requires packets != []
    ensures var front, last := packets[..|packets| - 1], packets[|packets| - 1];
            SomeOverruns(sets, packets) <==> SomeOverruns(sets, front) || Overruns(ShapeOf(sets, front), last)
  {
    hide Overruns, ShapeOf;
    var n := |packets| - 1;
    var front := packets[..n];
    forall k | 0 <= k < n ensures packets[..k] == front[..k] && packets[k] == front[k] {}
    if SomeOverruns(sets, packets) {
      var k :| 0 <= k < |packets| && Overruns(ShapeOf(sets, packets[..k]), packets[k]);
      if k < n { assert Overruns(ShapeOf(sets, front[..k]), front[k]); }
    }
    if SomeOverruns(sets, front) {
      var k :| 0 <= k < |front| && Overruns(ShapeOf(sets, front[..k]), front[k]);
      assert Overruns(ShapeOf(sets, packets[..k]), packets[k]);
    }
    if Overruns(ShapeOf(sets, front), packets[n]) {
      assert Overruns(ShapeOf(sets, packets[..n]), packets[n]);
    }
  }

  // Whatever arrives: RTPDepay writes out of range if and only if the last
  // fragment of a unit without a first meets such a size field.
  lemma {:induction false} PanicsExactly(ps: Data, packets: seq<Packet>)
    ensures DepayAll(ps, State([], 0, 0), packets) == Panicked <==> SomeOverruns(|ps|, packets)
    ensures var run := DepayAll(ps, State([], 0, 0), packets); run.Run? ==> Fits(ShapeOf(|ps|, packets), run.state)
    decreases |packets|
  {
    hide Depay, Overruns, Next, Fits, SomeOverruns;
    if packets == [] {
      assert !SomeOverruns(|ps|, packets) && Fits(Shape(0, 0, 0, false), State([], 0, 0)) by { NothingOverruns(|ps|, packets); }
    } else {
      var front, last := packets[..|packets| - 1], packets[|packets| - 1];
      PanicsExactly(ps, front);
      OverrunsSnoc(|ps|, packets);
      assert front + [last] == packets;
      if DepayAll(ps, State([], 0, 0), front).Run? {
        FitsPacket(ps, ShapeOf(|ps|, front), DepayAll(ps, State([], 0, 0), front).state, last);
        DepayLast(ps, State([], 0, 0), front, last);
      }
    }
  }

  lemma NothingOverruns(sets: nat, packets: seq<Packet>)
    requires packets == []
    ensures !SomeOverruns(sets, packets) && Fits(Shape(0, 0, 0, false), State([], 0, 0))
  {
  }

  lemma ShapeSnoc(sets: nat, packets: seq<Packet>, p: Packet, sh: Shape)
    requires ShapeOf(sets, packets) == sh
    ensures ShapeOf(sets, packets + [p]) == Next(sets, sh, p)
  {
    hide Next;
    assert (packets + [p])[..|packets|] == packets;
  }

  // ---- Inputs that panic ------------------------------------------------------------------------

  // A unit of type 1, and the first and last fragment of one.
  const Whole: Data := [2, 1, 0]
  const FirstPart: Data := [98, 1, 0x81, 1, 2]
  const LastPart: Data := [98, 1, 0x41, 3, 4]

  // A unit of three bytes lies in front of the last fragment of something, and a
  // size field was at seven.
  lemma LastAfterWhole(sets: nat, front: seq<Packet>, w: Packet, p: Packet)
    requires ShapeOf(sets, front).size == 0 && ShapeOf(sets, front).start == 7 && !ShapeOf(sets, front).started
    requires w.payload == Whole && !w.marker && p.seqNum == (w.seqNum + 1) % 0x1_0000
    requires p.payload == LastPart || p.payload == [98, 1, 0x41]
    ensures SomeOverruns(sets, front + [w] + [p])
  {
    var sh := ShapeOf(sets, front);
    ShapeSnoc(sets, front, w, sh);
    assert Next(sets, sh, w) == Shape(7, 7, w.seqNum, false);
    assert Overruns(Shape(7, 7, w.seqNum, false), p) by { NextNumbers(w.seqNum, p.seqNum); }
    OverrunsSnoc(sets, front + [w] + [p]);
    assert (front + [w] + [p])[..|front| + 1] == front + [w];
  }

  lemma NextNumbers(a: uint16, b: uint16)
    requires b == (a + 1) % 0x1_0000
    ensures (b - a) % 0x1_0000 == 1
  {
  }

  // A unit in two fragments behind one of three bytes leaves its index behind.
  lemma FirstUnitEnds(sets: nat, a: Packet, b: Packet, c: Packet)
    requires a.payload == Whole && b.payload == FirstPart && c.payload == LastPart && !a.marker && !b.marker && c.marker
    requires a.seqNum == 0 && b.seqNum == 1 && c.seqNum == 2
    ensures ShapeOf(sets, [a, b, c]) == Shape(0, 7, 2, false)
  {
    var none: seq<Packet> := [];
    assert ShapeOf(sets, none) == Shape(0, 0, 0, false);
    ShapeSnoc(sets, none, a, Shape(0, 0, 0, false));
    ShapeSnoc(sets, none + [a], b, Shape(7, 0, 0, false));
    ShapeSnoc(sets, none + [a] + [b], c, Shape(15, 7, 1, true));
    assert none + [a] + [b] + [c] == [a, b, c];
  }

  // The sequence breaks in the middle of a unit, a short unit follows, and the
  // end of another.
  function Broken(): seq<Packet> {
    [Packet(0, false, Whole), Packet(1, false, FirstPart), Packet(5, false, Whole), Packet(6, false, Whole), Packet(7, true, LastPart)]
  }

  lemma StaleStartPanics(ps: Data)
    ensures DepayAll(ps, State([], 0, 0), Broken()) == Panicked
  {
    var none: seq<Packet> := [];
    var p0, p1, p2, p3, p4 := Packet(0, false, Whole), Packet(1, false, FirstPart), Packet(5, false, Whole), Packet(6, false, Whole), Packet(7, true, LastPart);
    assert ShapeOf(|ps|, none) == Shape(0, 0, 0, false);
    ShapeSnoc(|ps|, none, p0, Shape(0, 0, 0, false));
    ShapeSnoc(|ps|, none + [p0], p1, Shape(7, 0, 0, false));
    ShapeSnoc(|ps|, none + [p0] + [p1], p2, Shape(15, 7, 1, true));
    assert ShapeOf(|ps|, none + [p0] + [p1] + [p2]) == Shape(0, 7, 1, false);
    LastAfterWhole(|ps|, none + [p0] + [p1] + [p2], p3, p4);
    assert none + [p0] + [p1] + [p2] + [p3] + [p4] == Broken();
    PanicsExactly(ps, Broken());
  }

  // ---- What RTPPay sends --------------------------------------------------------------------

  // A fragment that is not the first, and one that is not the last.
  predicate Later(d: Data) {
    |d| >= 3 && UnitType(d) == FU && d[2] / 0x40 < 2
  }

  predicate Opens(d: Data) {
    |d| >= 3 && UnitType(d) == FU && (d[2] / 0x40 == 0 || d[2] / 0x40 == 2)
  }

  // Every fragment that is not the first comes after one that is not the last;
  // open tells it of the payload in front.
  ghost predicate Fragmented(ds: seq<Data>, open: bool) {
    forall k :: 0 <= k < |ds| && Later(ds[k]) ==> Follows(ds, k, open)
  }

  predicate Follows(ds: seq<Data>, k: nat, open: bool)
    requires k < |ds|
  {
    if k == 0 then open else Opens(ds[k - 1])
  }

  lemma FragmentedAppend(a: seq<Data>, b: seq<Data>, open: bool)
    requires Fragmented(a, open) && Fragmented(b, if a == [] then open else Opens(a[|a| - 1]))
    ensures Fragmented(a + b, open)
  {
    hide Later, Opens;
    forall k | 0 <= k < |a + b| && Later((a + b)[k]) ensures Follows(a + b, k, open) {
      if k < |a| {
        assert Later(a[k]) && Follows(a, k, open);
      } else {
        assert Later(b[k - |a|]) && Follows(b, k - |a|, if a == [] then open else Opens(a[|a| - 1]));
      }
    }
  }

  lemma MoreOpen(ds: seq<Data>, open: bool)
    requires Fragmented(ds, false)
    ensures Fragmented(ds, open)
  {
    hide Later, Opens;
    forall k | 0 <= k < |ds| && Later(ds[k]) ensures Follows(ds, k, open) {
      assert Follows(ds, k, false);
    }
  }

  lemma FragmentFlag(head: Data, kind: byte, flag: byte, part: Data)
    requires |head| == 2 && UnitType(head) == FU && kind < 0x40 && flag in {0, 0x40, 0x80}
    ensures var d := head + [kind + flag] + part; Later(d) == (flag != 0x80) && Opens(d) == (flag != 0x40)
  {
    var d := head + [kind + flag] + part;
    assert d[0] == head[0] && d[2] == kind + flag;
  }

  lemma {:induction false} FragmentsFollow(head: Data, kind: byte, data: Data, max: nat, first: bool)
    requires max > 0 && kind < 0x40 && |head| == 2 && UnitType(head) == FU
    ensures Fragmented(P.Fragments(head, kind, data, max, first), !first)
    decreases |data|
  {
    hide Later, Opens, UnitType;
    if data != [] {
      var n := P.Min(max, |data|);
      var flag: byte := if first then 0x80 else if n == |data| then 0x40 else 0;
      var d := head + [kind + flag] + data[..n];
      FragmentFlag(head, kind, flag, data[..n]);
      FragmentsFollow(head, kind, data[n..], max, false);
      var rest := P.Fragments(head, kind, data[n..], max, false);
      if flag == 0x40 {
        assert data[n..] == [] && rest == [];
      }
      assert Fragmented([d], !first);
      FragmentedAppend([d], rest, !first);
    }
  }

  // Units of the type that the receiver takes for a fragment are not covered.
  predicate NoFragments(units: seq<Data>) {
    forall i :: 0 <= i < |units| ==> |units[i]| >= 2 && UnitType(units[i]) != FU
  }

  lemma FlushedIsWhole(units: seq<Data>)
    requires NoFragments(units)
    ensures Fragmented(P.Flushed(units), false)
  {
    if |units| >= 2 {
      P.ApHeaderFields(units);
      assert UnitType(P.ApPacket(units)) == P.Type(P.ApPacket(units));
    }
  }

  lemma AllFragmentsFollow(unit: Data, mtu: uint16)
    requires |unit| > mtu > 3
    ensures Fragmented(P.AllFragments(unit, mtu), false)
  {
    assert UnitType(P.FuHeader(unit)) == FU;
    FragmentsFollow(P.FuHeader(unit), P.Type(unit), unit[2..], mtu - 3, true);
  }

  lemma UnitIsWhole(buffered: seq<Data>, mtu: uint16, unit: Data)
    requires mtu > 3 && NoFragments(buffered + [unit])
    ensures P.Payable(unit, mtu) && P.Headed(buffered)
    ensures var s := P.AddUnit(buffered, mtu, false, unit); Fragmented(s.payloads, false) && NoFragments(s.buffered)
  {
    hide P.Flushed, P.AllFragments, UnitType;
    assert (buffered + [unit])[|buffered|] == unit && forall i :: 0 <= i < |buffered| ==> (buffered + [unit])[i] == buffered[i];
    FlushedIsWhole(buffered);
    if |unit| > mtu {
      AllFragmentsFollow(unit, mtu);
      MoreOpen(P.AllFragments(unit, mtu), P.Flushed(buffered) != [] && Opens(P.Flushed(buffered)[|P.Flushed(buffered)| - 1]));
      FragmentedAppend(P.Flushed(buffered), P.AllFragments(unit, mtu), false);
    }
  }

  lemma {:induction false} UnitsAreWhole(mtu: uint16, units: seq<Data>)
    requires mtu > 3 && NoFragments(units)
    ensures P.AllPayable(units, mtu)
    ensures var s := P.AddUnits(mtu, false, units); Fragmented(s.payloads, false) && NoFragments(s.buffered)
    decreases |units|
  {
    hide P.AddUnit, Fragmented, UnitType;
    assert P.AllPayable(units, mtu);
    if units == [] {
      assert Fragmented([], false) by { NothingFollows(); }
    } else {
      var front, last := units[..|units| - 1], units[|units| - 1];
      UnitsAreWhole(mtu, front);
      var before := P.AddUnits(mtu, false, front);
      UnitIsWhole(before.buffered, mtu, last);
      var more := P.AddUnit(before.buffered, mtu, false, last);
      Concat(before.payloads, more.payloads);
    }
  }

  lemma NothingFollows()
    ensures Fragmented([], false)
  {
  }

  lemma Concat(a: seq<Data>, b: seq<Data>)
    requires Fragmented(a, false) && Fragmented(b, false)
    ensures Fragmented(a + b, false)
  {
    hide Fragmented, Opens;
    MoreOpen(b, a != [] && Opens(a[|a| - 1]));
    FragmentedAppend(a, b, false);
  }

  lemma PayloadsAreWhole(mtu: uint16, units: seq<Data>)
    requires mtu > 3 && NoFragments(units)
    ensures P.AllPayable(units, mtu) && Fragmented(P.Payloads(mtu, false, units), false)
  {
    hide P.AddUnits, P.Flushed, Fragmented, NoFragments;
    UnitsAreWhole(mtu, units);
    FlushedIsWhole(P.AddUnits(mtu, false, units).buffered);
    Concat(P.AddUnits(mtu, false, units).payloads, P.Flushed(P.AddUnits(mtu, false, units).buffered));
  }

  // The payloads of a run of access units.
  function AllPayloads(mtu: uint16, aus: seq<seq<Data>>): seq<Data>
    requires forall k :: 0 <= k < |aus| ==> P.AllPayable(aus[k], mtu)
  {
    if aus == [] then [] else AllPayloads(mtu, aus[..|aus| - 1]) + P.Payloads(mtu, false, aus[|aus| - 1])
  }

  lemma {:induction false} RunsAreWhole(mtu: uint16, aus: seq<seq<Data>>)
    requires mtu > 3 && forall k :: 0 <= k < |aus| ==> NoFragments(aus[k])
    ensures forall k :: 0 <= k < |aus| ==> P.AllPayable(aus[k], mtu)
    ensures Fragmented(AllPayloads(mtu, aus), false)
    decreases |aus|
  {
    hide NoFragments, Fragmented, P.AllPayable, P.Payloads;
    forall k | 0 <= k < |aus| ensures P.AllPayable(aus[k], mtu) {
      PayloadsAreWhole(mtu, aus[k]);
    }
    if aus == [] {
      NothingFollows();
    } else {
      RunsAreWhole(mtu, aus[..|aus| - 1]);
      PayloadsAreWhole(mtu, aus[|aus| - 1]);
      Concat(AllPayloads(mtu, aus[..|aus| - 1]), P.Payloads(mtu, false, aus[|aus| - 1]));
    }
  }

  // ---- What arrives -----------------------------------------------------------------------------

  // Packets with these payloads and consecutive numbers, whatever their markers.
  ghost predicate Numbered(sent: seq<Packet>, first: nat, payloads: seq<Data>) {
    |sent| == |payloads| && forall k :: 0 <= k < |sent| ==> sent[k].seqNum == Number(first + k) && sent[k].payload == payloads[k]
  }

  function Arrived(sent: seq<Packet>, idx: seq<nat>): seq<Packet>
    requires forall j :: 0 <= j < |idx| ==> idx[j] < |sent|
  {
    seq(|idx|, j requires 0 <= j < |idx| => sent[idx[j]])
  }

  // The last of these that was not dropped at once.
  function LastSeen(sent: seq<Packet>, idx: seq<nat>): Option<nat>
    requires forall j :: 0 <= j < |idx| ==> idx[j] < |sent|
  {
    if idx == [] then None
    else if Ignored(sent[idx[|idx| - 1]]) then LastSeen(sent, idx[..|idx| - 1])
    else Some(idx[|idx| - 1])
  }

  // Packets arrive in order, and fewer than 2^16 are lost after one that counts.
  ghost predicate Losses(sent: seq<Packet>, idx: seq<nat>) {
    forall j :: 0 <= j < |idx| ==> idx[j] < |sent| && Gap(sent, idx, j)
  }

  predicate Gap(sent: seq<Packet>, idx: seq<nat>, j: nat)
    requires j < |idx|
  {
    (forall k :: 0 <= k < j ==> idx[k] < |sent|) &&
    var a := LastSeen(sent, idx[..j]);
    a.Some? ==> a.value < idx[j] <= a.value + 0x1_0000
  }

  // A collection that ends with a fragment that is not the last has the first.
  predicate Sound(sent: seq<Packet>, last: Option<nat>, sh: Shape) {
    sh.size > 0 ==>
      && last.Some? && last.value < |sent| && sh.last == sent[last.value].seqNum
      && (Opens(sent[last.value].payload) ==> sh.started)
  }

  lemma OneMore(first: nat, a: nat, c: nat)
    requires a < c <= a + 0x1_0000 && (Number(first + c) - Number(first + a)) % 0x1_0000 == 1
    ensures c == a + 1
  {
  }

  lemma SoundStep(sets: nat, sent: seq<Packet>, first: nat, payloads: seq<Data>, last: Option<nat>, sh: Shape, c: nat)
    requires Numbered(sent, first, payloads) && Fragmented(payloads, false) && Sound(sent, last, sh) && c < |sent|
    requires last.Some? ==> last.value < c <= last.value + 0x1_0000
    ensures !Overruns(sh, sent[c]) && Sound(sent, if Ignored(sent[c]) then last else Some(c), Next(sets, sh, sent[c]))
  {
    var p := sent[c];
    if Accepts(sh, p) && sh.size > 0 {
      OneMore(first, last.value, c);
      if Later(p.payload) {
        assert Later(payloads[c]) && Follows(payloads, c, false);
      }
    }
    hide Fragmented, Numbered;
  }

  lemma LossesBefore(sent: seq<Packet>, idx: seq<nat>)
    requires Losses(sent, idx) && idx != []
    ensures var rest, c := idx[..|idx| - 1], idx[|idx| - 1];
            && c < |sent| && Losses(sent, rest) && Arrived(sent, idx) == Arrived(sent, rest) + [sent[c]]
            && (LastSeen(sent, rest).Some? ==> LastSeen(sent, rest).value < c <= LastSeen(sent, rest).value + 0x1_0000)
            && LastSeen(sent, idx) == if Ignored(sent[c]) then LastSeen(sent, rest) else Some(c)
  {
    hide Ignored;
    var rest := idx[..|idx| - 1];
    forall j | 0 <= j < |rest| ensures Gap(sent, rest, j) {
      assert idx[..j] == rest[..j] && Gap(sent, idx, j);
    }
    assert Gap(sent, idx, |idx| - 1);
    hide Gap, LastSeen;
  }

  lemma {:induction false} NeverOverruns(sets: nat, sent: seq<Packet>, first: nat, payloads: seq<Data>, idx: seq<nat>)
    requires Numbered(sent, first, payloads) && Fragmented(payloads, false) && Losses(sent, idx)
    ensures !SomeOverruns(sets, Arrived(sent, idx)) && Sound(sent, LastSeen(sent, idx), ShapeOf(sets, Arrived(sent, idx)))
    decreases |idx|
  {
    hide Numbered, Fragmented, Ignored, Sound, Overruns, Next, SomeOverruns;
    if idx == [] {
      assert Arrived(sent, idx) == [];
      NothingOverruns(sets, Arrived(sent, idx));
      assert Sound(sent, None, Shape(0, 0, 0, false)) by { NothingYet(sent); }
    } else {
      var rest, c := idx[..|idx| - 1], idx[|idx| - 1];
      LossesBefore(sent, idx);
      hide Losses;
      NeverOverruns(sets, sent, first, payloads, rest);
      SoundStep(sets, sent, first, payloads, LastSeen(sent, rest), ShapeOf(sets, Arrived(sent, rest)), c);
      ShapeSnoc(sets, Arrived(sent, rest), sent[c], ShapeOf(sets, Arrived(sent, rest)));
      OverrunsSnoc(sets, Arrived(sent, idx));
      assert Arrived(sent, idx)[..|idx| - 1] == Arrived(sent, rest);
    }
  }

  lemma NothingYet(sent: seq<Packet>)
    ensures Sound(sent, None, Shape(0, 0, 0, false))
  {
  }

  // Whatever is lost of the packets of any run of access units, RTPDepay does
  // not panic, unless 2^16 packets or more are lost at once.
  lemma LossesAreHarmless(ps: Data, mtu: uint16, aus: seq<seq<Data>>, sent: seq<Packet>, first: nat, idx: seq<nat>)
    requires mtu > 3 && (forall k :: 0 <= k < |aus| ==> NoFragments(aus[k]) && P.AllPayable(aus[k], mtu))
    requires Numbered(sent, first, AllPayloads(mtu, aus)) && Losses(sent, idx)
    ensures DepayAll(ps, State([], 0, 0), Arrived(sent, idx)).Run?
  {
    hide NoFragments, DepayAll, AllPayloads, Numbered, Fragmented, Sound, SomeOverruns;
    RunsAreWhole(mtu, aus);
    NeverOverruns(|ps|, sent, first, AllPayloads(mtu, aus), idx);
    PanicsExactly(ps, Arrived(sent, idx));
  }

  // ---- Why these conditions -----------------------------------------------------------------------

  // Six bytes, which are two fragments at an mtu of five.
  const Large: Data := [2, 1, 1, 2, 3, 4]

  lemma PairIsThree()
    ensures P.AllPayable([Whole, Large], 5) && P.Payloads(5, false, [Whole, Large]) == [Whole, FirstPart, LastPart]
  {
    var units := [Whole, Large];
    assert units[..1] == [Whole] && [Whole][..0] == [];
    var none: seq<Data> := [];
    assert P.AddUnits(5, false, none) == P.State([], []);
    assert P.AddUnits(5, false, [Whole]) == P.State([], [Whole]) by { SmallIsHeld(); }
    assert P.AllFragments(Large, 5) == [FirstPart, LastPart] by { LargeIsTwo(); }
    hide P.AllFragments;
    assert P.AddUnit([Whole], 5, false, Large) == P.State([Whole] + [FirstPart, LastPart], []);
    assert P.AddUnits(5, false, units) == P.State([Whole, FirstPart, LastPart], []);
  }

  lemma SmallIsHeld()
    ensures P.AddUnits(5, false, [Whole]) == P.State([], [Whole])
  {
    var none: seq<Data> := [];
    assert [Whole][..0] == none;
    assert P.AddUnits(5, false, none) == P.State([], []);
    assert P.Size(none) == 0;
    assert none + [Whole] == [Whole];
  }

  lemma LargeIsTwo()
    ensures P.AllFragments(Large, 5) == [FirstPart, LastPart]
  {
    var head := P.FuHeader(Large);
    assert head == [98, 1] && P.Type(Large) == 1 && Large[2..] == [1, 2, 3, 4];
    OneFragment(head);
    var data: Data := [1, 2, 3, 4];
    assert data[2..] == [3, 4] && data[..2] == [1, 2];
    assert P.Fragments(head, 1, data, 2, true) == [head + [0x81] + [1, 2]] + [LastPart];
    assert head + [0x81] + [1, 2] == FirstPart;
  }

  lemma OneFragment(head: Data)
    requires head == [98, 1]
    ensures P.Fragments(head, 1, [3, 4], 2, false) == [LastPart]
  {
    var data: Data := [3, 4];
    assert data[..2] == [3, 4] && data[2..] == [];
    assert P.Fragments(head, 1, data[2..], 2, false) == [];
    assert head + [0x41] + [3, 4] == LastPart;
  }

  // Access units of two units each, one short and one in two fragments.
  function Pairs(n: nat): seq<seq<Data>> {
    seq(n, _ => [Whole, Large])
  }

  lemma {:induction false} PairsPayloads(n: nat)
    ensures forall k :: 0 <= k < |Pairs(n)| ==> P.AllPayable(Pairs(n)[k], 5)
    ensures var ds := AllPayloads(5, Pairs(n));
            |ds| == 3 * n && forall j :: 0 <= j < 3 * n ==> ds[j] == if j % 3 == 0 then Whole else if j % 3 == 1 then FirstPart else LastPart
  {
    PairIsThree();
    hide P.Payloads, P.AllPayable;
    if n > 0 {
      PairsPayloads(n - 1);
      assert Pairs(n)[..n - 1] == Pairs(n - 1) && Pairs(n)[n - 1] == [Whole, Large];
      AddThree(AllPayloads(5, Pairs(n - 1)), n - 1);
    }
  }

  lemma AddThree(ds: seq<Data>, n: nat)
    requires |ds| == 3 * n && forall j :: 0 <= j < 3 * n ==> ds[j] == if j % 3 == 0 then Whole else if j % 3 == 1 then FirstPart else LastPart
    ensures var r := ds + [Whole, FirstPart, LastPart];
            |r| == 3 * (n + 1) && forall j :: 0 <= j < 3 * (n + 1) ==> r[j] == if j % 3 == 0 then Whole else if j % 3 == 1 then FirstPart else LastPart
  {
  }

  // What RTPPay sends of them.
  function Sent(n: nat): seq<Packet>
    requires forall k :: 0 <= k < n ==> P.AllPayable(Pairs(n)[k], 5)
  {
    var ds := AllPayloads(5, Pairs(n));
    seq(|ds|, j requires 0 <= j < |ds| => Packet(Number(j), j % 3 == 2, ds[j]))
  }

  lemma SentAt(n: nat, j: nat)
    requires j < 3 * n
    ensures forall k :: 0 <= k < n ==> P.AllPayable(Pairs(n)[k], 5)
    ensures |Sent(n)| == 3 * n && Sent(n)[j] == Packet(Number(j), j % 3 == 2, if j % 3 == 0 then Whole else if j % 3 == 1 then FirstPart else LastPart)
  {
    PairsPayloads(n);
    hide P.AllPayable, AllPayloads;
  }

  lemma SentIsNumbered(n: nat)
    ensures forall k :: 0 <= k < n ==> P.AllPayable(Pairs(n)[k], 5) && NoFragments(Pairs(n)[k])
    ensures Numbered(Sent(n), 0, AllPayloads(5, Pairs(n)))
  {
    PairsPayloads(n);
    hide P.AllPayable, AllPayloads;
    forall k | 0 <= k < n ensures NoFragments(Pairs(n)[k]) {
      PairUnits();
    }
    hide NoFragments;
  }

  // Packets 0 to 3 and the one after the next 2^16.
  const Few: seq<nat> := [0, 1, 2, 3, 3 + 0x1_0001]

  // Exactly 2^16 packets are lost, and the next number is the expected one.
  lemma ManyLostPanics(ps: Data)
    ensures forall k :: 0 <= k < 21847 ==> P.AllPayable(Pairs(21847)[k], 5) && NoFragments(Pairs(21847)[k])
    ensures Numbered(Sent(21847), 0, AllPayloads(5, Pairs(21847))) && forall j :: 0 <= j < |Few| ==> Few[j] < |Sent(21847)|
    ensures DepayAll(ps, State([], 0, 0), Arrived(Sent(21847), Few)) == Panicked
  {
    hide P.AllPayable, AllPayloads, NoFragments, Pairs, Sent, Numbered, SomeOverruns, DepayAll;
    SentIsNumbered(21847);
    forall j | 0 <= j < |Few| ensures Few[j] < |Sent(21847)| {
      SentAt(21847, Few[j]);
    }
    FewArrive(Sent(21847));
    FirstUnitEnds(|ps|, Packet(0, false, Whole), Packet(1, false, FirstPart), Packet(2, true, LastPart));
    LastAfterWhole(|ps|, [Packet(0, false, Whole), Packet(1, false, FirstPart), Packet(2, true, LastPart)], Packet(3, false, Whole), Packet(4, true, LastPart));
    PanicsExactly(ps, Arrived(Sent(21847), Few));
  }

  lemma FewArrive(sent: seq<Packet>)
    requires (forall k :: 0 <= k < 21847 ==> P.AllPayable(Pairs(21847)[k], 5)) && sent == Sent(21847)
    ensures forall j :: 0 <= j < |Few| ==> Few[j] < |sent|
    ensures Arrived(sent, Few) == [Packet(0, false, Whole), Packet(1, false, FirstPart), Packet(2, true, LastPart)] + [Packet(3, false, Whole)] + [Packet(4, true, LastPart)]
  {
    hide P.AllPayable, Pairs, Sent;
    SentAt(21847, 0);
    SentAt(21847, 1);
    SentAt(21847, 2);
    SentAt(21847, 3);
    SentAt(21847, 3 + 0x1_0001);
  }

  lemma PairUnits()
    ensures NoFragments([Whole, Large])
  {
  }

  // A unit of type 49, whose third byte looks like the end of a fragment.
  const Odd: Data := [98, 1, 0x41]

  lemma OddIsSentWhole()
    ensures P.AllPayable([Whole, Odd], 5) && P.Payloads(5, false, [Whole, Odd]) == [Whole, Odd]
  {
    var units := [Whole, Odd];
    assert units[..1] == [Whole];
    SmallIsHeld();
    assert [Whole][..0] == [] && P.Size([Whole]) == 5;
    assert P.AddUnit([Whole], 5, false, Odd) == P.State([Whole], [Odd]);
    assert P.AddUnits(5, false, units) == P.State([] + [Whole], [Odd]);
  }

  lemma ThreePackets(x: Data, y: Data, z: Data)
    ensures Packetize(0, [x, y, z], true) == [Packet(0, false, x), Packet(1, false, y), Packet(2, true, z)]
  {
    var ps := Packetize(0, [x, y, z], true);
    assert Number(0 + 0) == 0 && Number(0 + 1) == 1 && Number(0 + 2) == 2;
    assert |ps| == 3 && ps[0] == Packet(0, false, x) && ps[1] == Packet(Number(0 + 1), false, [x, y, z][1]) && ps[2] == Packet(2, true, z);
  }

  lemma TwoPackets(x: Data, y: Data)
    ensures Packetize(3, [x, y], true) == [Packet(3, false, x), Packet(4, true, y)]
  {
  }

  // Nothing is lost, but an access unit has a unit of type 49.
  lemma OddTypePanics(ps: Data)
    ensures P.AllPayable([Whole, Large], 5) && P.AllPayable([Whole, Odd], 5)
    ensures DepayAll(ps, State([], 0, 0), Packetize(0, P.Payloads(5, false, [Whole, Large]), true) + Packetize(3, P.Payloads(5, false, [Whole, Odd]), true))
            == Panicked
  {
    PairIsThree();
    OddIsSentWhole();
    hide P.Payloads, P.AllPayable;
    var a, b, c := Packet(0, false, Whole), Packet(1, false, FirstPart), Packet(2, true, LastPart);
    var w, p := Packet(3, false, Whole), Packet(4, true, Odd);
    var all := Packetize(0, [Whole, FirstPart, LastPart], true) + Packetize(3, [Whole, Odd], true);
    ThreePackets(Whole, FirstPart, LastPart);
    TwoPackets(Whole, Odd);
    assert all == [a, b, c] + [w] + [p];
    FirstUnitEnds(|ps|, a, b, c);
    LastAfterWhole(|ps|, [a, b, c], w, p);
    PanicsExactly(ps, all);
  }
}
