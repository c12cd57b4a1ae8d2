// RTPDepay after RTPPay (pkg/h265/rtp.go): when an access unit comes back.

module H265RoundTrip {
  import opened Bytes
  import opened Nalu
  import P = H265Payloader
  import opened H265Rtp

  // ---- Lists of packets --------------------------------------------------------------

  function Then(a: Run, b: Run): Run {
    if a.Panicked? || b.Panicked? then Panicked else Run(b.state, a.aus + b.aus)
  }

  lemma {:induction false} DepayAppend(ps: Data, st: State, a: seq<Packet>, b: seq<Packet>)
    requires DepayAll(ps, st, a).Run?
    ensures DepayAll(ps, st, a + b) == Then(DepayAll(ps, st, a), DepayAll(ps, DepayAll(ps, st, a).state, b))
    decreases |b|
  {
    hide Depay;
    if b == [] {
      assert a + b == a;
    } else {
      assert (a + b)[..|a + b| - 1] == a + b[..|b| - 1] && (a + b)[|a + b| - 1] == b[|b| - 1];
      DepayAppend(ps, st, a, b[..|b| - 1]);
    }
  }

  lemma PacketizeAppend(seq0: nat, a: seq<Data>, b: seq<Data>, mark: bool)
    requires b != []
    ensures Packetize(seq0, a + b, mark) == Packetize(seq0, a, false) + Packetize(seq0 + |a|, b, mark)
  {
  }

  lemma PacketizeFront(seq0: nat, first: Data, rest: seq<Data>, mark: bool)
    requires rest != []
    ensures Packetize(seq0, [first] + rest, mark) == [Packet(Number(seq0), false, first)] + Packetize(seq0 + 1, rest, mark)
  {
  }

  lemma PacketizeOne(ps: Data, st: State, s: nat, c: Data, mark: bool)
    ensures Packetize(s, [c], mark) == [Packet(Number(s), mark, c)]
    ensures DepayAll(ps, st, Packetize(s, [c], mark)) ==
            match Depay(ps, st, Packet(Number(s), mark, c))
            case Panic => Panicked
            case Step(after, au) => Run(after, [] + (if au.Some? then [au.value] else []))
  {
    hide Depay;
    var p := Packet(Number(s), mark, c);
    assert Packetize(s, [c], mark) == [p] && [p][..0] == [];
    assert DepayAll(ps, st, []) == Run(st, []);
  }

  // The packet with number s is accepted: it starts anew or it is the next.
  predicate Next(st: State, s: nat) {
    st.buf == [] || (s - st.seqNum) % 0x1_0000 == 1
  }

  // The data was collected, and emitted if the marker asked for it.
  predicate Fed(run: Run, buf: Data, s: nat, mark: bool) {
    && run.Run?
    && Next(run.state, s)
    && run.aus == (if mark then [buf] else [])
    && run.state.buf == (if mark then [] else buf)
  }

  // ---- One unit --------------------------------------------------------------------------

  // A packet that is collected as it is; aggregation packets are, too.
  predicate Plain(c: Data) {
    |c| >= 3 && c[0] as int / 2 % 64 != 49
  }

  // A last packet that does not end the access unit, or is dropped: less than 128
  // bytes of a video, sequence or picture parameter set, or of supplemental
  // information.
  predicate Swallows(c: Data) {
    3 <= |c| < 128 && c[0] as int / 2 % 64 in {32, 33, 34, 39, 40}
  }

  lemma One(ps: Data, st: State, s: nat, c: Data, mark: bool)
    requires Plain(c) && Next(st, s)
    ensures var run := DepayAll(ps, st, Packetize(s, [c], mark));
            if mark && Swallows(c) then run.Run? && run.aus == []
            else Fed(run, st.buf + Prefixed(c), s + 1, mark)
  {
    hide Prefixed, Fragment;
    var p := Packet(Number(s), mark, c);
    PacketizeOne(ps, st, s, c, mark);
    NextNumber(State([], 0, Number(s)), s);
    assert UnitType(c) == FU || Depay(ps, st, p) == (if Ignored(p) then Step(st, None)
      else Collected(State(st.buf + Prefixed(c), st.nuStart, Number(s)), p));
  }

  lemma NextNumber(st: State, s: nat)
    requires st.seqNum == Number(s)
    ensures Next(st, s + 1)
  {
    assert (s + 1 - s % 0x1_0000) % 0x1_0000 == 1;
  }

  predicate Intra(t: nat) {
    19 <= t <= 21
  }

  // The data in front of a fragmented unit: the stored parameter sets when it
  // is an intra picture and nothing was collected yet.
  function Lead(ps: Data, buf: Data, unit: Data): Data
    requires |unit| >= 2
  {
    if buf == [] && Intra(unit[0] as int / 2 % 64) then ps else buf
  }

  // A fragment as RTPDepay sees it.
  predicate IsFragment(d: Data, unit: Data, flag: nat) {
    && |unit| >= 2 && |d| >= 3 && d[..2] == P.FuHeader(unit)
    && d[2] / 0x40 == flag && d[2] % 0x40 == UnitType(unit)
  }

  lemma FragmentFields(d: Data, unit: Data, flag: nat)
    requires IsFragment(d, unit, flag)
    ensures UnitType(d) == FU && [HeaderByte(d[0], d[2] % 0x40), d[1]] == unit[..2]
  {
    assert d[0] == d[..2][0] && d[1] == d[..2][1];
  }

  // The buffer within a fragmented unit: a place for the size, then the first
  // k bytes of the unit.
  function Partial(lead: Data, unit: Data, k: nat): (b: Data)
    requires k <= |unit|
    ensures b != []
  {
    lead + [0, 0, 0, 0] + unit[..k]
  }

  // The fragments of a unit from byte k on.
  function From(unit: Data, k: nat, max: nat, first: bool): seq<Data>
    requires 2 <= k <= |unit| && max > 0
  {
    P.Fragments(P.FuHeader(unit), P.Type(unit), unit[k..], max, first)
  }

  // How far the next fragment goes.
  function Upto(unit: Data, k: nat, max: nat): (m: nat)
    requires k < |unit| && max > 0
    ensures k < m <= |unit|
  {
    k + P.Min(max, |unit| - k)
  }

  lemma HeadFragment(unit: Data, k: nat, max: nat, first: bool)
    requires 2 <= k < |unit| && max > 0
    ensures var fus := From(unit, k, max, first); var m := Upto(unit, k, max);
            && fus != []
            && IsFragment(fus[0], unit, if first then 2 else if m == |unit| then 1 else 0)
            && fus[0][3..] == unit[k..m]
            && fus[1..] == From(unit, m, max, false)
  {
    assert unit[k..][P.Min(max, |unit| - k)..] == unit[Upto(unit, k, max)..];
  }

  lemma FirstFragment(ps: Data, st: State, s: nat, d: Data, unit: Data, m: nat)
    requires IsFragment(d, unit, 2) && Next(st, s) && 2 <= m <= |unit| && d[3..] == unit[2..m]
    ensures var lead := Lead(ps, st.buf, unit); var after := State(Partial(lead, unit, m), |lead|, Number(s));
            Depay(ps, st, Packet(Number(s), false, d)) == Step(after, None) && Next(after, s + 1)
  {
    FragmentFields(d, unit, 2);
    var lead := Lead(ps, st.buf, unit);
    assert lead + [0, 0, 0, 0] + unit[..2] + unit[2..m] == lead + [0, 0, 0, 0] + unit[..m];
  }

  lemma MiddleFragment(ps: Data, st: State, s: nat, d: Data, unit: Data, lead: Data, k: nat, m: nat)
    requires IsFragment(d, unit, 0) && Next(st, s) && k <= m <= |unit| && d[3..] == unit[k..m]
    requires st.buf == Partial(lead, unit, k) && st.nuStart == |lead|
    ensures var after := State(Partial(lead, unit, m), |lead|, Number(s));
            Depay(ps, st, Packet(Number(s), false, d)) == Step(after, None) && Next(after, s + 1)
  {
    FragmentFields(d, unit, 0);
    assert lead + [0, 0, 0, 0] + unit[..k] + unit[k..m] == lead + [0, 0, 0, 0] + unit[..m];
  }

  // Writing the size completes the unit.
  lemma SizePut(lead: Data, unit: Data, k: nat)
    requires k <= |unit|
    ensures var b := Partial(lead, unit, k) + unit[k..];
            |b| == |lead| + 4 + |unit| && PutAt(b, |lead|, |unit| % 0x1_0000_0000) == lead + Prefixed(unit)
  {
    var b, size := Partial(lead, unit, k) + unit[k..], Put32(|unit| % 0x1_0000_0000);
    hide Put32;
    assert b[..|lead|] == lead && b[|lead| + 4..] == unit;
    assert PutAt(b, |lead|, |unit| % 0x1_0000_0000) == lead + (size + unit);
  }

  lemma LastFragment(ps: Data, st: State, s: nat, mark: bool, d: Data, unit: Data, lead: Data, k: nat)
    requires IsFragment(d, unit, 1) && Next(st, s) && k <= |unit| && d[3..] == unit[k..]
    requires st.buf == Partial(lead, unit, k) && st.nuStart == |lead|
    ensures Fed(DepayAll(ps, st, Packetize(s, [d], mark)), lead + Prefixed(unit), s + 1, mark)
  {
    hide Put32, Prefixed, Partial, PutAt, DepayAll, Packetize;
    PacketizeOne(ps, st, s, d, mark);
    FragmentFields(d, unit, 1);
    NextNumber(State([], 0, Number(s)), s);
    SizePut(lead, unit, k);
  }

  // One more packet in front of a list that is received in order.
  lemma FedFront(ps: Data, st: State, s: nat, packets: seq<Data>, end: nat, after: State, buf: Data, mark: bool)
    requires |packets| >= 2 && Depay(ps, st, Packet(Number(s), false, packets[0])) == Step(after, None)
    requires Fed(DepayAll(ps, after, Packetize(s + 1, packets[1..], mark)), buf, end, mark)
    ensures Fed(DepayAll(ps, st, Packetize(s, packets, mark)), buf, end, mark)
  {
    hide Number, Depay, DepayAll, Packetize, Next, Fed;
    assert packets == [packets[0]] + packets[1..];
    PacketizeFront(s, packets[0], packets[1..], mark);
    DepayFront(ps, st, Packet(Number(s), false, packets[0]), Packetize(s + 1, packets[1..], mark));
  }

  // The fragments after the first.
  lemma {:induction false} LaterFragments(ps: Data, st: State, s: nat, unit: Data, k: nat, max: nat,
                                          end: nat, buf: Data, mark: bool)
    requires 2 <= k < |unit| && max > 0 && Next(st, s) && end == s + |From(unit, k, max, false)|
    requires exists lead :: buf == lead + Prefixed(unit) && st == State(Partial(lead, unit, k), |lead|, st.seqNum)
    ensures Fed(DepayAll(ps, st, Packetize(s, From(unit, k, max, false), mark)), buf, end, mark)
    decreases |unit| - k
  {
    var lead :| buf == lead + Prefixed(unit) && st == State(Partial(lead, unit, k), |lead|, st.seqNum);
    var m, fus := Upto(unit, k, max), From(unit, k, max, false);
    HeadFragment(unit, k, max, false);
    hide Number, From, Upto, Prefixed, Depay, DepayAll, Packetize, IsFragment, Partial, Next, Fed;
    if m == |unit| {
      NoFragments(unit, max);
      assert unit[k..m] == unit[k..];
      assert fus == [fus[0]];
      LastFragment(ps, st, s, mark, fus[0], unit, lead, k);
    } else {
      HeadFragment(unit, m, max, false);
      MiddleFragment(ps, st, s, fus[0], unit, lead, k, m);
      var st' := State(Partial(lead, unit, m), |lead|, Number(s));
      LaterFragments(ps, st', s + 1, unit, m, max, end, buf, mark);
      FedFront(ps, st, s, fus, end, st', buf, mark);
    }
  }

  lemma NoFragments(unit: Data, max: nat)
    requires |unit| >= 2 && max > 0
    ensures From(unit, |unit|, max, false) == []
  {
  }

  lemma AllFragmentsFed(ps: Data, st: State, s: nat, unit: Data, max: nat, end: nat, buf: Data, mark: bool)
    requires |unit| > max + 2 && max > 0 && Next(st, s)
    requires end == s + |From(unit, 2, max, true)| && buf == Lead(ps, st.buf, unit) + Prefixed(unit)
    ensures Fed(DepayAll(ps, st, Packetize(s, From(unit, 2, max, true), mark)), buf, end, mark)
  {
    var m, fus, lead := Upto(unit, 2, max), From(unit, 2, max, true), Lead(ps, st.buf, unit);
    assert m < |unit|;
    HeadFragment(unit, 2, max, true);
    HeadFragment(unit, m, max, false);
    hide Number, From, Upto, Prefixed, Depay, DepayAll, Packetize, IsFragment, Partial, Next, Fed, Lead;
    FirstFragment(ps, st, s, fus[0], unit, m);
    var st' := State(Partial(lead, unit, m), |lead|, Number(s));
    LaterFragments(ps, st', s + 1, unit, m, max, end, buf, mark);
    FedFront(ps, st, s, fus, end, st', buf, mark);
  }

  // A fragmented unit is collected whole.
  lemma Fragmented(ps: Data, st: State, s: nat, unit: Data, mtu: uint16, mark: bool)
    requires |unit| > mtu > 3 && Next(st, s)
    ensures var fus := P.AllFragments(unit, mtu);
            Fed(DepayAll(ps, st, Packetize(s, fus, mark)), Lead(ps, st.buf, unit) + Prefixed(unit), s + |fus|, mark)
  {
    hide Number, Prefixed, DepayAll, Packetize, Next, Fed, Lead;
    var fus := From(unit, 2, mtu - 3, true);
    assert fus == P.AllFragments(unit, mtu);
    hide P.AllFragments, From;
    AllFragmentsFed(ps, st, s, unit, mtu - 3, s + |fus|, Lead(ps, st.buf, unit) + Prefixed(unit), mark);
  }

  // ---- The contents of the packets ------------------------------------------------------

  // The units as RTPDepay sees them: an aggregation packet counts as one.
  function ContentUnit(buffered: seq<Data>, mtu: uint16, unit: Data): (s: P.State)
    requires P.Headed(buffered) && (unit == [] || |unit| >= 2)
    ensures P.Headed(s.buffered)
  {
    if unit == [] then P.State([], buffered)
    else if |unit| <= mtu then
      if P.Size(buffered) + |unit| + 2 > mtu then P.State(P.Flushed(buffered), [unit])
      else P.State([], buffered + [unit])
    else P.State(P.Flushed(buffered) + [unit], [])
  }

  function Contents(mtu: uint16, units: seq<Data>): (s: P.State)
    requires P.Headed(units)
    ensures P.Headed(s.buffered)
    decreases |units|
  {
    if units == [] then P.State([], [])
    else
      var before := Contents(mtu, units[..|units| - 1]);
      var last := ContentUnit(before.buffered, mtu, units[|units| - 1]);
      P.State(before.payloads + last.payloads, last.buffered)
  }

  function AllContents(mtu: uint16, units: seq<Data>): seq<Data>
    requires P.Headed(units)
  {
    var s := Contents(mtu, units);
    s.payloads + P.Flushed(s.buffered)
  }

  // NAL units that can be sent and seen again: a header and a byte, and not the
  // type that the receiver takes for a fragment.
  predicate Sendable(units: seq<Data>) {
    forall i :: 0 <= i < |units| ==> 3 <= |units[i]| < 0x1_0000_0000 && UnitType(units[i]) != FU
  }

  // The data in front of the first unit.
  function LeadOf(ps: Data, mtu: uint16, units: seq<Data>): Data
    requires P.Headed(units)
  {
    if units != [] && |units[0]| > mtu then Lead(ps, [], units[0]) else []
  }

  // What has been collected when the packets sent so far have been received.
  ghost predicate SoFar(ps: Data, mtu: uint16, units: seq<Data>, run: Run, s: nat)
    requires P.Headed(units)
  {
    Fed(run, LeadOf(ps, mtu, units) + Join(Contents(mtu, units).payloads), s, false)
  }

  lemma {:induction false} JoinAppend(a: seq<Data>, b: seq<Data>)
    ensures Join(a + b) == Join(a) + Join(b)
    decreases |a|
  {
    hide Prefixed;
    if a == [] {
      assert a + b == b;
    } else {
      assert (a + b)[0] == a[0] && (a + b)[1..] == a[1..] + b;
      JoinAppend(a[1..], b);
    }
  }

  lemma JoinOne(unit: Data)
    requires unit != []
    ensures Join([unit]) == Prefixed(unit)
  {
    hide Prefixed;
    assert [unit][1..] == [];
    assert Prefixed(unit) + [] == Prefixed(unit);
  }

  // What is held back is either nothing or one plain packet.
  lemma FlushedPlain(buffered: seq<Data>, mtu: uint16)
    requires P.Together(buffered, mtu) && buffered != [] && Sendable(buffered)
    ensures |P.Flushed(buffered)| == 1 && Plain(P.Flushed(buffered)[0])
    ensures |buffered| >= 2 ==> UnitType(P.Flushed(buffered)[0]) == P.AP && |P.Flushed(buffered)[0]| < 0x1_0003
  {
    if |buffered| >= 2 {
      hide P.Aggregates;
      P.ApHeaderFields(buffered);
      P.SizeOfAggregates(buffered);
    }
  }

  // Collecting what was held back.
  lemma Flush(ps: Data, st: State, s: nat, mtu: uint16, buffered: seq<Data>)
    requires P.Together(buffered, mtu) && Sendable(buffered) && Next(st, s)
    ensures var c := P.Flushed(buffered);
            Fed(DepayAll(ps, st, Packetize(s, c, false)), st.buf + Join(c), s + |c|, false)
  {
    var c := P.Flushed(buffered);
    if buffered == [] {
      assert Packetize(s, c, false) == [] && st.buf + [] == st.buf;
      assert DepayAll(ps, st, []) == Run(st, []);
    } else {
      FlushedPlain(buffered, mtu);
      assert c == [c[0]];
      hide P.Flushed, DepayAll, Plain, Prefixed, P.Together;
      One(ps, st, s, c[0], false);
      JoinOne(c[0]) by { FlushedPlain(buffered, mtu); PlainNonEmpty(c[0]); }
    }
  }

  lemma PlainNonEmpty(c: Data)
    requires Plain(c)
    ensures c != []
  {
  }

  // Buffers of the payloader and of Contents agree.
  lemma {:induction false} SameBuffer(mtu: uint16, units: seq<Data>)
    requires mtu > 3 && Sendable(units)
    ensures P.Headed(units) && P.AllPayable(units, mtu)
    ensures P.AddUnits(mtu, false, units).buffered == Contents(mtu, units).buffered
    ensures P.Together(Contents(mtu, units).buffered, mtu) && Sendable(Contents(mtu, units).buffered)
    decreases |units|
  {
    hide P.Flushed, P.AllFragments, UnitType, P.Type, P.Together;
    if units != [] {
      var front, last := units[..|units| - 1], units[|units| - 1];
      assert forall i :: 0 <= i < |front| ==> front[i] == units[i];
      SameBuffer(mtu, front);
      if |last| <= mtu {
        P.StillTogether(Contents(mtu, front).buffered, mtu, last);
      } else {
        P.NothingHeld(mtu);
      }
    } else {
      P.NothingHeld(mtu);
    }
  }

  // Something is collected or held as soon as a unit was sent.
  lemma {:induction false} NotNothing(mtu: uint16, units: seq<Data>)
    requires mtu > 3 && Sendable(units) && P.Headed(units)
    ensures units != [] ==> Contents(mtu, units).payloads != [] || Contents(mtu, units).buffered != []
    ensures NoneEmpty(Contents(mtu, units).payloads)
    decreases |units|
  {
    hide UnitType, P.Flushed;
    if units != [] {
      var front, last := units[..|units| - 1], units[|units| - 1];
      assert forall i :: 0 <= i < |front| ==> front[i] == units[i];
      NotNothing(mtu, front);
      SameBuffer(mtu, front);
      FlushedNotEmpty(Contents(mtu, front).buffered, mtu);
    }
  }

  predicate NoneEmpty(units: seq<Data>) {
    forall i :: 0 <= i < |units| ==> units[i] != []
  }

  lemma FlushedNotEmpty(buffered: seq<Data>, mtu: uint16)
    requires P.Together(buffered, mtu) && Sendable(buffered)
    ensures NoneEmpty(P.Flushed(buffered)) && (buffered == [] <==> P.Flushed(buffered) == [])
  {
    if buffered != [] {
      FlushedPlain(buffered, mtu);
    }
  }

  lemma {:induction false} JoinEmpties(units: seq<Data>)
    requires NoneEmpty(units)
    ensures Join(units) == [] <==> units == []
  {
  }

  // ---- All but the last packet -------------------------------------------------------

  // The data collected from the packets of the first units.
  function Gathered(ps: Data, mtu: uint16, units: seq<Data>): Data
    requires P.Headed(units)
  {
    LeadOf(ps, mtu, units) + Join(Contents(mtu, units).payloads)
  }

  // From state st, packets numbered from s on with these payloads leave this
  // data: in the buffer, or emitted if the last has the marker.
  predicate Arrive(ps: Data, st: State, s: nat, payloads: seq<Data>, buf: Data, mark: bool) {
    Fed(DepayAll(ps, st, Packetize(s, payloads, mark)), buf, s + |payloads|, mark)
  }

  // Two lists after each other; t is the number of the first of the second.
  lemma ArriveThen(ps: Data, st: State, s: nat, a: seq<Data>, t: nat, b: seq<Data>, mid: Data, buf: Data, mark: bool)
    requires b != [] && t == s + |a| && Arrive(ps, st, s, a, mid, false)
    requires forall st': State :: st'.buf == mid && Next(st', t) ==> Arrive(ps, st', t, b, buf, mark)
    ensures Arrive(ps, st, s, a + b, buf, mark)
  {
    hide Number, DepayAll, Packetize, Next;
    PacketizeAppend(s, a, b, mark);
    DepayAppend(ps, st, Packetize(s, a, false), Packetize(t, b, mark));
    var st' := DepayAll(ps, st, Packetize(s, a, false)).state;
    assert st'.buf == mid && Next(st', t);
    assert Arrive(ps, st', t, b, buf, mark);
  }

  // Flushing what was held.
  lemma FlushArrives(ps: Data, st: State, s: nat, mtu: uint16, sent: seq<Data>, buffered: seq<Data>, before: Data, contents: seq<Data>)
    requires P.Together(buffered, mtu) && Sendable(buffered)
    requires Arrive(ps, st, s, sent, before + Join(contents), false)
    ensures var c := P.Flushed(buffered); Arrive(ps, st, s, sent + c, before + Join(contents + c), false)
  {
    var c := P.Flushed(buffered);
    if c == [] {
      assert sent + c == sent && contents + c == contents;
    } else {
      JoinAppend(contents, c);
      var mid, buf, t := before + Join(contents), before + Join(contents + c), s + |sent|;
      assert mid + Join(c) == buf;
      hide P.Flushed, P.Together, Sendable, Join, Next, Arrive;
      forall st': State | st'.buf == mid && Next(st', t) ensures Arrive(ps, st', t, c, buf, false) {
        FlushAlone(ps, st', t, mtu, buffered);
      }
      ArriveThen(ps, st, s, sent, t, c, mid, buf, false);
    }
  }

  lemma FlushAlone(ps: Data, st: State, s: nat, mtu: uint16, buffered: seq<Data>)
    requires P.Together(buffered, mtu) && Sendable(buffered) && Next(st, s)
    ensures Arrive(ps, st, s, P.Flushed(buffered), st.buf + Join(P.Flushed(buffered)), false)
  {
    Flush(ps, st, s, mtu, buffered);
  }

  lemma FragmentsAlone(ps: Data, st: State, s: nat, unit: Data, mtu: uint16, mark: bool)
    requires |unit| > mtu > 3 && Next(st, s)
    ensures Arrive(ps, st, s, P.AllFragments(unit, mtu), Lead(ps, st.buf, unit) + Prefixed(unit), mark)
  {
    Fragmented(ps, st, s, unit, mtu, mark);
  }

  lemma LeadKept(ps: Data, mtu: uint16, front: seq<Data>, last: Data)
    requires P.Headed(front + [last]) && |last| >= 2
    ensures P.Headed(front)
    ensures LeadOf(ps, mtu, front + [last]) ==
            if front != [] then LeadOf(ps, mtu, front) else if |last| > mtu then Lead(ps, [], last) else []
  {
    var units := front + [last];
    assert forall i :: 0 <= i < |front| ==> front[i] == units[i];
  }

  lemma ContentsSnoc(mtu: uint16, front: seq<Data>, last: Data)
    requires P.Headed(front + [last])
    ensures P.Headed(front) && |last| >= 2
    ensures var b := Contents(mtu, front); var t := ContentUnit(b.buffered, mtu, last);
            Contents(mtu, front + [last]) == P.State(b.payloads + t.payloads, t.buffered)
  {
    var units := front + [last];
    assert units[..|units| - 1] == front && units[|units| - 1] == last;
    assert forall i :: 0 <= i < |front| ==> front[i] == units[i];
  }

  // The data in front of a fragmented unit, and what it becomes.
  lemma GatheredFragments(ps: Data, mtu: uint16, front: seq<Data>, last: Data)
    requires mtu > 3 && Sendable(front + [last]) && P.Headed(front + [last]) && |last| > mtu
    ensures P.Headed(front)
    ensures var e := Contents(mtu, front); var before := LeadOf(ps, mtu, front) + Join(e.payloads + P.Flushed(e.buffered));
            Lead(ps, before, last) + Prefixed(last) == Gathered(ps, mtu, front + [last])
  {
    hide Prefixed, P.Flushed, P.Together, P.Size, LeadOf, Join, Contents;
    ContentsSnoc(mtu, front, last);
    LeadKept(ps, mtu, front, last);
    var e := Contents(mtu, front);
    var c := P.Flushed(e.buffered);
    var lead, joined := LeadOf(ps, mtu, front), Join(e.payloads + c);
    assert Sendable(front) by { assert forall i :: 0 <= i < |front| ==> front[i] == (front + [last])[i]; }
    assert Join(Contents(mtu, front + [last]).payloads) == joined + Prefixed(last) by {
      hide Prefixed, P.Flushed, LeadOf, Lead;
      assert e.payloads + c + [last] == e.payloads + (c + [last]);
      JoinAppend(e.payloads + c, [last]);
      JoinOne(last);
    }
    if front == [] {
      NothingGathered(ps, mtu);
      assert e.payloads + c == [];
      assert joined + Prefixed(last) == Prefixed(last);
    } else {
      NotNothing(mtu, front);
      SameBuffer(mtu, front);
      hide Prefixed, P.Flushed, P.Together, Sendable, LeadOf;
      FlushedNotEmpty(e.buffered, mtu);
      JoinEmpties(e.payloads + c);
      assert lead + joined + Prefixed(last) == lead + (joined + Prefixed(last));
    }
  }

  lemma NothingGathered(ps: Data, mtu: uint16)
    ensures LeadOf(ps, mtu, []) == [] && Contents(mtu, []) == P.State([], []) && P.Flushed([]) == [] && Join([]) == []
  {
  }

  // A unit that is fragmented, after what was held.
  lemma SomeFragments(unit: Data, mtu: uint16)
    requires |unit| > mtu > 3
    ensures P.AllFragments(unit, mtu) != []
  {
  }

  lemma FragmentsArrive(ps: Data, st: State, s: nat, mtu: uint16, sent: seq<Data>, front: seq<Data>, last: Data, mark: bool)
    requires mtu > 3 && Sendable(front + [last]) && P.Headed(front + [last]) && |last| > mtu
    requires P.Headed(front) && Arrive(ps, st, s, sent, Gathered(ps, mtu, front), false)
    ensures Arrive(ps, st, s, sent + P.Flushed(Contents(mtu, front).buffered) + P.AllFragments(last, mtu),
                   Gathered(ps, mtu, front + [last]), mark)
  {
    hide P.Flushed, P.AllFragments, P.Together, LeadOf, Lead, Contents, Arrive, Next, Join, Prefixed;
    assert Sendable(front) by { assert forall i :: 0 <= i < |front| ==> front[i] == (front + [last])[i]; }
    SameBuffer(mtu, front);
    GatheredFragments(ps, mtu, front, last);
    var e, buf := Contents(mtu, front), Gathered(ps, mtu, front + [last]);
    var c, fus, lead := P.Flushed(e.buffered), P.AllFragments(last, mtu), LeadOf(ps, mtu, front);
    var mid, t := lead + Join(e.payloads + c), s + |sent + c|;
    SomeFragments(last, mtu);
    assert Gathered(ps, mtu, front) == lead + Join(e.payloads);
    hide Sendable, Gathered;
    FlushArrives(ps, st, s, mtu, sent, e.buffered, lead, e.payloads);
    forall st': State | st'.buf == mid && Next(st', t) ensures Arrive(ps, st', t, fus, buf, mark) {
      FragmentsAlone(ps, st', t, last, mtu, mark);
    }
    ArriveThen(ps, st, s, sent + c, t, fus, mid, buf, mark);
  }

  // A unit that is held, perhaps after others were flushed.
  lemma SmallArrives(ps: Data, st: State, s: nat, mtu: uint16, sent: seq<Data>, front: seq<Data>, last: Data)
    requires mtu > 3 && Sendable(front + [last]) && P.Headed(front + [last]) && 2 <= |last| <= mtu
    requires P.Headed(front) && Arrive(ps, st, s, sent, Gathered(ps, mtu, front), false)
    ensures Arrive(ps, st, s, sent + ContentUnit(Contents(mtu, front).buffered, mtu, last).payloads,
                   Gathered(ps, mtu, front + [last]), false)
  {
    assert Sendable(front) by { assert forall i :: 0 <= i < |front| ==> front[i] == (front + [last])[i]; }
    SameBuffer(mtu, front);
    ContentsSnoc(mtu, front, last);
    LeadKept(ps, mtu, front, last);
    var e := Contents(mtu, front);
    var t := ContentUnit(e.buffered, mtu, last).payloads;
    assert front == [] ==> LeadOf(ps, mtu, front) == [];
    assert Gathered(ps, mtu, front + [last]) == LeadOf(ps, mtu, front) + Join(e.payloads + t);
    if t == [] {
      assert sent + t == sent && e.payloads + t == e.payloads;
    } else {
      hide P.Flushed, P.Together, Sendable, LeadOf, Lead, Contents, DepayAll, Packetize, Next, Fed;
      FlushArrives(ps, st, s, mtu, sent, e.buffered, LeadOf(ps, mtu, front), e.payloads);
    }
  }

  // What one more unit adds to the payloads.
  lemma SentSnoc(mtu: uint16, front: seq<Data>, last: Data)
    requires mtu > 3 && Sendable(front + [last])
    ensures P.Headed(front + [last]) && P.AllPayable(front + [last], mtu) && P.Headed(front) && P.AllPayable(front, mtu)
    ensures var sent, held := P.AddUnits(mtu, false, front).payloads, Contents(mtu, front).buffered;
            P.AddUnits(mtu, false, front + [last]).payloads ==
            if |last| > mtu then sent + P.Flushed(held) + P.AllFragments(last, mtu)
            else sent + ContentUnit(held, mtu, last).payloads
  {
    hide P.Together, P.Flushed, P.AllFragments, Contents, UnitType;
    var units := front + [last];
    assert units[..|units| - 1] == front && units[|units| - 1] == last;
    assert Sendable(front) by { assert forall i :: 0 <= i < |front| ==> front[i] == units[i]; }
    hide Sendable;
    SameBuffer(mtu, units);
    SameBuffer(mtu, front);
    var sent, c := P.AddUnits(mtu, false, front).payloads, P.Flushed(Contents(mtu, front).buffered);
    if |last| > mtu {
      assert sent + (c + P.AllFragments(last, mtu)) == sent + c + P.AllFragments(last, mtu);
    }
  }

  // All the packets of the first units, without a marker.
  lemma {:induction false} UnitsArrive(ps: Data, st: State, s: nat, mtu: uint16, units: seq<Data>)
    requires st.buf == [] && mtu > 3 && Sendable(units)
    requires P.Headed(units) && P.AllPayable(units, mtu)
    ensures Arrive(ps, st, s, P.AddUnits(mtu, false, units).payloads, Gathered(ps, mtu, units), false)
    decreases |units|
  {
    if units == [] {
      NothingGathered(ps, mtu);
      assert Packetize(s, [], false) == [];
    } else {
      var front, last := units[..|units| - 1], units[|units| - 1];
      assert front + [last] == units;
      assert Sendable(front) by { assert forall i :: 0 <= i < |front| ==> front[i] == units[i]; }
      assert |last| >= 2;
      SentSnoc(mtu, front, last);
      hide Sendable, P.AddUnits, P.AllPayable, P.Headed, Gathered, Arrive, Contents, ContentUnit, P.Flushed, P.AllFragments;
      UnitsArrive(ps, st, s, mtu, front);
      var sent := P.AddUnits(mtu, false, front).payloads;
      if |last| > mtu {
        FragmentsArrive(ps, st, s, mtu, sent, front, last, false);
      } else {
        SmallArrives(ps, st, s, mtu, sent, front, last);
      }
    }
  }

  // ---- An access unit ----------------------------------------------------------------

  // The last packet is a short parameter set or supplemental information, on
  // its own: RTPDepay does not take it for the end of the access unit.
  predicate Swallowed(mtu: uint16, units: seq<Data>)
    requires P.Headed(units)
  {
    var held := Contents(mtu, units).buffered;
    held != [] && Swallows(P.Flushed(held)[0])
  }

  // The access unit that comes out: what is in front of the first unit, and
  // the contents of the packets.
  function Collectible(ps: Data, mtu: uint16, units: seq<Data>): Data
    requires P.Headed(units)
  {
    LeadOf(ps, mtu, units) + Join(AllContents(mtu, units))
  }

  lemma EndsInFragments(ps: Data, st: State, s: nat, mtu: uint16, units: seq<Data>)
    requires st.buf == [] && mtu > 3 && Sendable(units) && units != [] && P.Headed(units) && P.AllPayable(units, mtu)
    requires Contents(mtu, units).buffered == [] == P.AddUnits(mtu, false, units).buffered
    ensures Arrive(ps, st, s, P.Payloads(mtu, false, units), Collectible(ps, mtu, units), true)
  {
    var front, last := units[..|units| - 1], units[|units| - 1];
    assert front + [last] == units;
    assert Sendable(front) by { assert forall i :: 0 <= i < |front| ==> front[i] == units[i]; }
    NothingHeldLast(ps, mtu, units);
    SentSnoc(mtu, front, last);
    hide Sendable, P.Payloads, P.AddUnits, P.AllPayable, P.Headed, Collectible, Gathered, Arrive, Contents, P.Flushed, P.AllFragments;
    UnitsArrive(ps, st, s, mtu, front);
    FragmentsArrive(ps, st, s, mtu, P.AddUnits(mtu, false, front).payloads, front, last, true);
  }

  lemma NothingHeldLast(ps: Data, mtu: uint16, units: seq<Data>)
    requires units != [] && P.Headed(units) && P.AllPayable(units, mtu)
    requires Contents(mtu, units).buffered == [] == P.AddUnits(mtu, false, units).buffered
    ensures |units[|units| - 1]| > mtu
    ensures P.Payloads(mtu, false, units) == P.AddUnits(mtu, false, units).payloads
    ensures Collectible(ps, mtu, units) == Gathered(ps, mtu, units)
  {
    var all, e := P.AddUnits(mtu, false, units).payloads, Contents(mtu, units).payloads;
    assert all + [] == all && e + [] == e;
    ContentsCounted(mtu, units);
    hide NoSharing, Contents, P.AddUnits, LeadOf, Join;
  }

  // The last packet, with the marker.
  lemma LastPacket(ps: Data, st: State, s: nat, sent: seq<Data>, c: Data, mid: Data)
    requires Arrive(ps, st, s, sent, mid, false) && Plain(c)
    ensures var run := DepayAll(ps, st, Packetize(s, sent + [c], true));
            && run.Run?
            && run.aus == (if Swallows(c) then [] else [mid + Prefixed(c)])
            && (run.aus != [] ==> run.state.buf == [])
  {
    var before := DepayAll(ps, st, Packetize(s, sent, false));
    assert before.Run? && before.aus == [] && before.state.buf == mid && Next(before.state, s + |sent|);
    hide Depay, DepayAll, Packetize, Next, Swallows, Plain, Prefixed;
    One(ps, before.state, s + |sent|, c, true);
    PacketizeAppend(s, sent, [c], true);
    DepayAppend(ps, st, Packetize(s, sent, false), Packetize(s + |sent|, [c], true));
  }

  lemma EndsInPacket(ps: Data, st: State, s: nat, mtu: uint16, units: seq<Data>)
    requires st.buf == [] && mtu > 3 && Sendable(units) && units != [] && P.Headed(units) && P.AllPayable(units, mtu)
    requires Contents(mtu, units).buffered != []
    ensures var run := DepayAll(ps, st, Packetize(s, P.Payloads(mtu, false, units), true));
            && run.Run?
            && run.aus == (if Swallowed(mtu, units) then [] else [Collectible(ps, mtu, units)])
            && (run.aus != [] ==> run.state.buf == [])
  {
    SameBuffer(mtu, units);
    var e, sent := Contents(mtu, units), P.AddUnits(mtu, false, units).payloads;
    FlushedPlain(e.buffered, mtu);
    var c := P.Flushed(e.buffered)[0];
    assert P.Flushed(e.buffered) == [c];
    assert P.Payloads(mtu, false, units) == sent + [c];
    assert Gathered(ps, mtu, units) + Prefixed(c) == Collectible(ps, mtu, units) by {
      hide P.Flushed, Plain, Prefixed;
      JoinAppend(e.payloads, [c]);
      JoinOne(c) by { PlainNonEmpty(c); }
      assert LeadOf(ps, mtu, units) + Join(e.payloads) + Prefixed(c) == LeadOf(ps, mtu, units) + (Join(e.payloads) + Prefixed(c));
    }
    hide P.Flushed, P.Payloads, P.AddUnits, Gathered, Collectible, Contents, Arrive, Plain, DepayAll, Packetize, Swallows;
    UnitsArrive(ps, st, s, mtu, units);
    LastPacket(ps, st, s, sent, c, Gathered(ps, mtu, units));
  }

  // The packets of one access unit, received in order: exactly one access
  // unit comes out, or none.
  lemma AccessUnit(ps: Data, st: State, s: nat, mtu: uint16, units: seq<Data>)
    requires st.buf == [] && mtu > 3 && Sendable(units) && units != []
    ensures P.Headed(units) && P.AllPayable(units, mtu)
    ensures var run := DepayAll(ps, st, Packetize(s, P.Payloads(mtu, false, units), true));
            && run.Run?
            && run.aus == (if Swallowed(mtu, units) then [] else [Collectible(ps, mtu, units)])
            && (run.aus != [] ==> run.state.buf == [])
  {
    SameBuffer(mtu, units);
    var held := Contents(mtu, units).buffered;
    if held == [] {
      EndsInFragments(ps, st, s, mtu, units);
    } else {
      EndsInPacket(ps, st, s, mtu, units);
    }
  }

  // ---- When it is the same ---------------------------------------------------------------

  // No two neighbours are small enough to share an aggregation packet.
  predicate NoSharing(mtu: uint16, units: seq<Data>) {
    forall i :: 0 <= i < |units| - 1 ==>
      |units[i]| > mtu || |units[i + 1]| > mtu || |units[i]| + |units[i + 1]| + 4 > mtu
  }

  function Count(s: P.State): nat {
    |s.payloads| + (if s.buffered == [] then 0 else 1)
  }

  // The units that are held end in the last unit, if that is small.
  predicate HeldLast(mtu: uint16, units: seq<Data>, held: seq<Data>) {
    && (held != [] <==> units != [] && |units[|units| - 1]| <= mtu)
    && (held != [] ==> held[|held| - 1] == units[|units| - 1])
  }

  // Without sharing each unit keeps to itself; otherwise some packet holds
  // more than one.
  predicate Counted(mtu: uint16, units: seq<Data>, s: P.State) {
    && HeldLast(mtu, units, s.buffered)
    && if NoSharing(mtu, units) then s.payloads + s.buffered == units && |s.buffered| <= 1 else Count(s) < |units|
  }

  lemma NoSharingSnoc(mtu: uint16, front: seq<Data>, last: Data)
    ensures NoSharing(mtu, front + [last]) <==>
            NoSharing(mtu, front) &&
            (front == [] || |front[|front| - 1]| > mtu || |last| > mtu || |front[|front| - 1]| + |last| + 4 > mtu)
  {
    var units := front + [last];
    assert forall i :: 0 <= i < |front| ==> front[i] == units[i];
    assert units[|front|] == last;
    if NoSharing(mtu, units) && front != [] {
      var i := |front| - 1;
      assert |units[i]| > mtu || |units[i + 1]| > mtu || |units[i]| + |units[i + 1]| + 4 > mtu;
    }
  }

  lemma CountedSnoc(mtu: uint16, front: seq<Data>, last: Data, s: P.State)
    requires P.Headed(s.buffered) && |last| >= 2 && Counted(mtu, front, s)
    ensures var t := ContentUnit(s.buffered, mtu, last);
            Counted(mtu, front + [last], P.State(s.payloads + t.payloads, t.buffered))
  {
    NoSharingSnoc(mtu, front, last);
    var units, t, b := front + [last], ContentUnit(s.buffered, mtu, last), s.buffered;
    assert units[|units| - 1] == last;
    assert |b| == 1 ==> b[..0] == [] && b == [b[0]];
    assert b != [] ==> P.Size(b) >= |b[|b| - 1]| + 2;
    hide NoSharing, P.ApPacket;
    if |last| > mtu {
      assert NoSharing(mtu, front) ==> s.payloads + (P.Flushed(b) + [last]) == units;
    } else if P.Size(b) + |last| + 2 > mtu {
      assert |b| == 1 ==> P.Size(b) == |b[0]| + 2;
      assert NoSharing(mtu, front) ==> s.payloads + P.Flushed(b) + [last] == units;
    } else {
      assert s.payloads + [] == s.payloads;
      assert b == [] && NoSharing(mtu, front) ==> s.payloads + (b + [last]) == units;
    }
  }

  lemma {:induction false} ContentsCounted(mtu: uint16, units: seq<Data>)
    requires P.Headed(units)
    ensures Counted(mtu, units, Contents(mtu, units))
    decreases |units|
  {
    if units != [] {
      var front, last := units[..|units| - 1], units[|units| - 1];
      assert front + [last] == units;
      assert forall i :: 0 <= i < |front| ==> front[i] == units[i];
      hide Counted, ContentUnit;
      ContentsCounted(mtu, front);
      CountedSnoc(mtu, front, last, Contents(mtu, front));
    }
  }

  // The packets hold the units themselves exactly when none is shared.
  lemma ContentsAreUnits(mtu: uint16, units: seq<Data>)
    requires P.Headed(units)
    ensures AllContents(mtu, units) == units <==> NoSharing(mtu, units)
  {
    ContentsCounted(mtu, units);
    var s := Contents(mtu, units);
    hide NoSharing, Contents, P.ApPacket;
    if NoSharing(mtu, units) {
      assert P.Flushed(s.buffered) == s.buffered;
    }
  }

  lemma {:induction false} JoinInjective(a: seq<Data>, b: seq<Data>)
    requires NoneEmpty(a) && NoneEmpty(b) && Join(a) == Join(b)
    requires forall i :: 0 <= i < |a| ==> |a[i]| < 0x1_0000_0000
    requires forall i :: 0 <= i < |b| ==> |b[i]| < 0x1_0000_0000
    ensures a == b
    decreases |a|
  {
    hide Join;
    JoinEmpties(a);
    JoinEmpties(b);
    if a != [] {
      assert b != [];
      FirstOfJoin(a);
      FirstOfJoin(b);
      JoinInjective(a[1..], b[1..]);
      assert a == [a[0]] + a[1..] && b == [b[0]] + b[1..];
    }
  }

  lemma FirstOfJoin(a: seq<Data>)
    requires a != [] && a[0] != [] && |a[0]| < 0x1_0000_0000
    ensures |Join(a)| >= 4 + |a[0]| && Get32(Join(a)) == |a[0]|
    ensures Join(a)[4..4 + |a[0]|] == a[0] && Join(a)[4 + |a[0]|..] == Join(a[1..])
  {
    var rest := Join(a[1..]);
    Get32Put32(|a[0]|, a[0] + rest);
    hide Get32, Put32;
    assert Join(a) == Put32(|a[0]|) + (a[0] + rest);
  }

  // The last unit on its own is not taken for the end.
  predicate SwallowedLast(mtu: uint16, units: seq<Data>) {
    units != [] && |units[|units| - 1]| <= mtu && Swallows(units[|units| - 1])
  }

  // RTPDepay after RTPPay is the identity on an access unit, but for the
  // stored parameter sets in front of a fragmented intra picture, exactly
  // when no two units share a packet and the last unit does not look like
  // the parameter sets and supplemental information of a broken server.
  lemma RoundTrip(ps: Data, st: State, s: nat, mtu: uint16, units: seq<Data>)
    requires st.buf == [] && mtu > 3 && Sendable(units) && units != []
    ensures P.Headed(units) && P.AllPayable(units, mtu)
    ensures var run := DepayAll(ps, st, Packetize(s, P.Payloads(mtu, false, units), true));
            && run.Run?
            && (run.aus == [LeadOf(ps, mtu, units) + Join(units)] <==> NoSharing(mtu, units) && !SwallowedLast(mtu, units))
            && (run.aus != [] ==> run.state.buf == [])
  {
    AccessUnit(ps, st, s, mtu, units);
    hide P.Payloads, Packetize, DepayAll, Swallowed, SwallowedLast, NoSharing, Collectible, LeadOf, Join, Sendable, P.AllPayable;
    if NoSharing(mtu, units) {
      Unshared(ps, mtu, units);
    } else {
      Shared(ps, mtu, units);
    }
  }

  lemma Unshared(ps: Data, mtu: uint16, units: seq<Data>)
    requires P.Headed(units) && NoSharing(mtu, units)
    ensures Collectible(ps, mtu, units) == LeadOf(ps, mtu, units) + Join(units)
    ensures Swallowed(mtu, units) == SwallowedLast(mtu, units)
  {
    ContentsAreUnits(mtu, units);
    ContentsCounted(mtu, units);
    hide NoSharing, Contents, LeadOf, Join, Swallows, P.ApPacket;
  }

  lemma Shared(ps: Data, mtu: uint16, units: seq<Data>)
    requires mtu > 3 && Sendable(units) && P.Headed(units) && !NoSharing(mtu, units)
    ensures Collectible(ps, mtu, units) != LeadOf(ps, mtu, units) + Join(units)
  {
    ContentsAreUnits(mtu, units);
    ContentsSizes(mtu, units);
    assert NoneEmpty(units);
    var all, lead := AllContents(mtu, units), LeadOf(ps, mtu, units);
    hide Join, NoSharing, AllContents, LeadOf;
    if Join(all) == Join(units) {
      JoinInjective(all, units);
    }
    assert (lead + Join(all))[|lead|..] == Join(all);
    assert (lead + Join(units))[|lead|..] == Join(units);
  }

  lemma {:induction false} ContentsSizes(mtu: uint16, units: seq<Data>)
    requires mtu > 3 && Sendable(units) && P.Headed(units)
    ensures NoneEmpty(AllContents(mtu, units))
    ensures forall i :: 0 <= i < |AllContents(mtu, units)| ==> |AllContents(mtu, units)[i]| < 0x1_0000_0000
  {
    NotNothing(mtu, units);
    PayloadSizes(mtu, units);
    SameBuffer(mtu, units);
    var e := Contents(mtu, units);
    FlushedNotEmpty(e.buffered, mtu);
    if e.buffered != [] {
      FlushedPlain(e.buffered, mtu);
      FlushedSize(e.buffered, mtu);
    }
  }

  lemma FlushedSize(held: seq<Data>, mtu: uint16)
    requires P.Together(held, mtu) && Sendable(held)
    ensures forall i :: 0 <= i < |P.Flushed(held)| ==> |P.Flushed(held)[i]| < 0x1_0000_0000
  {
    if held != [] {
      FlushedPlain(held, mtu);
    }
  }

  lemma UnitSizes(held: seq<Data>, mtu: uint16, unit: Data)
    requires P.Headed(held) && 2 <= |unit| < 0x1_0000_0000
    requires forall i :: 0 <= i < |P.Flushed(held)| ==> |P.Flushed(held)[i]| < 0x1_0000_0000
    ensures var s := ContentUnit(held, mtu, unit); forall i :: 0 <= i < |s.payloads| ==> |s.payloads[i]| < 0x1_0000_0000
  {
    hide P.Flushed;
  }

  lemma {:induction false} PayloadSizes(mtu: uint16, units: seq<Data>)
    requires mtu > 3 && Sendable(units) && P.Headed(units)
    ensures forall i :: 0 <= i < |Contents(mtu, units).payloads| ==> |Contents(mtu, units).payloads[i]| < 0x1_0000_0000
    decreases |units|
  {
    if units != [] {
      var front, last := units[..|units| - 1], units[|units| - 1];
      assert Sendable(front) by { assert forall i :: 0 <= i < |front| ==> front[i] == units[i]; }
      var e := Contents(mtu, front);
      PayloadSizes(mtu, front);
      SameBuffer(mtu, front);
      FlushedSize(e.buffered, mtu);
      assert units == front + [last];
      ContentsSnoc(mtu, front, last);
      UnitSizes(e.buffered, mtu, last);
      hide Contents, ContentUnit, P.Flushed, P.Together, Sendable, P.Headed;
    }
  }

  // ---- A run of access units -------------------------------------------------------------

  predicate Good(mtu: uint16, units: seq<Data>) {
    units != [] && Sendable(units) && NoSharing(mtu, units) && !SwallowedLast(mtu, units)
  }

  function Sent(mtu: uint16, units: seq<Data>): seq<Data> {
    if P.AllPayable(units, mtu) then P.Payloads(mtu, false, units) else []
  }

  // The packets of the access units, numbered one after the other.
  function SendAll(s: nat, mtu: uint16, aus: seq<seq<Data>>): seq<Packet>
    decreases |aus|
  {
    if aus == [] then []
    else
      var first := Sent(mtu, aus[0]);
      Packetize(s, first, true) + SendAll(s + |first|, mtu, aus[1..])
  }

  function Restored(ps: Data, mtu: uint16, units: seq<Data>): Data {
    (if P.Headed(units) then LeadOf(ps, mtu, units) else []) + Join(units)
  }

  // Every access unit of a lossless run comes back, in order.
  lemma {:induction false} RunRoundTrip(ps: Data, st: State, s: nat, mtu: uint16, aus: seq<seq<Data>>)
    requires st.buf == [] && mtu > 3 && forall i :: 0 <= i < |aus| ==> Good(mtu, aus[i])
    ensures var run := DepayAll(ps, st, SendAll(s, mtu, aus));
            run.Run? && run.state.buf == [] && run.aus == seq(|aus|, i requires 0 <= i < |aus| => Restored(ps, mtu, aus[i]))
    decreases |aus|
  {
    hide Depay, DepayAll, Packetize, Sendable, NoSharing, SwallowedLast, P.Payloads, P.AllPayable, LeadOf, Join;
    if aus == [] {
      NoPackets(ps, st);
    } else {
      var first := Sent(mtu, aus[0]);
      RoundTrip(ps, st, s, mtu, aus[0]);
      var run := DepayAll(ps, st, Packetize(s, first, true));
      RunRoundTrip(ps, run.state, s + |first|, mtu, aus[1..]);
      DepayAppend(ps, st, Packetize(s, first, true), SendAll(s + |first|, mtu, aus[1..]));
    }
  }

  lemma NoPackets(ps: Data, st: State)
    ensures DepayAll(ps, st, []) == Run(st, [])
  {
  }
}
