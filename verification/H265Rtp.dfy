// pkg/h265/rtp.go: RTPPay sends access units through the payloader, RTPDepay
// collects them again from packets that may be lost or malformed.

module H265Rtp {
  import opened Bytes
  import opened Nalu
  import P = H265Payloader

  datatype Packet = Packet(seqNum: uint16, marker: bool, payload: Data)

  const PSMaxSize := 128
  const VPS := 32
  const SPS := 33
  const PPS := 34
  const PrefixSEI := 39
  const SuffixSEI := 40
  const FU := 49

  // ---- RTPDepay ------------------------------------------------------------------

  // The variables of the closure: the collected data, where the size of the
  // fragmented unit goes, and the last sequence number.
  datatype State = State(buf: Data, nuStart: nat, seqNum: uint16)

  // What one packet does: a new state and at most one access unit, or a slice
  // index out of range.
  datatype Step = Step(state: State, au: Option<Data>) | Panic

  function UnitType(d: Data): nat
    requires |d| >= 1
  {
    d[0] / 2 % 0x40
  }

  predicate ParameterSet(t: nat) {
    t == VPS || t == SPS || t == PPS
  }

  predicate Sei(t: nat) {
    t == PrefixSEI || t == SuffixSEI
  }

  // Short packets, and short supplemental information with the marker, are
  // dropped before anything else.
  predicate Ignored(p: Packet) {
    |p.payload| < 3 || (p.marker && |p.payload| < PSMaxSize && Sei(UnitType(p.payload)))
  }

  // A short parameter set never ends an access unit.
  predicate Ends(p: Packet)
    requires |p.payload| >= 3
  {
    p.marker && !(|p.payload| < PSMaxSize && ParameterSet(UnitType(p.payload)))
  }

  predicate InSequence(st: State, p: Packet) {
    st.buf == [] || (p.seqNum - st.seqNum) % 0x1_0000 == 1
  }

  // (d0 & 0x81) | t << 1.
  function HeaderByte(d0: byte, t: nat): byte
    requires t < 0x40
  {
    d0 / 0x80 * 0x80 + t * 2 + d0 % 2
  }

  function PutAt(b: Data, at: nat, v: uint32): Data
    requires at + 4 <= |b|
  {
    b[..at] + Put32(v) + b[at + 4..]
  }

  // The data is complete up to a unit; the marker decides.
  function Collected(st: State, p: Packet): Step
    requires |p.payload| >= 3
  {
    if Ends(p) then Step(st.(buf := []), Some(st.buf)) else Step(st, None)
  }

  function Fragment(ps: Data, st: State, p: Packet): Step
    requires |p.payload| >= 3
  {
    var d := p.payload;
    var t := d[2] % 0x40;
    match d[2] / 0x40
    case 2 =>
      var start := if st.buf == [] && 19 <= t <= 21 then ps else st.buf;
      Step(st.(buf := start + [0, 0, 0, 0] + [HeaderByte(d[0], t), d[1]] + d[3..], nuStart := |start|), None)
    case 0 =>
      if st.buf == [] then Step(st, None) else Step(st.(buf := st.buf + d[3..]), None)
    case 1 =>
      var b := st.buf + d[3..];
      if st.buf == [] then Step(st, None)
      else if st.nuStart > |b| + 4 then Step(st.(buf := []), None)
      else if st.nuStart + 4 > |b| then Panic
      else Collected(st.(buf := PutAt(b, st.nuStart, (|b| - st.nuStart - 4) % 0x1_0000_0000)), p)
    case _ =>
      var unit := [HeaderByte(d[0], t), d[1]] + d[3..];
      Collected(st.(buf := st.buf + Put32((|d| - 1) % 0x1_0000_0000) + unit), p)
  }

  function Depay(ps: Data, st: State, p: Packet): Step {
    if Ignored(p) then Step(st, None)
    else if !InSequence(st, p) then Step(st.(buf := []), None)
    else
      var st := st.(seqNum := p.seqNum);
      if UnitType(p.payload) == FU then Fragment(ps, st, p)
      else Collected(st.(buf := st.buf + Prefixed(p.payload)), p)
  }

  // A fragmentation unit with both bits holds a whole unit: a header of type 49
  // with the rest of the unit's header around it, then its own type.
  function WholeInFragment(unit: Data): Data
    requires |unit| >= 2
  {
    [unit[0] / 0x80 * 0x80 + 49 * 2 + unit[0] % 2, unit[1], 0xC0 + unit[0] / 2 % 0x40] + unit[2..]
  }

  // Such a packet adds the unit behind its size, and ends the access unit with
  // the marker, whatever was collected before.
  lemma WholeIsCollected(ps: Data, st: State, unit: Data, seqNum: uint16, marker: bool)
    requires 2 <= |unit| < 0x1_0000_0000
    requires st.buf == [] || (seqNum - st.seqNum) % 0x1_0000 == 1
    ensures var all := st.buf + Put32(|unit|) + unit;
            Depay(ps, st, Packet(seqNum, marker, WholeInFragment(unit)))
            == if marker then Step(State([], st.nuStart, seqNum), Some(all)) else Step(State(all, st.nuStart, seqNum), None)
  {
    hide Put32;
    var d := WholeInFragment(unit);
    WholeHeader(unit[0]);
    assert [unit[0], unit[1]] + d[3..] == unit;
    assert UnitType(d) == FU;
  }

  lemma WholeHeader(b: byte)
    ensures var d0, t := b / 0x80 * 0x80 + 49 * 2 + b % 2, b as int / 2 % 0x40;
            && d0 < 0x100 && d0 / 2 % 0x40 == 49 && (0xC0 + t) / 0x40 == 3 && (0xC0 + t) % 0x40 == t && HeaderByte(d0, t) == b
  {
    var h, t, r := b as int / 0x80, b as int / 2 % 0x40, b as int % 2;
    assert b == h * 0x80 + t * 2 + r;
  }

  // The closure that RTPDepay returns.
  class Depacketizer {
    const ps: Data
    var buf: Data
    var nuStart: nat
    var seqNum: uint16

    constructor (ps: Data)
      ensures this.ps == ps && Current() == State([], 0, 0)
    {
      this.ps, buf, nuStart, seqNum := ps, [], 0, 0;
    }

    ghost function Current(): State
      reads this
    {
      State(buf, nuStart, seqNum)
    }

    method Handle(packet: Packet) returns (au: Option<Data>)
      requires Depay(ps, Current(), packet) != Panic
      modifies this
      ensures Step(Current(), au) == Depay(ps, old(Current()), packet)
    {
      hide Put32, Prefixed;
      var data, marker := packet.payload, packet.marker;
      if |data| < 3 {
        return None;
      }
      var nuType := data[0] / 2 % 0x40;
      if marker && |data| < PSMaxSize {
        if nuType == VPS || nuType == SPS || nuType == PPS {
          marker := false;
        } else if nuType == PrefixSEI || nuType == SuffixSEI {
          return None;
        }
      }
      if |buf| > 0 && (packet.seqNum - seqNum) % 0x1_0000 != 1 {
        buf := [];
        return None;
      }
      seqNum := packet.seqNum;
      if nuType == FU {
        var more := HandleFragment(packet);
        if !more {
          return None;
        }
      } else {
        buf := buf + Prefixed(data);
      }
      if !marker {
        return None;
      }
      au := Some(buf);
      buf := [];
    }

    // The switch on the start and end bits; false where the source returns.
    method HandleFragment(packet: Packet) returns (more: bool)
      requires |packet.payload| >= 3 && Fragment(ps, Current(), packet) != Panic
      modifies this
      ensures var step := Fragment(ps, old(Current()), packet);
              if more then step == Collected(Current(), packet) else step == Step(Current(), None)
    {
      hide Put32;
      var data := packet.payload;
      var nuType := data[2] % 0x40;
      match data[2] / 0x40
      case 2 =>
        if |buf| == 0 && nuType >= 19 && nuType <= 21 {
          buf := buf + ps;
          assert [] + ps == ps;
        }
        nuStart := |buf|;
        buf := buf + [0, 0, 0, 0] + [HeaderByte(data[0], nuType), data[1]] + data[3..];
        return false;
      case 0 =>
        if |buf| != 0 {
          buf := buf + data[3..];
        }
        return false;
      case 1 =>
        if |buf| == 0 {
          return false;
        }
        buf := buf + data[3..];
        if nuStart > |buf| + 4 {
          buf := [];
          return false;
        }
        buf := PutAt(buf, nuStart, (|buf| - nuStart - 4) % 0x1_0000_0000);
        return true;
      case _ =>
        buf := buf + Put32((|data| - 1) % 0x1_0000_0000) + ([HeaderByte(data[0], nuType), data[1]] + data[3..]);
        return true;
    }
  }

  // ---- Any input ------------------------------------------------------------------

  datatype Run = Run(state: State, aus: seq<Data>) | Panicked

  function DepayAll(ps: Data, st: State, packets: seq<Packet>): Run
    decreases |packets|
  {
    if packets == [] then Run(st, [])
    else
      match DepayAll(ps, st, packets[..|packets| - 1])
      case Panicked => Panicked
      case Run(before, aus) =>
        match Depay(ps, before, packets[|packets| - 1])
        case Panic => Panicked
        case Step(after, au) => Run(after, aus + (if au.Some? then [au.value] else []))
  }

  // Packets with consecutive sequence numbers, mod 2^16.
  ghost predicate Consecutive(run: seq<Packet>) {
    forall i :: 0 <= i < |run| - 1 ==> (run[i + 1].seqNum - run[i].seqNum) % 0x1_0000 == 1
  }

  // run is a subsequence of packets.
  ghost predicate From(run: seq<Packet>, packets: seq<Packet>)
    decreases |packets|
  {
    if packets == [] then run == []
    else
      var front, last := packets[..|packets| - 1], packets[|packets| - 1];
      From(run, front) || (run != [] && run[|run| - 1] == last && From(run[..|run| - 1], front))
  }

  // The data collected so far is what the packets of the run alone make, from
  // an empty buffer and the same leftover nuStart.
  ghost predicate Explains(ps: Data, nu: nat, run: seq<Packet>, st: State) {
    && Consecutive(run)
    && (st.buf == [] <==> run == [])
    && (run == [] ==> st.nuStart == nu)
    && (run != [] ==> run[|run| - 1].seqNum == st.seqNum && DepayAll(ps, State([], nu, 0), run) == Run(st, []))
  }

  // With an empty buffer the last sequence number does not matter.
  lemma FreshSequence(ps: Data, st: State, s: uint16, p: Packet)
    requires st.buf == [] && !Ignored(p)
    ensures Depay(ps, st, p) == Depay(ps, st.(seqNum := s), p)
  {
  }

  lemma DepayLast(ps: Data, st: State, run: seq<Packet>, p: Packet)
    requires DepayAll(ps, st, run).Run?
    ensures DepayAll(ps, st, run + [p]) ==
            var before := DepayAll(ps, st, run);
            match Depay(ps, before.state, p)
            case Panic => Panicked
            case Step(after, au) => Run(after, before.aus + (if au.Some? then [au.value] else []))
  {
    assert (run + [p])[..|run|] == run;
  }

  lemma ConsecutiveSnoc(run: seq<Packet>, p: Packet)
    requires Consecutive(run) && (run != [] ==> (p.seqNum - run[|run| - 1].seqNum) % 0x1_0000 == 1)
    ensures Consecutive(run + [p])
  {
  }

  lemma FromSnoc(run: seq<Packet>, packets: seq<Packet>, p: Packet)
    requires From(run, packets)
    ensures From(run, packets + [p]) && From(run + [p], packets + [p]) && From([], packets + [p])
  {
    assert (packets + [p])[..|packets|] == packets && (run + [p])[..|run|] == run;
    FromNothing(packets + [p]);
  }

  lemma {:induction false} FromNothing(packets: seq<Packet>)
    ensures From([], packets)
    decreases |packets|
  {
    if packets != [] { FromNothing(packets[..|packets| - 1]); }
  }

  // What happens to the run at one packet: it is kept, dropped or extended.
  lemma StepExplained(ps: Data, nu: nat, run: seq<Packet>, st: State, p: Packet, packets: seq<Packet>)
      returns (nu': nat, run': seq<Packet>)
    requires Explains(ps, nu, run, st) && Depay(ps, st, p).Step? && From(run, packets)
    ensures Explains(ps, nu', run', Depay(ps, st, p).state) && From(run', packets + [p])
    ensures Depay(ps, st, p).au.Some? ==>
              && Consecutive(run + [p]) && From(run + [p], packets + [p])
              && DepayAll(ps, State([], nu, 0), run + [p]) == Run(Depay(ps, st, p).state, [Depay(ps, st, p).au.value])
  {
    var step := Depay(ps, st, p);
    FromSnoc(run, packets, p);
    if Ignored(p) {
      return nu, run;
    }
    if !InSequence(st, p) {
      return st.nuStart, [];
    }
    assert DepayAll(ps, State([], nu, 0), run).Run? && DepayAll(ps, State([], nu, 0), run).aus == []
      && Depay(ps, DepayAll(ps, State([], nu, 0), run).state, p) == step by {
      if run == [] { FreshSequence(ps, st, 0, p); }
    }
    ConsecutiveSnoc(run, p) by { hide Depay; }
    DepayLast(ps, State([], nu, 0), run, p);
    if step.state.buf == [] {
      return step.state.nuStart, [];
    }
    return nu, run + [p];
  }

  lemma {:induction false} Explained(ps: Data, packets: seq<Packet>) returns (nu: nat, run: seq<Packet>)
    requires DepayAll(ps, State([], 0, 0), packets).Run?
    ensures Explains(ps, nu, run, DepayAll(ps, State([], 0, 0), packets).state) && From(run, packets)
    decreases |packets|
  {
    if packets == [] {
      return 0, [];
    }
    var front, last := packets[..|packets| - 1], packets[|packets| - 1];
    assert front + [last] == packets;
    nu, run := Explained(ps, front);
    hide Explains, From, Depay;
    nu, run := StepExplained(ps, nu, run, DepayAll(ps, State([], 0, 0), front).state, last, front);
  }

  // The access unit is what the packets of the run make by themselves.
  ghost predicate MadeFrom(ps: Data, nu: nat, run: seq<Packet>, au: Data) {
    && Consecutive(run)
    && DepayAll(ps, State([], nu, 0), run).Run?
    && DepayAll(ps, State([], nu, 0), run).aus == [au]
  }

  // Whatever was received, lost or malformed: when packet p completes an
  // access unit, it is made of one run of packets of the input with
  // consecutive sequence numbers that ends in p, and of nothing else.
  lemma UnitFromOneRun(ps: Data, packets: seq<Packet>, p: Packet, au: Data)
    requires DepayAll(ps, State([], 0, 0), packets).Run? && DepayAll(ps, State([], 0, 0), packets + [p]).Run?
    requires DepayAll(ps, State([], 0, 0), packets + [p]).aus == DepayAll(ps, State([], 0, 0), packets).aus + [au]
    ensures exists nu: nat, run ::
              run != [] && run[|run| - 1] == p && From(run, packets + [p]) && MadeFrom(ps, nu, run, au)
  {
    var nu, run := Explained(ps, packets);
    DepayLast(ps, State([], 0, 0), packets, p);
    hide Explains, From, Depay, DepayAll, Consecutive;
    var st := DepayAll(ps, State([], 0, 0), packets).state;
    var step := Depay(ps, st, p);
    assert step.Step? && step.au == Some(au) by {
      var aus := DepayAll(ps, State([], 0, 0), packets).aus;
      if step.Step? && step.au.Some? {
        assert (aus + [step.au.value])[|aus|] == (aus + [au])[|aus|];
      }
    }
    var _, _ := StepExplained(ps, nu, run, st, p, packets);
    assert (run + [p])[|run|] == p && MadeFrom(ps, nu, run + [p], au);
  }

  // A gap while data is collected discards all of it, the packet included.
  lemma GapDiscards(ps: Data, st: State, p: Packet, later: seq<Packet>)
    requires !Ignored(p) && !InSequence(st, p)
    ensures DepayAll(ps, st, [p] + later) == DepayAll(ps, st.(buf := []), later)
  {
    DepayFront(ps, st, p, later);
  }

  lemma {:induction false} DepayFront(ps: Data, st: State, p: Packet, later: seq<Packet>)
    requires Depay(ps, st, p).Step? && Depay(ps, st, p).au == None
    ensures DepayAll(ps, st, [p] + later) == DepayAll(ps, Depay(ps, st, p).state, later)
    decreases |later|
  {
    hide Depay;
    var all := [p] + later;
    if later == [] {
      assert all[..0] == [] && all[0] == p;
      assert DepayAll(ps, st, []) == Run(st, []);
    } else {
      assert all[..|all| - 1] == [p] + later[..|later| - 1] && all[|all| - 1] == later[|later| - 1];
      DepayFront(ps, st, p, later[..|later| - 1]);
    }
  }

  // ---- RTPPay ------------------------------------------------------------------------

  // The payload mtu: the packet mtu without the RTP header; uint16 wraps.
  function PayloadMtu(mtu: uint16): uint16 {
    ((if mtu == 0 then 1472 else mtu) - 12) % 0x1_0000
  }

  function Number(s: nat): uint16 {
    s % 0x1_0000
  }

  // Consecutive numbers from seq0 on; the marker is on the last packet, when
  // it is wanted.
  function Packetize(seq0: nat, payloads: seq<Data>, mark: bool): seq<Packet> {
    seq(|payloads|, i requires 0 <= i < |payloads| =>
      Packet(Number(seq0 + i), mark && i == |payloads| - 1, payloads[i]))
  }

  // The closure that RTPPay returns, for packets that hold an access unit.
  class Packetizer {
    const mtu: uint16
    const payloader: P.Payloader
    var next: uint16 // of the sequencer

    constructor (mtu: uint16, first: uint16)
      ensures this.mtu == PayloadMtu(mtu) && next == first && fresh(payloader) && !payloader.SkipAggregation
    {
      this.mtu := PayloadMtu(mtu);
      payloader := new P.Payloader(false);
      next := first;
    }

    method Handle(payload: Data) returns (packets: seq<Packet>)
      requires !payloader.SkipAggregation && !AvccPanics(payload) && P.AllPayable(Avcc(payload), mtu)
      modifies this`next
      ensures var payloads := P.Payloads(mtu, false, Avcc(payload));
              packets == Packetize(old(next), payloads, true) && next == Number(old(next) + |payloads|)
    {
      hide P.Payloads, Avcc;
      var payloads := payloader.Payload(mtu, payload);
      var last := |payloads| - 1;
      packets := [];
      for i := 0 to |payloads|
        invariant packets == Packetize(old(next), payloads, true)[..i]
        invariant next == Number(old(next) + i)
      {
        var clone := Packet(next, i == last, payloads[i]);
        next := (next + 1) % 0x1_0000;
        packets := packets + [clone];
      }
    }
  }
}
