// pkg/mpegts/muxer.go: the muxer over the bit writer.

module MpegTsMuxer {
  import opened Bytes
  import opened Bits
  import opened MpegTs
  import opened MpegTsFormat
  import opened MpegTsRoundTrip

  // ---- Groups of bits -----------------------------------------------------------------

  ghost predicate Aligned(wr: Writer)
    reads wr
  {
    wr.Valid() && wr.bits == 0 && wr.value == Be(wr.buf)
  }

  // Sixteen bits written from a byte boundary are two bytes.
  lemma SixteenBits(before: Data, after: Data, v: uint16)
    requires |after| == |before| + 2 && Be(after) == Be(before) * 0x1_0000 + v
    ensures after == before + Put16(v)
  {
    var a, b := v / 0x100, v % 0x100;
    BeSnoc(before, a);
    BeSnoc(before + [a], b);
    assert before + [a] + [b] == before + Put16(v);
    hide Be;
    BeInjective(after, before + Put16(v));
  }

  lemma EightBits(before: Data, after: Data, v: byte)
    requires |after| == |before| + 1 && Be(after) == Be(before) * 0x100 + v
    ensures after == before + [v]
  {
    BeSnoc(before, v);
    hide Be;
    BeInjective(after, before + [v]);
  }

  lemma AlignedAgain(wr: Writer, before: Data, bytes: nat)
    requires wr.Valid() && wr.count == 8 * |before| + 8 * bytes
    ensures wr.bits == 0 && |wr.buf| == |before| + bytes && wr.value == Be(wr.buf)
  {
    Pow2Values();
    assert Pow2(0) == 1;
  }

  lemma SmallLows(v: nat)
    ensures Low(7, 3) == 7 && Low(0xF, 4) == 0xF && Low(3, 2) == 3 && Low(0, 2) == 0 && Low(0, 4) == 0 && Low(0, 5) == 0 && Low(0, 10) == 0
    ensures v < 0x2000 ==> Low(v, 13) == v
    ensures Low(v, 10) == v % 0x400
  {
    Pow2Values();
    hide Low, Pow2;
    LowAll(7, 3);
    LowAll(0xF, 4);
    LowAll(3, 2);
    LowAll(0, 2);
    LowAll(0, 4);
    LowAll(0, 5);
    LowAll(0, 10);
    if v < 0x2000 { LowAll(v, 13); }
    var q := LowIs(v, 10);
    DivMod(q, Low(v, 10), 0x400);
  }

  // Three reserved bits and an identifier.
  method WriteReserved3(wr: Writer, v: uint16)
    requires Aligned(wr) && v < 0x2000
    modifies wr
    ensures Aligned(wr) && wr.buf == old(wr.buf) + Put16(0xE000 + v)
  {
    hide Pow2, Low, Be, Put16;
    Pow2Values();
    SmallLows(v);
    ghost var before := wr.buf;
    wr.WriteBits(7, 3);
    wr.WriteBits(v, 13);
    AlignedAgain(wr, before, 2);
    SixteenBits(before, wr.buf, 0xE000 + v);
  }

  // Four reserved bits, two unused bits and a length of zero.
  method WriteReserved4(wr: Writer)
    requires Aligned(wr)
    modifies wr
    ensures Aligned(wr) && wr.buf == old(wr.buf) + Put16(0xF000)
  {
    hide Pow2, Low, Be, Put16;
    Pow2Values();
    SmallLows(0);
    ghost var before := wr.buf;
    wr.WriteBits(0xF, 4);
    wr.WriteBits(0, 2);
    wr.WriteBits(0, 10);
    AlignedAgain(wr, before, 2);
    SixteenBits(before, wr.buf, 0xF000);
  }

  method WriteHeader(wr: Writer, pid: uint16)
    requires Aligned(wr) && pid < 0x2000
    modifies wr
    ensures Aligned(wr) && wr.buf == old(wr.buf) + ([SyncByte] + Put16(0x4000 + pid) + [0x10])
  {
    hide Pow2, Low, Be, Put16;
    Pow2Values();
    SmallLows(pid);
    wr.WriteByte(SyncByte);
    assert wr.value == Be(wr.buf) by { BeSnoc(old(wr.buf), SyncByte); }
    ghost var before := wr.buf;
    wr.WriteBit(0);
    wr.WriteBit(1);
    wr.WriteBit(0);
    wr.WriteBits(pid, 13);
    AlignedAgain(wr, before, 2);
    SixteenBits(before, wr.buf, 0x4000 + pid);
    WriteFlags(wr);
  }

  // No scrambling, no adaptation field, a payload, and counter 0.
  method WriteFlags(wr: Writer)
    requires Aligned(wr)
    modifies wr
    ensures Aligned(wr) && wr.buf == old(wr.buf) + [0x10]
  {
    hide Pow2, Low, Be;
    Pow2Values();
    SmallLows(0);
    ghost var before := wr.buf;
    wr.WriteBits(0, 2);
    wr.WriteBit(0);
    wr.WriteBit(1);
    wr.WriteBits(0, 4);
    AlignedAgain(wr, before, 1);
    EightBits(before, wr.buf, 0x10);
  }

  method WriteLength(wr: Writer, length: uint16)
    requires Aligned(wr)
    modifies wr
    ensures Aligned(wr) && wr.buf == old(wr.buf) + Put16(0xB000 + length % 0x400)
  {
    hide Pow2, Low, Be, Put16;
    Pow2Values();
    SmallLows(length);
    ghost var before := wr.buf;
    wr.WriteBit(1);
    wr.WriteBit(0);
    wr.WriteBits(3, 2);
    wr.WriteBits(0, 2);
    wr.WriteBits(length, 10);
    AlignedAgain(wr, before, 2);
    SixteenBits(before, wr.buf, 0xB000 + length % 0x400);
  }

  method WriteVersion(wr: Writer)
    requires Aligned(wr)
    modifies wr
    ensures Aligned(wr) && wr.buf == old(wr.buf) + [0xC1]
  {
    hide Pow2, Low, Be;
    Pow2Values();
    SmallLows(0);
    ghost var before := wr.buf;
    wr.WriteBits(3, 2);
    wr.WriteBits(0, 5);
    wr.WriteBit(1);
    AlignedAgain(wr, before, 1);
    EightBits(before, wr.buf, 0xC1);
  }

  method WritePSIHeader(wr: Writer, table: byte, size: uint16)
    requires Aligned(wr) && 5 + size + 4 < 0x1_0000
    modifies wr
    ensures Aligned(wr) && wr.buf == old(wr.buf) + ([0, table] + Put16(0xB000 + (9 + size) % 0x400) + Put16(1) + [0xC1, 0, 0])
  {
    hide Be, Put16;
    wr.WriteBytes([0]);
    wr.WriteBytes([table]);
    WriteLength(wr, 5 + size + 4);
    wr.WriteUint16(1);
    WriteVersion(wr);
    wr.WriteBytes([0]);
    wr.WriteBytes([0]);
  }

  // ---- The muxer ------------------------------------------------------------------------

  lemma {:induction false} StreamListSnoc(types: seq<byte>, pid: nat, k: nat)
    requires pid + |types| <= 0x2000 && k < |types|
    ensures StreamList(types[..k + 1], pid) == StreamList(types[..k], pid) + ([types[k]] + Put16(0xE000 + pid + k) + Put16(0xF000))
    decreases |types|
  {
    hide Put16;
    if k == 0 {
      assert types[..1] == [types[0]] && types[..0] == [] && types[..1][1..] == [];
      assert [types[0]] + Put16(0xE000 + pid) + Put16(0xF000) + StreamList([], pid + 1) == [types[0]] + Put16(0xE000 + pid) + Put16(0xF000);
      assert StreamList([], pid) + ([types[0]] + Put16(0xE000 + pid) + Put16(0xF000)) == [types[0]] + Put16(0xE000 + pid) + Put16(0xF000);
    } else {
      StreamListSnoc(types[1..], pid + 1, k - 1);
      assert types[..k + 1][1..] == types[1..][..k] && types[..k][1..] == types[1..][..k - 1];
      Assoc([types[0]] + Put16(0xE000 + pid) + Put16(0xF000), StreamList(types[1..][..k - 1], pid + 1),
            [types[k]] + Put16(0xE000 + pid + k) + Put16(0xF000));
    }
  }

  lemma Assoc(a: Data, b: Data, c: Data)
    ensures a + (b + c) == a + b + c
  {
  }

  // The streams are numbered from Pes0PID, and each is what the calls made of it.
  ghost predicate Consistent(pes: map<uint16, Pes>, types: seq<byte>, calls: seq<Call>) {
    && |types| == |pes| <= 0x1F00
    && (forall pid: uint16 :: pid in pes <==> Pes0PID <= pid < Pes0PID + |types|)
    && (forall pid: uint16 :: pid in pes ==> pes[pid] == MuxPes(types, calls, pid).(streamID := StreamID(types[pid - Pes0PID])))
    && (forall k :: 0 <= k < |calls| ==> calls[k].pid in pes)
  }

  lemma AsManyTypes(pes: map<uint16, Pes>, types: seq<byte>, calls: seq<Call>)
    requires Consistent(pes, types, calls)
    ensures |pes| == |types|
  {
    hide MuxPes;
  }

  lemma TrackAdded(pes: map<uint16, Pes>, types: seq<byte>, calls: seq<Call>, streamType: byte)
    requires Consistent(pes, types, calls) && |pes| < 0x1F00
    ensures Consistent(pes[Pes0PID + |pes| := NewPes(streamType).(streamID := StreamID(streamType))], types + [streamType], calls)
  {
    hide MuxPes, StreamID;
    var pid, more := Pes0PID + |pes|, types + [streamType];
    var after := pes[pid := NewPes(streamType).(streamID := StreamID(streamType))];
    OneMore(pes, pid, after[pid]);
    forall q: uint16 | q in after
      ensures Pes0PID <= q < Pes0PID + |more| && after[q] == MuxPes(more, calls, q).(streamID := StreamID(more[q - Pes0PID]))
    {
      if q == pid {
        NoCalls(more, calls, pid);
      } else {
        MoreTypes(types, calls, q, streamType);
      }
    }
    assert forall q: uint16 :: Pes0PID <= q < Pes0PID + |more| ==> q == pid || q in pes;
    assert forall k :: 0 <= k < |calls| ==> calls[k].pid in after;
  }

  lemma OneMore(pes: map<uint16, Pes>, pid: uint16, p: Pes)
    requires pid !in pes
    ensures |pes[pid := p]| == |pes| + 1
  {
    assert pes[pid := p].Keys == pes.Keys + {pid};
  }

  lemma CallAdded(pes: map<uint16, Pes>, types: seq<byte>, calls: seq<Call>, c: Call, p: Pes)
    requires Consistent(pes, types, calls) && c.pid in pes
    requires p == Sent(pes[c.pid], c.timestamp, c.body)
    ensures Consistent(pes[c.pid := p], types, calls + [c])
  {
    var more := calls + [c];
    assert more[..|calls|] == calls;
    assert (pes[c.pid := p]).Keys == pes.Keys;
    forall q: uint16 | q in pes
      ensures MuxPes(types, more, q) == if q == c.pid then Sent(MuxPes(types, calls, q), c.timestamp, c.body) else MuxPes(types, calls, q)
    {
    }
    hide MuxPes, StreamID, Count;
  }

  class Muxer {
    // What annexb and the checksum table do.
    const annexB: Data -> Data
    const checksum: Data -> uint32
    var pes: map<uint16, Pes>
    ghost var types: seq<byte>
    ghost var calls: seq<Call>

    ghost predicate Valid()
      reads this
    {
      Consistent(pes, types, calls)
    }

    constructor (annexB: Data -> Data, checksum: Data -> uint32)
      ensures Valid() && types == [] && calls == [] && this.annexB == annexB && this.checksum == checksum
    {
      this.annexB, this.checksum, pes, types, calls := annexB, checksum, map[], [], [];
    }

    // The source has no bound; beyond this one the identifiers do not fit.
    method AddTrack(streamType: byte) returns (pid: uint16)
      requires Valid() && |pes| < 0x1F00
      modifies this
      ensures Valid() && types == old(types) + [streamType] && calls == old(calls) && pid == Pes0PID + |old(types)|
    {
      hide MuxPes, Consistent;
      assert |pes| == |types| by { AsManyTypes(pes, types, calls); }
      var p := NewPes(streamType);
      if streamType == H264 || streamType == H265 {
        p := p.(streamID := 0xE0);
      } else if streamType == AAC || streamType == PCMATapo {
        p := p.(streamID := 0xC0);
      }
      pid := Pes0PID + |pes|;
      TrackAdded(pes, types, calls, streamType);
      pes := pes[pid := p];
      types := types + [streamType];
    }

    method GetHeader() returns (b: Data)
      requires Valid()
      ensures b == Pat(checksum) + Pmt(types, checksum)
    {
      var wr := new Writer();
      WritePAT(wr);
      ghost var pat := wr.buf;
      WritePMT(wr, pat);
      b := wr.buf;
    }

    method WriteEnd(wr: Writer, i: nat, ghost done: Data, ghost table: Data)
      requires Aligned(wr) && |table| >= 5 && wr.buf == done + table && i == |done| + 5 && |done| % PacketSize == 0
      modifies wr
      ensures Aligned(wr) && wr.buf == done + Padded(Closed(table, checksum))
    {
      assert wr.buf[i..] == table[5..];
      var crc := checksum(wr.buf[i..]);
      wr.WriteBytes([crc % 0x100, crc / 0x100 % 0x100, crc / 0x1_0000 % 0x100, crc / 0x100_0000]);
      ghost var closed := Closed(table, checksum);
      assert wr.buf == done + closed;
      var size := PacketSize - |wr.buf| % PacketSize;
      assert |wr.buf| % PacketSize == |closed| % PacketSize by { SameTail(|done|, |closed|); }
      wr.WriteBytes(Zeros(size));
      assert done + closed + Zeros(size) == done + (closed + Zeros(size));
    }

    lemma SameTail(a: nat, b: nat)
      requires a % PacketSize == 0
      ensures (a + b) % PacketSize == b % PacketSize
    {
    }

    method WritePAT(wr: Writer)
      requires Aligned(wr) && wr.buf == []
      modifies wr
      ensures Aligned(wr) && wr.buf == Pat(checksum)
    {
      hide Put16, Be;
      WriteHeader(wr, 0);
      var i := |wr.buf| + 1;
      WritePSIHeader(wr, 0, 4);
      wr.WriteUint16(1);
      WriteReserved3(wr, PmtPID);
      ghost var table := TableHeader(0, 0, 13) + PatContent();
      assert wr.buf == [] + table;
      WriteEnd(wr, i, [], table);
      assert [] + Pat(checksum) == Pat(checksum);
    }

    method WritePMT(wr: Writer, ghost done: Data)
      requires Valid() && Aligned(wr) && wr.buf == done && |done| % PacketSize == 0
      modifies wr
      ensures Aligned(wr) && wr.buf == done + Pmt(types, checksum)
    {
      hide Put16, Be, Padded, Closed, StreamList, TableHeader, Pmt;
      WriteHeader(wr, PmtPID);
      var i := |wr.buf| + 1;
      WritePSIHeader(wr, 2, 4 + |pes| * 5);
      ghost var head := TableHeader(PmtPID, 2, (13 + 5 * |types|) % 0x400);
      assert wr.buf == done + head by { PmtHeader(done, 13 + 5 * |types|); }
      WriteReserved3(wr, 0x1FFF);
      WriteReserved4(wr);
      WriteStreams(wr);
      PmtParts(done, types);
      WriteEnd(wr, i, done, head + PmtContent(types));
    }

    lemma PmtHeader(done: Data, length: nat)
      ensures done + ([SyncByte] + Put16(0x4000 + PmtPID) + [0x10]) + ([0, 2] + Put16(0xB000 + length % 0x400) + Put16(1) + [0xC1, 0, 0])
              == done + TableHeader(PmtPID, 2, length % 0x400)
    {
      hide Put16;
    }

    lemma PmtParts(done: Data, types: seq<byte>)
      requires |types| <= 0x1F00
      ensures var head := TableHeader(PmtPID, 2, (13 + 5 * |types|) % 0x400);
              && done + head + Put16(0xFFFF) + Put16(0xF000) + StreamList(types, Pes0PID) == done + (head + PmtContent(types))
              && Pmt(types, checksum) == Padded(Closed(head + PmtContent(types), checksum))
    {
      hide Put16, StreamList, TableHeader, Padded, Closed;
      Regroup(done, TableHeader(PmtPID, 2, (13 + 5 * |types|) % 0x400), Put16(0xFFFF), Put16(0xF000), StreamList(types, Pes0PID));
    }

    static lemma Regroup(a: Data, b: Data, c: Data, d: Data, e: Data)
      ensures a + b + c + d + e == a + (b + (c + d + e))
    {
    }

    // The loop over the streams.
    method WriteStreams(wr: Writer)
      requires Valid() && Aligned(wr)
      modifies wr
      ensures Aligned(wr) && wr.buf == old(wr.buf) + StreamList(types, Pes0PID)
    {
      hide Put16, Be, StreamList;
      var pid: uint16 := Pes0PID;
      EmptyList(types);
      while pid in pes
        invariant Pes0PID <= pid <= Pes0PID + |types| && Aligned(wr)
        invariant wr.buf == old(wr.buf) + StreamList(types[..pid - Pes0PID], Pes0PID)
        decreases Pes0PID + |types| - pid
      {
        StreamListSnoc(types, Pes0PID, pid - Pes0PID);
        ghost var before := wr.buf;
        wr.WriteBytes([pes[pid].streamType]);
        WriteReserved3(wr, pid);
        WriteReserved4(wr);
        assert wr.buf == before + ([types[pid - Pes0PID]] + Put16(0xE000 + pid) + Put16(0xF000));
        pid := pid + 1;
      }
      assert types[..pid - Pes0PID] == types;
    }

    lemma EmptyList(types: seq<byte>)
      ensures types[..0] == [] && StreamList([], Pes0PID) == []
    {
    }

    // The payload of video is brought into Annex B form.
    function Body(streamType: byte, payload: Data): Data {
      if streamType == H264 || streamType == H265 then annexB(payload) else payload
    }

    method GetPayload(pid: uint16, timestamp: uint32, payload: Data) returns (b: Data)
      requires Valid() && pid in pes
      modifies this
      ensures Valid() && types == old(types)
      ensures var body := Body(types[pid - Pes0PID], payload);
              && calls == old(calls) + [Call(pid, timestamp, body)]
              && var p := MuxPes(types, old(calls), pid);
                 b == TsPackets(pid, true, p.sequence, Frame(p, timestamp, body))
    {
      hide Put16, Time, TsPackets, MuxPes, Count;
      var p := pes[pid];
      var body := payload;
      if p.streamType == H264 || p.streamType == H265 {
        body := annexB(payload);
      }
      if p.timestamp != 0 {
        p := p.(pts := (p.pts as int + timestamp - p.timestamp) % 0x1_0000_0000);
      }
      p := p.(timestamp := timestamp);
      var size := 3 + 5 + |body|;
      var header: Data := [0, 0, 1, p.streamID] + (if size <= 0xFFFF then Put16(size) else [0, 0]) + [0x80, 0x80, 5] + Time(p.pts);
      NoSize();
      assert header + body == Frame(MuxPes(types, calls, pid), timestamp, body);
      p := p.(payload := header + body, size := 1);
      b, p := WriteAll(pid, p);
      hide StreamID, Frame, NextPts, PesHeader;
      CallAdded(pes, types, calls, Call(pid, timestamp, body), p);
      calls := calls + [Call(pid, timestamp, body)];
      pes := pes[pid := p];
    }

    lemma NoSize()
      ensures Put16(0) == [0, 0]
    {
    }

    // The loop over the packets of a call.
    method WriteAll(pid: uint16, from: Pes) returns (b: Data, p: Pes)
      requires pid < 0x2000 && from.size != 0 && from.payload != []
      ensures b == TsPackets(pid, true, from.sequence, from.payload)
      ensures p == from.(payload := [], size := 0, sequence := (from.sequence + Count(|from.payload|)) % 0x1_0000)
    {
      hide TsPackets, Put16, TsPacket, Count, Next16;
      var wr := new Writer();
      p := from;
      assert [] + TsPackets(pid, true, from.sequence, from.payload) == TsPackets(pid, true, from.sequence, from.payload);
      while |p.payload| > 0
        invariant wr.Valid() && wr.bits == 0
        invariant p == from || p == from.(payload := p.payload, size := 0, sequence := p.sequence)
        invariant wr.buf + TsPackets(pid, p.size != 0, p.sequence, p.payload) == TsPackets(pid, true, from.sequence, from.payload)
        invariant (p.sequence + Count(|p.payload|)) % 0x1_0000 == (from.sequence + Count(|from.payload|)) % 0x1_0000
        decreases |p.payload|
      {
        ghost var q, before := p, wr.buf;
        PacketsStep(pid, q.size != 0, q.sequence, q.payload);
        p := WritePES(wr, pid, p);
        p := p.(sequence := Next16(p.sequence), size := 0);
        CountStep(q.sequence, |q.payload|, |p.payload|);
        Assoc(before, TsPacket(pid, q.size != 0, q.sequence % 0x10, q.payload[..|q.payload| - |p.payload|]), TsPackets(pid, false, p.sequence, p.payload));
      }
      NoPackets(pid, false, p.sequence);
      assert wr.buf + [] == wr.buf;
      CountNone(p.sequence);
      b := wr.buf;
    }

    // One packet; the stuffing fills what the payload leaves.
    method WritePES(wr: Writer, pid: uint16, from: Pes) returns (p: Pes)
      requires wr.Valid() && wr.bits == 0 && pid < 0x2000 && from.payload != []
      modifies wr
      ensures wr.Valid() && wr.bits == 0
      ensures var n := if |from.payload| < PacketSize - 4 then |from.payload| else PacketSize - 4;
              && p == from.(payload := from.payload[n..])
              && wr.buf == old(wr.buf) + TsPacket(pid, from.size != 0, from.sequence % 0x10, from.payload[..n])
    {
      hide Put16, Be, Pow2, Zeros;
      p := from;
      wr.WriteByte(SyncByte);
      var id := pid + if p.size != 0 then 0x4000 else 0;
      wr.WriteUint16(id);
      var counter := p.sequence % 0x100 % 0x10;
      LowCounter(p.sequence);
      var size := |p.payload|;
      ghost var head := wr.buf;
      assert head == old(wr.buf) + ([SyncByte] + Put16(id));
      if size < PacketSize - 4 {
        wr.WriteByte(0x30 + counter);
        var adSize := PacketSize - 4 - 1 - size;
        wr.WriteByte(adSize);
        wr.WriteBytes(Zeros(adSize));
        wr.WriteBytes(p.payload);
        assert p.payload[..size] == p.payload && p.payload[size..] == [];
        ghost var tail := [0x30 + counter, adSize] + Zeros(adSize) + p.payload;
        assert wr.buf == head + tail;
        Assoc(old(wr.buf), [SyncByte] + Put16(id), tail);
        p := p.(payload := []);
      } else {
        wr.WriteByte(0x10 + counter);
        wr.WriteBytes(p.payload[..PacketSize - 4]);
        ghost var tail := [0x10 + counter] + p.payload[..PacketSize - 4];
        assert wr.buf == head + tail;
        Assoc(old(wr.buf), [SyncByte] + Put16(id), tail);
        p := p.(payload := p.payload[PacketSize - 4..]);
      }
    }
  }

  lemma CountNone(sequence: uint16)
    ensures (sequence + Count(0)) % 0x1_0000 == sequence
  {
  }

  lemma LowCounter(sequence: uint16)
    ensures sequence % 0x100 % 0x10 == sequence % 0x10
  {
  }

  lemma NoPackets(pid: uint16, start: bool, sequence: uint16)
    requires pid < 0x2000
    ensures TsPackets(pid, start, sequence, []) == []
  {
  }

  lemma CountStep(sequence: uint16, before: nat, after: nat)
    requires before > 0 && after == before - if before < PacketSize - 4 then before else PacketSize - 4
    ensures (Next16(sequence) + Count(after)) % 0x1_0000 == (sequence + Count(before)) % 0x1_0000
  {
    assert Count(before) == 1 + Count(after);
  }

  lemma {:induction false} MoreTypes(types: seq<byte>, calls: seq<Call>, pid: uint16, more: byte)
    requires Pes0PID <= pid < Pes0PID + |types|
    ensures MuxPes(types + [more], calls, pid) == MuxPes(types, calls, pid)
  {
    if calls != [] {
      MoreTypes(types, calls[..|calls| - 1], pid, more);
    }
  }

  lemma {:induction false} NoCalls(types: seq<byte>, calls: seq<Call>, pid: uint16)
    requires Pes0PID <= pid < Pes0PID + |types| && forall k :: 0 <= k < |calls| ==> calls[k].pid != pid
    ensures MuxPes(types, calls, pid) == NewPes(types[pid - Pes0PID])
  {
    if calls != [] {
      NoCalls(types, calls[..|calls| - 1], pid);
    }
  }
}
