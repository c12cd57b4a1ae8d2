// pkg/mpegts: demuxing what the muxer wrote.

module MpegTsRoundTrip {
  import opened Bytes
  import opened Bits
  import opened MpegTs
  import opened MpegTsFormat

  // ---- The muxer ---------------------------------------------------------------------

  // A call of GetPayload; the payload of video is already in Annex B form.
  datatype Call = Call(pid: uint16, timestamp: uint32, body: Data)

  // The time of a call: it advances by the difference of timestamps, except
  // after a timestamp of zero.
  function NextPts(p: Pes, timestamp: uint32): uint32 {
    if p.timestamp != 0 then (p.pts as int + timestamp - p.timestamp) % 0x1_0000_0000 else p.pts
  }

  function Count(length: nat): nat {
    (length + PacketSize - 5) / (PacketSize - 4)
  }

  // The stream after a call, and what the call returned.
  function Sent(p: Pes, timestamp: uint32, body: Data): Pes {
    p.(pts := NextPts(p, timestamp), timestamp := timestamp, sequence := (p.sequence + Count(14 + |body|)) % 0x1_0000)
  }

  function Frame(p: Pes, timestamp: uint32, body: Data): Data {
    PesHeader(StreamID(p.streamType), NextPts(p, timestamp), |body|) + body
  }

  // ---- One call ------------------------------------------------------------------------

  // A payload whose length does not fit gets a size of zero.
  function Filled(p: Pes, body: Data, pts: uint32): Pes {
    p.(streamID := StreamID(p.streamType), pts := pts, dts := 0, payload := body, size := MpegTsFormat.Room(|body|))
  }

  predicate Knows(d: Demux, pid: uint16) {
    d.held == None && d.pes.Some? && pid in d.pes.value
  }

  function With(d: Demux, pid: uint16, p: Pes): Demux
    requires Knows(d, pid)
  {
    d.(pes := Some(d.pes.value[pid := p]))
  }

  lemma FeedPacket(d: Demux, pid: uint16, start: bool, counter: nat, chunk: Data, rest: Data, conv: Conv)
    requires Knows(d, pid) && pid < 0x2000 && counter < 0x10 && 0 < |chunk| <= PacketSize - 4
    requires !start || d.pes.value[pid].payload == []
    ensures var b := TsPacket(pid, start, counter, chunk);
            var r := if start then StartPes(d.pes.value[pid], b, PacketSize - |chunk|, conv)
                     else Finish(d.pes.value[pid].(payload := d.pes.value[pid].payload + chunk), conv);
            Feeds(d, b + rest, pid, r, rest, conv)
  {
    hide TsPacket, StartPes, ReadHeader, Finish, ReadPES, ReadBuffer;
    var b := TsPacket(pid, start, counter, chunk);
    BufferReads(d, pid, start, counter, chunk, conv);
    assert (b + rest)[..PacketSize] == b && (b + rest)[PacketSize..] == rest;
  }

  lemma BufferReads(d: Demux, pid: uint16, start: bool, counter: nat, chunk: Data, conv: Conv)
    requires Knows(d, pid) && pid < 0x2000 && counter < 0x10 && 0 < |chunk| <= PacketSize - 4
    requires !start || d.pes.value[pid].payload == []
    ensures var b := TsPacket(pid, start, counter, chunk);
            var r := if start then StartPes(d.pes.value[pid], b, PacketSize - |chunk|, conv)
                     else Finish(d.pes.value[pid].(payload := d.pes.value[pid].payload + chunk), conv);
            && (r.Quiet? ==> ReadBuffer(d, b, conv) == Go(With(d, pid, r.pes)))
            && (r.Ready? && !r.again ==> ReadBuffer(d, b, conv) == Out(With(d, pid, r.pes), r.packet))
  {
    PacketReads(pid, start, counter, chunk);
    hide TsPacket, StartPes, ReadHeader, Finish;
  }

  // The packets after the first: the payload is complete after the last of
  // them, or it has no size.
  lemma {:induction false} FeedRest(d: Demux, pid: uint16, sequence: uint16, data: Data, rest: Data, conv: Conv)
    requires Knows(d, pid) && pid < 0x2000 && data != []
    requires d.pes.value[pid].size == 0 || d.pes.value[pid].size == |d.pes.value[pid].payload| + |data|
    ensures var p := d.pes.value[pid];
            var r := Finish(p.(payload := p.payload + data), conv);
            Feeds(d, TsPackets(pid, false, sequence, data) + rest, pid, r, rest, conv)
    decreases |data|
  {
    hide Emit, TsPacket, ReadPacket, Feeds;
    var p := d.pes.value[pid];
    var n := if |data| < PacketSize - 4 then |data| else PacketSize - 4;
    var chunk, left := data[..n], data[n..];
    var first, others := TsPacket(pid, false, sequence % 0x10, chunk), TsPackets(pid, false, Next16(sequence), left);
    assert first + others + rest == first + (others + rest);
    FeedPacket(d, pid, false, sequence % 0x10, chunk, others + rest, conv);
    assert p.payload + data == (p.payload + chunk) + left by { assert data == chunk + left; }
    if left == [] {
      assert chunk == data && others == [] && others + rest == rest;
    } else {
      var q := p.(payload := p.payload + chunk);
      assert Finish(q, conv) == Quiet(q);
      FeedRest(With(d, pid, q), pid, Next16(sequence), left, rest, conv);
      FeedsOn(d, pid, q, first + (others + rest), others + rest, Finish(q.(payload := q.payload + left), conv), rest, conv);
    }
  }

  // What reading input does to a stream: nothing to hand out, and it goes on
  // with rest, or a packet.
  predicate Feeds(d: Demux, input: Data, pid: uint16, r: Read, rest: Data, conv: Conv)
    requires Knows(d, pid)
  {
    && (r.Quiet? ==> ReadPacket(d, input, conv) == ReadPacket(With(d, pid, r.pes), rest, conv))
    && (r.Ready? && !r.again ==> ReadPacket(d, input, conv) == Got(With(d, pid, r.pes), r.packet, rest))
  }

  lemma FeedsOn(d: Demux, pid: uint16, q: Pes, input: Data, others: Data, r: Read, rest: Data, conv: Conv)
    requires Knows(d, pid) && Feeds(d, input, pid, Quiet(q), others, conv) && Feeds(With(d, pid, q), others, pid, r, rest, conv)
    ensures Feeds(d, input, pid, r, rest, conv)
  {
    hide ReadPacket;
    SameMap(d, pid, q, r);
  }

  lemma FrameParts(header: Data, body: Data, n: nat, first: Data, pos: nat)
    requires |header| <= n <= |header + body| && pos <= |first| && first[pos..] == (header + body)[..n]
    ensures var h := |header|;
            && pos + h <= |first| && first[pos..pos + h] == header && first[pos + h..] == (header + body)[..n][h..]
            && (header + body)[..n][h..] + (header + body)[n..] == body
  {
    var chunk, h := (header + body)[..n], |header|;
    assert chunk[..h] == header;
    assert |first| - pos == n;
    assert first[pos..pos + h] == first[pos..][..h];
    assert first[pos + h..] == first[pos..][h..];
  }

  // A PES packet with this header starts a stream as begun, wherever the header
  // ends in its transport packet.
  ghost predicate Starts(p: Pes, header: Data, begun: Pes, conv: Conv) {
    forall buf: Data, pos: nat :: |buf| == PacketSize && pos < PacketSize && pos + |header| <= PacketSize && buf[pos..pos + |header|] == header ==>
      StartPes(p, buf, pos, conv) == Finish(begun.(payload := buf[pos + |header|..]), conv)
  }

  // A whole PES packet: after its transport packets the stream has the payload,
  // and hands it out if it has a size.
  lemma FeedFrame(d: Demux, pid: uint16, sequence: uint16, header: Data, body: Data, begun: Pes, rest: Data, conv: Conv)
    requires Knows(d, pid) && pid < 0x2000 && d.pes.value[pid].payload == [] && 0 < |header| <= PacketSize - 4
    requires Starts(d.pes.value[pid], header, begun, conv) && begun.payload == body && (begun.size == 0 || begun.size == |body|)
    ensures Feeds(d, TsPackets(pid, true, sequence, header + body) + rest, pid, Finish(begun, conv), rest, conv)
  {
    hide Emit, TsPacket, ReadPacket, Feeds, StartPes;
    var q, data := d.pes.value[pid], header + body;
    var n := if |data| < PacketSize - 4 then |data| else PacketSize - 4;
    var chunk, left := data[..n], data[n..];
    var first, others := TsPacket(pid, true, sequence % 0x10, chunk), TsPackets(pid, false, Next16(sequence), left);
    assert first + others + rest == first + (others + rest);
    FeedPacket(d, pid, true, sequence % 0x10, chunk, others + rest, conv);
    PacketReads(pid, true, sequence % 0x10, chunk);
    var pos := PacketSize - |chunk|;
    FrameParts(header, body, n, first, pos);
    var now := begun.(payload := chunk[|header|..]);
    assert StartPes(q, first, pos, conv) == Finish(now, conv);
    if left == [] {
      assert others == [] && others + rest == rest && chunk[|header|..] == body;
    } else {
      assert Finish(now, conv) == Quiet(now);
      FeedRest(With(d, pid, now), pid, Next16(sequence), left, rest, conv);
      FeedsOn(d, pid, now, first + (others + rest), others + rest, Finish(begun, conv), rest, conv);
    }
  }

  // The same for a call of the muxer.
  lemma FeedCall(d: Demux, pid: uint16, p: Pes, timestamp: uint32, body: Data, rest: Data, conv: Conv)
    requires Knows(d, pid) && pid < 0x2000 && d.pes.value[pid].payload == [] && d.pes.value[pid].streamType == p.streamType
    ensures var r := Finish(Filled(d.pes.value[pid], body, NextPts(p, timestamp)), conv);
            Feeds(d, TsPackets(pid, true, p.sequence, Frame(p, timestamp, body)) + rest, pid, r, rest, conv)
  {
    hide TsPackets, PesHeader, NextPts, StreamID, Feeds, StartPes, Finish;
    var q, pts := d.pes.value[pid], NextPts(p, timestamp);
    var header, begun := PesHeader(StreamID(p.streamType), pts, |body|), Filled(q, body, pts);
    forall buf: Data, pos: nat | |buf| == PacketSize && pos < PacketSize && pos + |header| <= PacketSize && buf[pos..pos + |header|] == header
      ensures StartPes(q, buf, pos, conv) == Finish(begun.(payload := buf[pos + |header|..]), conv)
    {
      StartReads(q, buf, pos, StreamID(p.streamType), pts, |body|, conv);
    }
    FeedFrame(d, pid, p.sequence, header, body, begun, rest, conv);
  }

  // A stream that still has a payload hands it out when the next one starts, and
  // the packet that starts it is read again.
  lemma FeedLate(d: Demux, pid: uint16, counter: nat, chunk: Data, rest: Data, conv: Conv)
    requires Knows(d, pid) && pid < 0x2000 && counter < 0x10 && 0 < |chunk| <= PacketSize - 4 && d.pes.value[pid].payload != []
    ensures var b := TsPacket(pid, true, counter, chunk);
            var r := Emit(d.pes.value[pid], conv);
            && (r.Quiet? ==> r.pes.payload == [] && ReadPacket(d, b + rest, conv) == ReadPacket(With(d, pid, r.pes), b + rest, conv))
            && (r.Ready? ==> ReadPacket(d, b + rest, conv) == Got(With(d, pid, r.pes).(held := Some(b)), r.packet, rest))
  {
    hide TsPacket, ReadHeader, ReadBuffer;
    PacketReads(pid, true, counter, chunk);
    var b := TsPacket(pid, true, counter, chunk);
    assert (b + rest)[..PacketSize] == b && (b + rest)[PacketSize..] == rest;
    LateBuffer(d, pid, b, conv);
  }

  lemma SameMap(d: Demux, pid: uint16, q: Pes, r: Read)
    requires Knows(d, pid)
    ensures !r.Fault? ==> With(With(d, pid, q), pid, r.pes) == With(d, pid, r.pes)
  {
    if !r.Fault? {
      assert d.pes.value[pid := q][pid := r.pes] == d.pes.value[pid := r.pes];
    }
  }

  lemma LateBuffer(d: Demux, pid: uint16, b: Data, conv: Conv)
    requires Knows(d, pid) && |b| == PacketSize && ReadHeader(b).Header? && ReadHeader(b).pid == pid && ReadHeader(b).start
    requires d.pes.value[pid].payload != []
    ensures var r := Emit(d.pes.value[pid], conv);
            && (r.Quiet? ==> r.pes.payload == [] && ReadBuffer(d, b, conv) == ReadBuffer(With(d, pid, r.pes), b, conv))
            && (r.Ready? ==> ReadBuffer(d, b, conv) == Out(With(d, pid, r.pes).(held := Some(b)), r.packet))
  {
    hide StartPes, ReadHeader, Finish;
    var r := Emit(d.pes.value[pid], conv);
    if r.Quiet? {
      SameMap(d, pid, r.pes, StartPes(r.pes, b, ReadHeader(b).pos, conv));
    }
  }

  // ---- Tables ---------------------------------------------------------------------------

  lemma TableReads(b: Data, pid: uint16, table: byte, length: nat, more: Data)
    requires pid < 0x2000 && length < 0x400 && |b| == PacketSize && b == TableHeader(pid, table, length) + more
    ensures ReadHeader(b) == Header(pid, true, 4)
    ensures ReadPSI(b, 4) == Some(Section(13, (8 + length) % 0x100))
  {
    hide Num, Pow2, Put16;
    HeaderOfTable(b, pid, table, length, more);
    SmallPowers();
    InTwoBytes(b, 1, 3, 13, 0x4000 + pid, 1, 0x2000);
    InTwoBytes(b, 1, 1, 1, 0x4000 + pid, 0x4000, 2);
    InByte(b, 3, 2, 1, 0x20, 2);
    InTwoBytes(b, 6, 6, 10, 0xB000 + length, 1, 0x400);
  }

  lemma HeaderOfTable(b: Data, pid: uint16, table: byte, length: nat, more: Data)
    requires pid < 0x2000 && length < 0x400 && |b| == PacketSize && b == TableHeader(pid, table, length) + more
    ensures b[0] == SyncByte && b[1..3] == Put16(0x4000 + pid) && b[3] == 0x10 && b[4] == 0 && b[6..8] == Put16(0xB000 + length)
  {
    hide Put16;
  }

  lemma PatReads(checksum: Data -> uint32, conv: Conv)
    ensures |Pat(checksum)| == PacketSize && ReadBuffer(NewDemux, Pat(checksum), conv) == Go(Demux(PmtPID, None, None))
  {
    hide Num, Pow2, Put16, TableHeader;
    var b := Pat(checksum);
    var crc := checksum((TableHeader(0, 0, 13) + PatContent())[5..]);
    var tail := [crc % 0x100, crc / 0x100 % 0x100, crc / 0x1_0000 % 0x100, crc / 0x100_0000] + Zeros(PacketSize - 21);
    assert b == TableHeader(0, 0, 13) + (PatContent() + tail);
    TableReads(b, 0, 0, 13, PatContent() + tail);
    SmallPowers();
    assert b[13..15] == Put16(1) && b[15..17] == Put16(0xE000 + PmtPID);
    InTwoBytes(b, 13, 0, 16, 1, 1, 0x1_0000);
    InTwoBytes(b, 15, 3, 13, 0xE000 + PmtPID, 1, 0x2000);
    assert ReadPrograms(b, 17, 21, PmtPID) == Some(PmtPID);
  }

  function AddStreams(pes: map<uint16, Pes>, types: seq<byte>, pid: nat): map<uint16, Pes>
    requires pid + |types| <= 0x2000
    decreases |types|
  {
    if types == [] then pes else AddStreams(pes[pid := NewPes(types[0])], types[1..], pid + 1)
  }

  lemma {:induction false} StreamsRead(b: Data, pos: nat, types: seq<byte>, pid: nat, end: nat, pes: map<uint16, Pes>)
    requires |b| == PacketSize && pid + |types| <= 0x2000 && pos + 5 * |types| + 4 == end <= PacketSize
    requires b[pos..pos + 5 * |types|] == StreamList(types, pid)
    ensures ReadStreams(b, pos, end, pes) == Some(Streams(AddStreams(pes, types, pid), end - 4))
    decreases |types|
  {
    hide Num, Pow2, Put16;
    if types != [] {
      var rest := StreamList(types[1..], pid + 1);
      StreamBytes(b, pos, types[0], pid, rest);
      StreamStep(b, pos, types[0], pid, end, pes);
      hide ReadStreams;
      StreamsRead(b, pos + 5, types[1..], pid + 1, end, pes[pid := NewPes(types[0])]);
    }
  }

  lemma StreamStep(b: Data, pos: nat, streamType: byte, pid: nat, end: nat, pes: map<uint16, Pes>)
    requires |b| == PacketSize && pid < 0x2000 && pos + 9 <= end <= PacketSize
    requires b[pos] == streamType && b[pos + 1..pos + 3] == Put16(0xE000 + pid) && b[pos + 3..pos + 5] == Put16(0xF000)
    ensures ReadStreams(b, pos, end, pes) == ReadStreams(b, pos + 5, end, pes[pid := NewPes(streamType)])
  {
    hide Num, Pow2, Put16;
    StreamFields(b, pos, pid);
    assert Skip(pos + 5, 0) == pos + 5 && b[pos + 5..pos + 5] == [];
    assert Left(pos, end) == end - pos;
    hide Skip, Left, Pid;
  }

  lemma StreamFields(b: Data, pos: nat, pid: nat)
    requires |b| == PacketSize && pid < 0x2000 && pos + 9 <= PacketSize
    requires b[pos + 1..pos + 3] == Put16(0xE000 + pid) && b[pos + 3..pos + 5] == Put16(0xF000)
    ensures Pid(b, 8 * (pos + 1) + 3) == pid && Num(b, 8 * (pos + 3) + 6, 10) == 0
  {
    hide Num, Pow2, Put16;
    SmallPowers();
    InTwoBytes(b, pos + 1, 3, 13, 0xE000 + pid, 1, 0x2000);
    InTwoBytes(b, pos + 3, 6, 10, 0xF000, 1, 0x400);
  }

  lemma StreamBytes(b: Data, pos: nat, streamType: byte, pid: nat, rest: Data)
    requires pid < 0x2000 && pos + 5 + |rest| <= |b|
    requires b[pos..pos + 5 + |rest|] == [streamType] + Put16(0xE000 + pid) + Put16(0xF000) + rest
    ensures b[pos] == streamType && b[pos + 1..pos + 3] == Put16(0xE000 + pid) && b[pos + 3..pos + 5] == Put16(0xF000)
    ensures b[pos + 5..pos + 5 + |rest|] == rest
  {
    hide Put16;
    var s := b[pos..pos + 5 + |rest|];
    assert s[0] == streamType && s[1..3] == Put16(0xE000 + pid) && s[3..5] == Put16(0xF000) && s[5..5 + |rest|] == rest;
    SubSlice(b, pos, pos + 5 + |rest|, 1, 3);
    SubSlice(b, pos, pos + 5 + |rest|, 3, 5);
    SubSlice(b, pos, pos + 5 + |rest|, 5, 5 + |rest|);
    assert b[pos] == s[0];
  }

  lemma SubSlice(b: Data, i: nat, j: nat, k: nat, l: nat)
    requires i <= j <= |b| && k <= l <= j - i
    ensures b[i..j][k..l] == b[i + k..i + l]
  {
    var x, y := b[i..j][k..l], b[i + k..i + l];
    assert |x| == |y| && forall q :: 0 <= q < |x| ==> x[q] == y[q];
  }

  lemma PmtReads(types: seq<byte>, checksum: Data -> uint32, conv: Conv)
    requires |types| <= 33
    ensures |Pmt(types, checksum)| == PacketSize
    ensures var pes := AddStreams(map[], types, Pes0PID);
            ReadBuffer(Demux(PmtPID, None, None), Pmt(types, checksum), conv) ==
            Out(Demux(PmtPID, Some(pes), None), Table(Types(pes, 0x2000)))
  {
    hide Num, Pow2, Put16, TableHeader, StreamList, ReadStreams, AddStreams, Types;
    var b, length := Pmt(types, checksum), 13 + 5 * |types|;
    var header, content := TableHeader(PmtPID, 2, length), PmtContent(types);
    var crc := checksum((header + content)[5..]);
    var tail := [crc % 0x100, crc / 0x100 % 0x100, crc / 0x1_0000 % 0x100, crc / 0x100_0000] + Zeros(PacketSize - (21 + 5 * |types|));
    assert b == header + (content + tail);
    TableReads(b, PmtPID, 2, length, content + tail);
    SmallPowers();
    PmtBytes(b, header, types, tail);
    InTwoBytes(b, 15, 6, 10, 0xF000, 1, 0x400);
    assert Skip(17, 0) == 17;
    StreamsRead(b, 17, types, Pes0PID, 21 + 5 * |types|, map[]);
  }

  lemma PmtBytes(b: Data, header: Data, types: seq<byte>, tail: Data)
    requires |types| <= 33 && |header| == 13 && |b| == PacketSize && b == header + (PmtContent(types) + tail)
    ensures b[15..17] == Put16(0xF000) && b[17..17 + 5 * |types|] == StreamList(types, Pes0PID)
  {
    hide Put16, StreamList;
    Parts(header, Put16(0xFFFF), Put16(0xF000), StreamList(types, Pes0PID), tail);
  }

  lemma Parts(header: Data, x: Data, y: Data, list: Data, tail: Data)
    requires |header| == 13 && |x| == 2 && |y| == 2
    ensures var b := header + ((x + y + list) + tail); b[15..17] == y && b[17..17 + |list|] == list
  {
    var b := header + ((x + y + list) + tail);
    assert b == (header + x) + (y + (list + tail));
    assert b == (header + x + y) + (list + tail);
  }

  // ---- Runs -------------------------------------------------------------------------------

  predicate Convertible(streamType: byte) {
    streamType in [H264, H265, AAC, PCMATapo, PCMUTapo]
  }

  predicate IsVideo(streamType: byte) {
    streamType == H264 || streamType == H265
  }

  predicate Tracks(types: seq<byte>) {
    1 <= |types| <= 33 && forall k :: 0 <= k < |types| ==> types[k] != PrivateOPUS
  }

  predicate Calls(types: seq<byte>, calls: seq<Call>) {
    forall k :: 0 <= k < |calls| ==> Pes0PID <= calls[k].pid < Pes0PID + |types|
  }

  // A stream of the muxer after some calls, and the bytes they returned.
  function MuxPes(types: seq<byte>, calls: seq<Call>, pid: uint16): (p: Pes)
    requires Pes0PID <= pid < Pes0PID + |types|
    ensures p.streamType == types[pid - Pes0PID] && p.payload == [] && p.size == 0
  {
    if calls == [] then NewPes(types[pid - Pes0PID])
    else
      var before, c := MuxPes(types, calls[..|calls| - 1], pid), calls[|calls| - 1];
      if c.pid == pid then Sent(before, c.timestamp, c.body) else before
  }

  function Output(types: seq<byte>, calls: seq<Call>): Data
    requires |types| <= 33 && Calls(types, calls)
  {
    if calls == [] then []
    else
      var rest, c := calls[..|calls| - 1], calls[|calls| - 1];
      var p := MuxPes(types, rest, c.pid);
      Output(types, rest) + TsPackets(c.pid, true, p.sequence, Frame(p, c.timestamp, c.body))
  }

  // The timestamps of a stream, and its time after them.
  function Times(calls: seq<Call>, pid: uint16): seq<uint32> {
    if calls == [] then []
    else
      var rest, c := calls[..|calls| - 1], calls[|calls| - 1];
      Times(rest, pid) + if c.pid == pid then [c.timestamp] else []
  }

  function Clock(times: seq<uint32>): uint32 {
    if |times| < 2 then 0
    else
      var before, last := times[|times| - 2], times[|times| - 1];
      if before == 0 then Clock(times[..|times| - 1]) else (Clock(times[..|times| - 1]) as int + last - before) % 0x1_0000_0000
  }

  function Converted(streamType: byte, body: Data, conv: Conv): Data {
    if IsVideo(streamType) then conv.avcc(body)
    else if streamType == AAC then conv.rtp(body)
    else body
  }

  // How many calls of a stream had a payload.
  function Filling(calls: seq<Call>, pid: uint16): nat {
    if calls == [] then 0
    else
      var c := calls[|calls| - 1];
      Filling(calls[..|calls| - 1], pid) + if c.pid == pid && c.body != [] then 1 else 0
  }

  // The number of the last packet of a stream.
  function Numbered(calls: seq<Call>, pid: uint16): uint16 {
    Filling(calls, pid) % 0x1_0000
  }

  lemma NumberedNext(calls: seq<Call>)
    requires calls != []
    ensures var rest, c := calls[..|calls| - 1], calls[|calls| - 1];
            Numbered(calls, c.pid) == if c.body == [] then Numbered(rest, c.pid) else Next16(Numbered(rest, c.pid))
  {
  }

  // The payload that the last call of a stream left with the demuxer: one whose
  // length did not fit into the header.
  function Late(calls: seq<Call>, pid: uint16): Data {
    if calls == [] then []
    else
      var c := calls[|calls| - 1];
      if c.pid != pid then Late(calls[..|calls| - 1], pid) else if MpegTsFormat.Room(|c.body|) == 0 then c.body else []
  }

  // The packet for the last payload of a stream.
  function LastPacket(types: seq<byte>, calls: seq<Call>, pid: uint16, body: Data, conv: Conv): seq<Packet>
    requires Pes0PID <= pid < Pes0PID + |types|
  {
    var streamType := types[pid - Pes0PID];
    if body == [] || !Convertible(streamType) then []
    else
      [Media(streamType, if IsVideo(streamType) then 0 else Numbered(calls, pid), Clock(Times(calls, pid)), 0,
             Converted(streamType, body, conv))]
  }

  // The packet that comes out with the last call, when its length fits.
  function Own(types: seq<byte>, calls: seq<Call>, conv: Conv): seq<Packet>
    requires calls != [] && Calls(types, calls)
  {
    var c := calls[|calls| - 1];
    if MpegTsFormat.Room(|c.body|) == 0 then [] else LastPacket(types, calls, c.pid, c.body, conv)
  }

  // The packets of all calls: one whose length does not fit comes out with the
  // next call of its stream.
  function Delivered(types: seq<byte>, calls: seq<Call>, conv: Conv): seq<Packet>
    requires Calls(types, calls)
  {
    if calls == [] then []
    else
      var rest, c := calls[..|calls| - 1], calls[|calls| - 1];
      Delivered(types, rest, conv) + LastPacket(types, rest, c.pid, Late(rest, c.pid), conv) + Own(types, calls, conv)
  }

  lemma {:induction false} MuxClock(types: seq<byte>, calls: seq<Call>, pid: uint16)
    requires Pes0PID <= pid < Pes0PID + |types|
    ensures var p, times := MuxPes(types, calls, pid), Times(calls, pid);
            p.pts == Clock(times) && p.timestamp == if times == [] then 0 else times[|times| - 1]
  {
    if calls != [] {
      var rest, c := calls[..|calls| - 1], calls[|calls| - 1];
      MuxClock(types, rest, pid);
      if c.pid == pid {
        var times := Times(rest, pid);
        var more := times + [c.timestamp];
        assert more[..|times|] == times && more[|times|] == c.timestamp;
        if times != [] {
          assert more[|more| - 2] == times[|times| - 1];
        }
        assert Times(calls, pid) == more;
      } else {
        assert Times(rest, pid) + [] == Times(rest, pid);
      }
    }
  }

  // With timestamps that are not zero, the time counts from the first.
  lemma {:induction false} ClockCounts(times: seq<uint32>)
    requires times != [] && forall k :: 0 <= k < |times| - 1 ==> times[k] != 0
    ensures Clock(times) == (times[|times| - 1] as int - times[0]) % 0x1_0000_0000
  {
    if |times| > 1 {
      var n := |times| - 1;
      ClockCounts(times[..n]);
      AddDifference(times[n - 1], times[0], times[n]);
    }
  }

  lemma AddDifference(a: uint32, b: uint32, c: uint32)
    ensures ((a as int - b) % 0x1_0000_0000 + c - a) % 0x1_0000_0000 == (c as int - b) % 0x1_0000_0000
  {
  }

  // In general it misses the timestamps that follow a zero.
  function AfterZero(times: seq<uint32>): nat {
    if |times| < 2 then 0
    else AfterZero(times[..|times| - 1]) + if times[|times| - 2] == 0 then times[|times| - 1] else 0
  }

  lemma {:induction false} ClockExact(times: seq<uint32>)
    requires times != []
    ensures Clock(times) == (times[|times| - 1] as int - times[0] - AfterZero(times)) % 0x1_0000_0000
    ensures Clock(times) == (times[|times| - 1] as int - times[0]) % 0x1_0000_0000 <==> AfterZero(times) % 0x1_0000_0000 == 0
  {
    if |times| > 1 {
      var n := |times| - 1;
      ClockExact(times[..n]);
      assert times[..n][n - 1] == times[n - 1];
      if times[n - 1] == 0 {
        ZeroStep(times[0], AfterZero(times[..n]), times[n]);
      } else {
        OtherStep(times[n - 1], times[0], AfterZero(times[..n]), times[n]);
      }
    }
    Vanishes(times[|times| - 1] as int - times[0], AfterZero(times));
  }

  lemma ZeroStep(first: uint32, missed: nat, last: uint32)
    ensures (0 - first - missed) % 0x1_0000_0000 == (last as int - first - (missed + last)) % 0x1_0000_0000
  {
  }

  lemma OtherStep(before: uint32, first: uint32, missed: nat, last: uint32)
    ensures ((before as int - first - missed) % 0x1_0000_0000 + last - before) % 0x1_0000_0000 == (last as int - first - missed) % 0x1_0000_0000
  {
  }

  lemma Vanishes(x: int, y: nat)
    ensures (x - y) % 0x1_0000_0000 == x % 0x1_0000_0000 <==> y % 0x1_0000_0000 == 0
  {
  }

  // The demuxer between two calls: it knows the streams, and each has the
  // payload that came without a size.
  ghost predicate Waiting(d: Demux, types: seq<byte>, calls: seq<Call>) {
    && d.held == None && d.pes.Some?
    && forall pid: uint16 :: Pes0PID <= pid < Pes0PID + |types| ==> pid in d.pes.value && StreamWaits(d.pes.value[pid], types[pid - Pes0PID], calls, pid)
  }

  ghost predicate StreamWaits(p: Pes, streamType: byte, calls: seq<Call>, pid: uint16) {
    && p.streamType == streamType && p.payload == Late(calls, pid)
    && (p.payload != [] ==> p.pts == Clock(Times(calls, pid)) && p.dts == 0)
    && (Convertible(streamType) && !IsVideo(streamType) ==> (if p.payload == [] then p.sequence else Next16(p.sequence)) == Numbered(calls, pid))
  }

  // What a stream hands out.
  lemma EmitIs(p: Pes, conv: Conv)
    requires p.streamType != PrivateOPUS && p.dts == 0
    ensures var r := Emit(p, conv);
            if !Convertible(p.streamType) then r == Quiet(p.(payload := []))
            else
              && r.Ready? && !r.again && r.pes == p.(payload := [], sequence := if IsVideo(p.streamType) then p.sequence else Next16(p.sequence))
              && r.packet == Media(p.streamType, if IsVideo(p.streamType) then 0 else Next16(p.sequence), p.pts, 0,
                                   Converted(p.streamType, p.payload, conv))
  {
  }

  lemma EmitsOne(p: Pes, conv: Conv)
    requires p.streamType != PrivateOPUS
    ensures var r := Emit(p, conv); if Convertible(p.streamType) then r.Ready? && !r.again else r.Quiet?
  {
  }

  // Reading input hands out these packets and goes on in e with rest.
  ghost predicate Leads(d: Demux, input: Data, packets: seq<Packet>, e: Demux, rest: Data, conv: Conv) {
    MpegTs.Valid(d) && MpegTs.Valid(e) && forall fuel: nat :: fuel > |packets| ==> LeadsBy(d, input, packets, e, rest, conv, fuel)
  }

  predicate LeadsBy(d: Demux, input: Data, packets: seq<Packet>, e: Demux, rest: Data, conv: Conv, fuel: nat)
    requires MpegTs.Valid(d) && MpegTs.Valid(e) && fuel > |packets|
  {
    var after := ReadAll(e, rest, conv, fuel - |packets|);
    ReadAll(d, input, conv, fuel) == after.(packets := packets + after.packets)
  }

  lemma QuietLeads(d: Demux, input: Data, e: Demux, rest: Data, conv: Conv)
    requires MpegTs.Valid(d) && MpegTs.Valid(e) && ReadPacket(d, input, conv) == ReadPacket(e, rest, conv)
    ensures Leads(d, input, [], e, rest, conv)
  {
    hide ReadPacket;
    forall fuel: nat | fuel > 0 ensures LeadsBy(d, input, [], e, rest, conv, fuel) {
      assert [] + ReadAll(e, rest, conv, fuel).packets == ReadAll(e, rest, conv, fuel).packets;
    }
  }

  lemma GotLeads(d: Demux, input: Data, packet: Packet, e: Demux, rest: Data, conv: Conv)
    requires MpegTs.Valid(d) && ReadPacket(d, input, conv) == Got(e, packet, rest)
    ensures Leads(d, input, [packet], e, rest, conv)
  {
    hide ReadPacket;
    forall fuel: nat | fuel > 1 ensures LeadsBy(d, input, [packet], e, rest, conv, fuel) {
    }
  }

  lemma LeadsOn(d: Demux, input: Data, a: seq<Packet>, e: Demux, between: Data, b: seq<Packet>, f: Demux, rest: Data, conv: Conv)
    requires Leads(d, input, a, e, between, conv) && Leads(e, between, b, f, rest, conv)
    ensures Leads(d, input, a + b, f, rest, conv)
  {
    hide ReadAll;
    forall fuel: nat | fuel > |a + b| ensures LeadsBy(d, input, a + b, f, rest, conv, fuel) {
      assert LeadsBy(d, input, a, e, between, conv, fuel);
      assert LeadsBy(e, between, b, f, rest, conv, fuel - |a|);
      var after := ReadAll(f, rest, conv, fuel - |a + b|);
      assert (a + b) + after.packets == a + (b + after.packets);
    }
  }

  lemma FeedsLeads(d: Demux, input: Data, pid: uint16, r: Read, rest: Data, conv: Conv)
    requires Knows(d, pid) && Feeds(d, input, pid, r, rest, conv) && (r.Quiet? || (r.Ready? && !r.again))
    ensures Leads(d, input, if r.Quiet? then [] else [r.packet], With(d, pid, r.pes), rest, conv)
  {
    hide ReadPacket, Leads;
    if r.Quiet? {
      QuietLeads(d, input, With(d, pid, r.pes), rest, conv);
    } else {
      GotLeads(d, input, r.packet, With(d, pid, r.pes), rest, conv);
    }
  }

  lemma HeldIsRead(d: Demux, b: Data, rest: Data, conv: Conv)
    requires d.held == None && d.pes.Some? && |b| == PacketSize
    ensures ReadPacket(d.(held := Some(b)), rest, conv) == ReadPacket(d, b + rest, conv)
  {
    assert (b + rest)[..PacketSize] == b && (b + rest)[PacketSize..] == rest;
    hide ReadHeader, ReadPES;
  }

  // Before a call: the stream hands out what it has, and the packet that made
  // it do so is read again.
  lemma LateLeads(d: Demux, pid: uint16, counter: nat, chunk: Data, rest: Data, conv: Conv) returns (e: Demux)
    requires Knows(d, pid) && pid < 0x2000 && counter < 0x10 && 0 < |chunk| <= PacketSize - 4
    requires d.pes.value[pid].payload != [] ==> d.pes.value[pid].streamType != PrivateOPUS
    ensures var p, r, input := d.pes.value[pid], Emit(d.pes.value[pid], conv), TsPacket(pid, true, counter, chunk) + rest;
            if p.payload == [] then e == d && Leads(d, input, [], e, input, conv)
            else e == With(d, pid, r.pes) && Leads(d, input, if Convertible(p.streamType) then [r.packet] else [], e, input, conv)
  {
    hide ReadPacket, Emit, Leads, TsPacket;
    var p, r, b := d.pes.value[pid], Emit(d.pes.value[pid], conv), TsPacket(pid, true, counter, chunk);
    if p.payload == [] {
      e := d;
      QuietLeads(d, b + rest, d, b + rest, conv);
    } else {
      EmitsOne(p, conv);
      e := With(d, pid, r.pes);
      FeedLate(d, pid, counter, chunk, rest, conv);
      if r.Quiet? {
        QuietLeads(d, b + rest, e, b + rest, conv);
      } else {
        GotLeads(d, b + rest, r.packet, e.(held := Some(b)), rest, conv);
        HeldIsRead(e, b, rest, conv);
        QuietLeads(e.(held := Some(b)), rest, e, b + rest, conv);
        LeadsOn(d, b + rest, [r.packet], e.(held := Some(b)), rest, [], e, b + rest, conv);
        assert [r.packet] + [] == [r.packet];
      }
    }
  }

  // The two steps of a call for its stream, and what they leave.
  lemma LateWaits(p: Pes, types: seq<byte>, calls: seq<Call>, pid: uint16, conv: Conv)
    requires Pes0PID <= pid < Pes0PID + |types| && StreamWaits(p, types[pid - Pes0PID], calls, pid) && p.payload != [] && p.streamType != PrivateOPUS
    ensures var r := Emit(p, conv);
            && !r.Fault? && r.pes.payload == [] && r.pes.streamType == p.streamType
            && LastPacket(types, calls, pid, Late(calls, pid), conv) == (if Convertible(p.streamType) then [r.packet] else [])
            && (Convertible(p.streamType) && !IsVideo(p.streamType) ==> r.pes.sequence == Numbered(calls, pid))
  {
    hide Emit, Converted, Clock;
    EmitIs(p, conv);
  }

  // What a call hands out, and what it leaves.
  lemma OwnIs(p: Pes, types: seq<byte>, calls: seq<Call>, conv: Conv)
    requires Calls(types, calls) && calls != []
    requires var c := calls[|calls| - 1];
             && p.streamType == types[c.pid - Pes0PID] && p.streamType != PrivateOPUS
             && (Convertible(p.streamType) && !IsVideo(p.streamType) ==> p.sequence == Numbered(calls[..|calls| - 1], c.pid))
    ensures var c := calls[|calls| - 1];
            var r := Finish(Filled(p, c.body, Clock(Times(calls, c.pid))), conv);
            && (r.Quiet? || (r.Ready? && !r.again)) && Own(types, calls, conv) == if r.Quiet? then [] else [r.packet]
  {
    hide Emit, Converted, Clock, Times, Numbered, Next16;
    var pid, body := calls[|calls| - 1].pid, calls[|calls| - 1].body;
    NumberedNext(calls);
    EmitIs(Filled(p, body, Clock(Times(calls, pid))), conv);
  }

  lemma OwnWaits(p: Pes, types: seq<byte>, calls: seq<Call>, conv: Conv)
    requires Calls(types, calls) && calls != []
    requires var c := calls[|calls| - 1];
             && p.streamType == types[c.pid - Pes0PID] && p.streamType != PrivateOPUS
             && (Convertible(p.streamType) && !IsVideo(p.streamType) ==> p.sequence == Numbered(calls[..|calls| - 1], c.pid))
    ensures var c := calls[|calls| - 1];
            var r := Finish(Filled(p, c.body, Clock(Times(calls, c.pid))), conv);
            !r.Fault? && StreamWaits(r.pes, p.streamType, calls, c.pid)
  {
    hide Emit, Converted, Clock, Times, Numbered, Next16;
    var pid, body := calls[|calls| - 1].pid, calls[|calls| - 1].body;
    NumberedNext(calls);
    EmitIs(Filled(p, body, Clock(Times(calls, pid))), conv);
  }

  lemma OthersWait(d: Demux, e: Demux, types: seq<byte>, calls: seq<Call>)
    requires Calls(types, calls) && calls != [] && Waiting(d, types, calls[..|calls| - 1]) && e.held == None && e.pes.Some?
    requires var c := calls[|calls| - 1];
             && (forall pid :: pid in d.pes.value && pid != c.pid ==> pid in e.pes.value && e.pes.value[pid] == d.pes.value[pid])
             && c.pid in e.pes.value && StreamWaits(e.pes.value[c.pid], types[c.pid - Pes0PID], calls, c.pid)
    ensures Waiting(e, types, calls)
  {
    var rest, c := calls[..|calls| - 1], calls[|calls| - 1];
    forall pid: uint16 | Pes0PID <= pid < Pes0PID + |types|
      ensures pid in e.pes.value && StreamWaits(e.pes.value[pid], types[pid - Pes0PID], calls, pid)
    {
      if pid != c.pid {
        assert Times(rest, pid) + [] == Times(rest, pid);
      }
    }
  }

  lemma CallLeads(d: Demux, types: seq<byte>, calls: seq<Call>, more: Data, conv: Conv) returns (e: Demux)
    requires Tracks(types) && Calls(types, calls) && calls != [] && Waiting(d, types, calls[..|calls| - 1])
    ensures Waiting(e, types, calls)
    ensures var rest, c := calls[..|calls| - 1], calls[|calls| - 1];
            var p := MuxPes(types, rest, c.pid);
            Leads(d, TsPackets(c.pid, true, p.sequence, Frame(p, c.timestamp, c.body)) + more,
                  LastPacket(types, rest, c.pid, Late(rest, c.pid), conv) + Own(types, calls, conv), e, more, conv)
  {
    hide Emit, Finish, TsPackets, ReadPacket, Frame, NextPts, Filled, Clock, LastPacket, Own, Leads, Feeds, MuxPes;
    var rest, c := calls[..|calls| - 1], calls[|calls| - 1];
    var p := MuxPes(types, rest, c.pid);
    var q, data := d.pes.value[c.pid], Frame(p, c.timestamp, c.body);
    assert data != [] by { FrameIsThere(p, c.timestamp, c.body); }
    var n := if |data| < PacketSize - 4 then |data| else PacketSize - 4;
    PacketsStep(c.pid, true, p.sequence, data);
    var first, others := TsPacket(c.pid, true, p.sequence % 0x10, data[..n]), TsPackets(c.pid, false, Next16(p.sequence), data[n..]);
    assert first + others + more == first + (others + more);
    var input := TsPackets(c.pid, true, p.sequence, data) + more;
    var a := LateLeads(d, c.pid, p.sequence % 0x10, data[..n], others + more, conv);
    if q.payload == [] {
      NoLastPacket(types, rest, c.pid, conv);
    } else {
      LateWaits(q, types, rest, c.pid, conv);
    }
    PtsIs(types, calls);
    OwnIs(a.pes.value[c.pid], types, calls, conv);
    OwnWaits(a.pes.value[c.pid], types, calls, conv);
    FeedCall(a, c.pid, p, c.timestamp, c.body, more, conv);
    var r := Finish(Filled(a.pes.value[c.pid], c.body, NextPts(p, c.timestamp)), conv);
    FeedsLeads(a, input, c.pid, r, more, conv);
    e := With(a, c.pid, r.pes);
    OthersWait(d, e, types, calls);
    LeadsOn(d, input, LastPacket(types, rest, c.pid, Late(rest, c.pid), conv), a, input, Own(types, calls, conv), e, more, conv);
  }

  lemma NoLastPacket(types: seq<byte>, calls: seq<Call>, pid: uint16, conv: Conv)
    requires Pes0PID <= pid < Pes0PID + |types|
    ensures LastPacket(types, calls, pid, [], conv) == []
  {
  }

  lemma FrameIsThere(p: Pes, timestamp: uint32, body: Data)
    ensures Frame(p, timestamp, body) != []
  {
    hide PesHeader;
  }

  lemma PtsIs(types: seq<byte>, calls: seq<Call>)
    requires Calls(types, calls) && calls != []
    ensures var rest, c := calls[..|calls| - 1], calls[|calls| - 1];
            NextPts(MuxPes(types, rest, c.pid), c.timestamp) == Clock(Times(calls, c.pid))
  {
    MuxClock(types, calls, calls[|calls| - 1].pid);
  }

  lemma {:induction false} CallsLead(d: Demux, types: seq<byte>, calls: seq<Call>, more: Data, conv: Conv) returns (e: Demux)
    requires Tracks(types) && Calls(types, calls) && Waiting(d, types, [])
    ensures Waiting(e, types, calls)
    ensures Leads(d, Output(types, calls) + more, Delivered(types, calls, conv), e, more, conv)
  {
    hide TsPackets, ReadPacket, Frame, LastPacket, Own, Waiting, Leads;
    if calls == [] {
      assert [] + more == more;
      e := d;
      assert MpegTs.Valid(d) by { WaitingIsValid(d, types, []); }
      QuietLeads(d, more, d, more, conv);
    } else {
      var rest, c := calls[..|calls| - 1], calls[|calls| - 1];
      var p := MuxPes(types, rest, c.pid);
      var last := TsPackets(c.pid, true, p.sequence, Frame(p, c.timestamp, c.body));
      var before := CallsLead(d, types, rest, last + more, conv);
      e := CallLeads(before, types, calls, more, conv);
      assert Output(types, calls) + more == Output(types, rest) + (last + more);
      var late, own := LastPacket(types, rest, c.pid, Late(rest, c.pid), conv), Own(types, calls, conv);
      LeadsOn(d, Output(types, calls) + more, Delivered(types, rest, conv), before, last + more, late + own, e, more, conv);
      assert Delivered(types, rest, conv) + (late + own) == Delivered(types, rest, conv) + late + own;
    }
  }

  lemma WaitingIsValid(d: Demux, types: seq<byte>, calls: seq<Call>)
    requires Waiting(d, types, calls)
    ensures MpegTs.Valid(d) && d.held == None
  {
  }

  lemma {:induction false} StreamsAdded(pes: map<uint16, Pes>, types: seq<byte>, first: nat, pid: uint16)
    requires first + |types| <= 0x2000
    ensures var m := AddStreams(pes, types, first);
            if first <= pid < first + |types| then pid in m && m[pid] == NewPes(types[pid - first])
            else (pid in m <==> pid in pes) && (pid in m ==> m[pid] == pes[pid])
    decreases |types|
  {
    if types != [] {
      StreamsAdded(pes[first := NewPes(types[0])], types[1..], first + 1, pid);
    }
  }

  // The types are handed out once for each stream.
  lemma {:induction false} TypesOfStreams(types: seq<byte>, n: nat)
    requires |types| <= 33 && n <= 0x2000
    ensures var k := if n < Pes0PID then 0 else if n < Pes0PID + |types| then n - Pes0PID else |types|;
            Types(AddStreams(map[], types, Pes0PID), n) == multiset(types[..k])
  {
    hide AddStreams, Types;
    var pes := AddStreams(map[], types, Pes0PID);
    TypesStep(pes, n);
    if n > 0 {
      TypesOfStreams(types, n - 1);
      StreamsAdded(map[], types, Pes0PID, n - 1);
      if Pes0PID < n <= Pes0PID + |types| {
        var k := n - Pes0PID;
        assert types[..k] == types[..k - 1] + [types[k - 1]];
      }
    } else {
      assert types[..0] == [];
    }
  }

  lemma TypesStep(pes: map<uint16, Pes>, n: nat)
    ensures Types(pes, n) == if n == 0 then multiset{} else Types(pes, n - 1) + if n - 1 in pes then multiset{pes[n - 1].streamType} else multiset{}
  {
  }

  // Demuxing the header and everything that the calls returned gives the table
  // of the streams and then the packets that are delivered, until the end of the
  // input.
  lemma MuxThenDemux(types: seq<byte>, calls: seq<Call>, checksum: Data -> uint32, conv: Conv, fuel: nat)
    requires Tracks(types) && Calls(types, calls) && fuel > |Delivered(types, calls, conv)| + 1
    ensures ReadAll(NewDemux, Pat(checksum) + Pmt(types, checksum) + Output(types, calls), conv, fuel)
         == Done([Table(multiset(types))] + Delivered(types, calls, conv))
  {
    hide Pat, Pmt, Output, ReadBuffer, Delivered, Types, AddStreams, Waiting;
    var pes, input := AddStreams(map[], types, Pes0PID), Output(types, calls);
    var d := Demux(PmtPID, Some(pes), None);
    PatReads(checksum, conv);
    PmtReads(types, checksum, conv);
    TypesOfStreams(types, 0x2000);
    assert types[..|types|] == types;
    HeaderFirst(NewDemux, Demux(PmtPID, None, None), d, Table(multiset(types)), Pat(checksum), Pmt(types, checksum), input, conv);
    FirstWaits(d, types);
    assert input + [] == input;
    var e := CallsLead(d, types, calls, [], conv);
    WaitingIsValid(e, types, calls);
    hide ReadPacket;
    assert LeadsBy(d, input, Delivered(types, calls, conv), e, [], conv, fuel - 1);
    AtEnd(e, conv, fuel - 1 - |Delivered(types, calls, conv)|);
    assert Delivered(types, calls, conv) + [] == Delivered(types, calls, conv);
  }

  lemma FirstWaits(d: Demux, types: seq<byte>)
    requires |types| <= 33 && d == Demux(PmtPID, Some(AddStreams(map[], types, Pes0PID)), None)
    ensures Waiting(d, types, [])
  {
    hide AddStreams;
    forall pid: uint16 | Pes0PID <= pid < Pes0PID + |types| ensures pid in d.pes.value && d.pes.value[pid] == NewPes(types[pid - Pes0PID]) {
      StreamsAdded(map[], types, Pes0PID, pid);
    }
  }

  // When every payload has a size and every stream is converted, each call gives
  // one packet, in order.
  predicate AllSized(types: seq<byte>, calls: seq<Call>) {
    Calls(types, calls) && forall k :: 0 <= k < |calls| ==> Convertible(types[calls[k].pid - Pes0PID]) && 0 < |calls[k].body| <= 0xFFFF - 8
  }

  function AllExpected(types: seq<byte>, calls: seq<Call>, conv: Conv): (packets: seq<Packet>)
    requires AllSized(types, calls)
    ensures |packets| == |calls|
  {
    if calls == [] then []
    else AllExpected(types, calls[..|calls| - 1], conv) + [Expected(types, calls, conv)]
  }

  // The packet of the last call.
  function Expected(types: seq<byte>, calls: seq<Call>, conv: Conv): Packet
    requires calls != [] && Calls(types, calls)
  {
    var c := calls[|calls| - 1];
    var streamType, times := types[c.pid - Pes0PID], Times(calls, c.pid);
    Media(streamType, if IsVideo(streamType) then 0 else |times| % 0x1_0000, Clock(times), 0, Converted(streamType, c.body, conv))
  }

  lemma {:induction false} NothingLate(types: seq<byte>, calls: seq<Call>, pid: uint16)
    requires AllSized(types, calls)
    ensures Late(calls, pid) == [] && Filling(calls, pid) == |Times(calls, pid)|
  {
    if calls != [] {
      NothingLate(types, calls[..|calls| - 1], pid);
    }
  }

  lemma OwnIsExpected(types: seq<byte>, calls: seq<Call>, conv: Conv)
    requires AllSized(types, calls) && calls != []
    ensures var rest, c := calls[..|calls| - 1], calls[|calls| - 1];
            LastPacket(types, rest, c.pid, Late(rest, c.pid), conv) == [] && Own(types, calls, conv) == [Expected(types, calls, conv)]
  {
    hide Clock, Converted, Times, Filling, Late;
    var rest, c := calls[..|calls| - 1], calls[|calls| - 1];
    NothingLate(types, rest, c.pid);
    NothingLate(types, calls, c.pid);
    assert c == calls[|calls| - 1] && 0 < |c.body| <= 0xFFFF - 8;
  }

  lemma {:induction false} OnePacketEach(types: seq<byte>, calls: seq<Call>, conv: Conv)
    requires AllSized(types, calls)
    ensures Delivered(types, calls, conv) == AllExpected(types, calls, conv)
  {
    hide LastPacket, Own, Expected, Late;
    if calls != [] {
      OnePacketEach(types, calls[..|calls| - 1], conv);
      OwnIsExpected(types, calls, conv);
      assert Delivered(types, calls[..|calls| - 1], conv) + [] == Delivered(types, calls[..|calls| - 1], conv);
    }
  }

  // In general each call with a payload on a converted stream gives one packet:
  // it is delivered, or the stream still has it at the end.
  function AllPackets(types: seq<byte>, calls: seq<Call>, conv: Conv): seq<Packet>
    requires Calls(types, calls)
  {
    if calls == [] then []
    else
      var c := calls[|calls| - 1];
      AllPackets(types, calls[..|calls| - 1], conv) + LastPacket(types, calls, c.pid, c.body, conv)
  }

  function LeftBehind(types: seq<byte>, calls: seq<Call>, conv: Conv, n: nat): multiset<Packet>
    requires n <= |types| <= 33
  {
    if n == 0 then multiset{}
    else
      var pid := Pes0PID + n - 1;
      LeftBehind(types, calls, conv, n - 1) + multiset(LastPacket(types, calls, pid, Late(calls, pid), conv))
  }

  lemma SamePacket(types: seq<byte>, calls: seq<Call>, pid: uint16, conv: Conv)
    requires Pes0PID <= pid < Pes0PID + |types| && calls != [] && calls[|calls| - 1].pid != pid
    ensures var rest := calls[..|calls| - 1];
            LastPacket(types, calls, pid, Late(calls, pid), conv) == LastPacket(types, rest, pid, Late(rest, pid), conv)
  {
    hide Clock, Converted;
    assert Times(calls[..|calls| - 1], pid) + [] == Times(calls[..|calls| - 1], pid);
  }

  lemma {:induction false} LeftAfterCall(types: seq<byte>, calls: seq<Call>, conv: Conv, n: nat)
    requires n <= |types| <= 33 && Calls(types, calls) && calls != []
    ensures var rest, c := calls[..|calls| - 1], calls[|calls| - 1];
            var before, after := LastPacket(types, rest, c.pid, Late(rest, c.pid), conv), LastPacket(types, calls, c.pid, Late(calls, c.pid), conv);
            if c.pid - Pes0PID < n then LeftBehind(types, calls, conv, n) + multiset(before) == LeftBehind(types, rest, conv, n) + multiset(after)
            else LeftBehind(types, calls, conv, n) == LeftBehind(types, rest, conv, n)
  {
    hide LastPacket, Late;
    if n > 0 {
      var rest, c, pid := calls[..|calls| - 1], calls[|calls| - 1], Pes0PID + n - 1;
      LeftAfterCall(types, calls, conv, n - 1);
      if pid != c.pid {
        SamePacket(types, calls, pid, conv);
        if c.pid < pid {
          AddBoth(LeftBehind(types, calls, conv, n - 1), multiset(LastPacket(types, rest, c.pid, Late(rest, c.pid), conv)),
                  LeftBehind(types, rest, conv, n - 1), multiset(LastPacket(types, calls, c.pid, Late(calls, c.pid), conv)),
                  multiset(LastPacket(types, rest, pid, Late(rest, pid), conv)));
        }
      }
    }
  }

  lemma AddBoth<T>(a: multiset<T>, b: multiset<T>, c: multiset<T>, d: multiset<T>, x: multiset<T>)
    requires a + b == c + d
    ensures (a + x) + b == (c + x) + d
  {
    assert (a + x) + b == (a + b) + x && (c + x) + d == (c + d) + x;
  }

  lemma Balance<T>(given: multiset<T>, left: multiset<T>, all: multiset<T>, now: multiset<T>, late: multiset<T>, kept: multiset<T>, own: multiset<T>, new_: multiset<T>)
    requires given + left == all && now + late == left + kept && own + kept == new_
    ensures given + late + own + now == all + new_
  {
    assert given + late + own + now == given + (now + late) + own;
    assert given + (left + kept) + own == (given + left) + (own + kept);
  }

  lemma OwnOrLate(types: seq<byte>, calls: seq<Call>, conv: Conv)
    requires Calls(types, calls) && calls != []
    ensures var c := calls[|calls| - 1];
            multiset(Own(types, calls, conv)) + multiset(LastPacket(types, calls, c.pid, Late(calls, c.pid), conv))
            == multiset(LastPacket(types, calls, c.pid, c.body, conv))
  {
    var c := calls[|calls| - 1];
    NoLastPacket(types, calls, c.pid, conv);
    hide LastPacket;
  }

  lemma NothingBehind(types: seq<byte>, conv: Conv, n: nat)
    requires n <= |types| <= 33
    ensures LeftBehind(types, [], conv, n) == multiset{}
  {
    if n > 0 {
      NothingBehind(types, conv, n - 1);
      NoLastPacket(types, [], Pes0PID + n - 1, conv);
    }
  }

  lemma {:induction false} OncePerCall(types: seq<byte>, calls: seq<Call>, conv: Conv)
    requires |types| <= 33 && Calls(types, calls)
    ensures multiset(Delivered(types, calls, conv)) + LeftBehind(types, calls, conv, |types|) == multiset(AllPackets(types, calls, conv))
  {
    hide LastPacket, Own, Late, LeftBehind;
    if calls == [] {
      NothingBehind(types, conv, |types|);
    } else {
      var rest, c := calls[..|calls| - 1], calls[|calls| - 1];
      OncePerCall(types, rest, conv);
      LeftAfterCall(types, calls, conv, |types|);
      OwnOrLate(types, calls, conv);
      Balance(multiset(Delivered(types, rest, conv)), LeftBehind(types, rest, conv, |types|), multiset(AllPackets(types, rest, conv)),
              LeftBehind(types, calls, conv, |types|), multiset(LastPacket(types, rest, c.pid, Late(rest, c.pid), conv)),
              multiset(LastPacket(types, calls, c.pid, Late(calls, c.pid), conv)), multiset(Own(types, calls, conv)),
              multiset(LastPacket(types, calls, c.pid, c.body, conv)));
    }
  }

  lemma AtEnd(e: Demux, conv: Conv, fuel: nat)
    requires fuel > 0 && e.held == None
    ensures ReadAll(e, [], conv, fuel) == Done([])
  {
  }

  lemma HeaderFirst(a: Demux, b: Demux, c: Demux, table: Packet, pat: Data, pmt: Data, input: Data, conv: Conv)
    requires |pat| == |pmt| == PacketSize && a.held == None && b.held == None && c.held == None
    requires ReadBuffer(a, pat, conv) == Go(b) && ReadBuffer(b, pmt, conv) == Out(c, table)
    ensures ReadPacket(a, pat + pmt + input, conv) == Got(c, table, input)
  {
    hide ReadBuffer;
    var all, rest := pat + pmt + input, pmt + input;
    assert all[..PacketSize] == pat && all[PacketSize..] == rest;
    assert rest[..PacketSize] == pmt && rest[PacketSize..] == input;
  }

  // ---- Continuity and length ------------------------------------------------------------

  // The packets of a call: 188 bytes each, with consecutive counters, and only
  // the first marked as the start.
  lemma {:induction false} PacketShape(pid: uint16, start: bool, sequence: uint16, data: Data, i: nat)
    requires pid < 0x2000
    ensures |TsPackets(pid, start, sequence, data)| == PacketSize * Count(|data|)
    ensures i < Count(|data|) ==>
              var b := TsPackets(pid, start, sequence, data);
              && b[PacketSize * i] == SyncByte && b[PacketSize * i + 3] % 0x10 == (sequence + i) % 0x10
              && b[PacketSize * i + 1..PacketSize * i + 3] == Put16(pid + if start && i == 0 then 0x4000 else 0)
    decreases |data|
  {
    hide Put16, TsPackets, TsPacket, Count;
    CountOfNone();
    if data == [] {
      PacketsOfNone(pid, start, sequence);
    } else {
      var n := if |data| < PacketSize - 4 then |data| else PacketSize - 4;
      var first, others := TsPacket(pid, start, sequence % 0x10, data[..n]), TsPackets(pid, false, Next16(sequence), data[n..]);
      PacketsStep(pid, start, sequence, data);
      PacketShape(pid, false, Next16(sequence), data[n..], if i == 0 then 0 else i - 1);
      FirstBytes(pid, start, sequence % 0x10, data[..n]);
      CountMore(|data|, n);
      if 0 < i {
        if i < Count(|data|) {
          LaterBytes(first, others, i);
        }
      } else {
        assert (first + others)[1..3] == first[1..3];
      }
    }
  }

  lemma CountOfNone()
    ensures Count(0) == 0
  {
  }

  lemma PacketsOfNone(pid: uint16, start: bool, sequence: uint16)
    requires pid < 0x2000
    ensures TsPackets(pid, start, sequence, []) == []
  {
  }

  lemma CountMore(length: nat, n: nat)
    requires length > 0 && n == if length < PacketSize - 4 then length else PacketSize - 4
    ensures Count(length) == 1 + Count(length - n)
  {
  }

  lemma LaterBytes(first: Data, others: Data, i: nat)
    requires |first| == PacketSize && i > 0 && PacketSize * i <= |others|
    ensures var b, at := first + others, PacketSize * (i - 1);
            && PacketSize * i == PacketSize + at
            && b[PacketSize * i] == others[at] && b[PacketSize * i + 3] == others[at + 3]
            && b[PacketSize * i + 1..PacketSize * i + 3] == others[at + 1..at + 3]
  {
  }

  lemma PacketsStep(pid: uint16, start: bool, sequence: uint16, data: Data)
    requires pid < 0x2000 && data != []
    ensures var n := if |data| < PacketSize - 4 then |data| else PacketSize - 4;
            TsPackets(pid, start, sequence, data) == TsPacket(pid, start, sequence % 0x10, data[..n]) + TsPackets(pid, false, Next16(sequence), data[n..])
  {
  }

  lemma FirstBytes(pid: uint16, start: bool, counter: nat, chunk: Data)
    requires pid < 0x2000 && counter < 0x10 && |chunk| <= PacketSize - 4
    ensures var b := TsPacket(pid, start, counter, chunk);
            b[0] == SyncByte && b[1..3] == Put16(pid + if start then 0x4000 else 0) && b[3] % 0x10 == counter
  {
    hide Put16;
  }

  // The counter goes on from call to call: a call starts with the number of
  // packets written before it.
  lemma {:induction false} CounterContinues(types: seq<byte>, calls: seq<Call>, pid: uint16)
    requires Pes0PID <= pid < Pes0PID + |types|
    ensures MuxPes(types, calls, pid).sequence == PacketsOf(calls, pid) % 0x1_0000
  {
    if calls != [] {
      CounterContinues(types, calls[..|calls| - 1], pid);
    }
  }

  function PacketsOf(calls: seq<Call>, pid: uint16): nat {
    if calls == [] then 0
    else
      var rest, c := calls[..|calls| - 1], calls[|calls| - 1];
      PacketsOf(rest, pid) + if c.pid == pid then Count(14 + |c.body|) else 0
  }
}
