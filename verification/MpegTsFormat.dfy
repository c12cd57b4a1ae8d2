// pkg/mpegts/muxer.go: the bytes of the packets that the muxer writes.

module MpegTsFormat {
  import opened Bytes
  import opened Bits
  import opened MpegTs

  const PmtPID: uint16 := 0x1000
  const Pes0PID: uint16 := 0x100

  // ---- Time ------------------------------------------------------------------------

  // x | 1
  function OrOne(x: nat): nat {
    x / 2 * 2 + 1
  }

  // The 32 bits of a time in the layout of a 33-bit one, with marker bits.
  function Time(t: uint32): (b: Data)
    ensures |b| == 5
  {
    [0x20 + OrOne(t / 0x2000_0000), t / 0x40_0000 % 0x100, OrOne(t / 0x4000 % 0x100), t / 0x80 % 0x100, t * 2 % 0x100 + 1]
  }

  // ---- PES -------------------------------------------------------------------------

  function StreamID(streamType: byte): byte {
    if streamType == H264 || streamType == H265 then 0xE0
    else if streamType == AAC || streamType == PCMATapo then 0xC0
    else 0
  }

  // The packet length counts what follows it; zero when it does not fit.
  function PesHeader(streamID: byte, pts: uint32, length: nat): (b: Data)
    ensures |b| == 14
  {
    [0, 0, 1, streamID] + Put16(if 8 + length <= 0xFFFF then 8 + length else 0) + [0x80, 0x80, 5] + Time(pts)
  }

  // One packet: the payload at the end, after stuffing if it is short.
  function TsPacket(pid: uint16, start: bool, counter: nat, chunk: Data): (b: Data)
    requires pid < 0x2000 && counter < 0x10 && |chunk| <= PacketSize - 4
    ensures |b| == PacketSize
  {
    [SyncByte] + Put16(pid + if start then 0x4000 else 0)
    + if |chunk| < PacketSize - 4 then [0x30 + counter, PacketSize - 5 - |chunk|] + Zeros(PacketSize - 5 - |chunk|) + chunk
      else [0x10 + counter] + chunk
  }

  function TsPackets(pid: uint16, start: bool, sequence: uint16, data: Data): (b: Data)
    requires pid < 0x2000
    decreases |data|
  {
    if data == [] then []
    else
      var n := if |data| < PacketSize - 4 then |data| else PacketSize - 4;
      TsPacket(pid, start, sequence % 0x10, data[..n]) + TsPackets(pid, false, Next16(sequence), data[n..])
  }

  // ---- Tables ------------------------------------------------------------------------

  // The start of a packet with a table, up to the section's content.
  function TableHeader(pid: uint16, table: byte, length: nat): (b: Data)
    requires pid < 0x2000 && length < 0x400
    ensures |b| == 13
  {
    [SyncByte] + Put16(0x4000 + pid) + [0x10, 0, table] + Put16(0xB000 + length) + Put16(1) + [0xC1, 0, 0]
  }

  // The checksum covers the section; its value does not matter to the demuxer.
  function Closed(b: Data, checksum: Data -> uint32): (r: Data)
    requires |b| >= 5
  {
    var crc := checksum(b[5..]);
    b + [crc % 0x100, crc / 0x100 % 0x100, crc / 0x1_0000 % 0x100, crc / 0x100_0000]
  }

  // A whole packet more when the packet is already full.
  function Padded(b: Data): (r: Data)
    ensures |r| % PacketSize == 0 && |r| > |b|
  {
    b + Zeros(PacketSize - |b| % PacketSize)
  }

  function PatContent(): Data {
    Put16(1) + Put16(0xE000 + PmtPID)
  }

  // The streams have consecutive identifiers.
  function StreamList(types: seq<byte>, pid: nat): (b: Data)
    requires pid + |types| <= 0x2000
    ensures |b| == 5 * |types|
    decreases |types|
  {
    if types == [] then [] else [types[0]] + Put16(0xE000 + pid) + Put16(0xF000) + StreamList(types[1..], pid + 1)
  }

  function PmtContent(types: seq<byte>): (b: Data)
    requires |types| <= 0x1F00
    ensures |b| == 4 + 5 * |types|
  {
    Put16(0xFFFF) + Put16(0xF000) + StreamList(types, Pes0PID)
  }

  function Pat(checksum: Data -> uint32): Data {
    Padded(Closed(TableHeader(0, 0, 13) + PatContent(), checksum))
  }

  // The length of the section has ten bits.
  function Pmt(types: seq<byte>, checksum: Data -> uint32): Data
    requires |types| <= 0x1F00
  {
    Padded(Closed(TableHeader(PmtPID, 2, (13 + 5 * |types|) % 0x400) + PmtContent(types), checksum))
  }

  // ---- The demuxer reads what was written ------------------------------------------------

  lemma TimeReads(buf: Data, pos: nat, t: uint32)
    requires pos + 5 <= |buf| && buf[pos..pos + 5] == Time(t)
    ensures ReadTime(buf, pos) == t
  {
    hide Num, Pow2, Put16, Time;
    var b := Time(t);
    var x, y := (b[1] as int) * 0x100 + b[2], (b[3] as int) * 0x100 + b[4];
    FiveBytes(buf, pos, b);
    PowersForTime();
    InByte(buf, pos, 4, 3, 2, 8);
    InTwoBytes(buf, pos + 1, 0, 15, x, 2, 0x8000);
    InTwoBytes(buf, pos + 3, 0, 15, y, 2, 0x8000);
    TimeParts(t);
  }

  lemma FiveBytes(buf: Data, pos: nat, b: Data)
    requires |b| == 5 && pos + 5 <= |buf| && buf[pos..pos + 5] == b
    ensures buf[pos] == b[0]
    ensures buf[pos + 1..pos + 3] == Put16((b[1] as int) * 0x100 + b[2])
    ensures buf[pos + 3..pos + 5] == Put16((b[3] as int) * 0x100 + b[4])
  {
    assert buf[pos + 1..pos + 3] == buf[pos..pos + 5][1..3] == b[1..3];
    assert buf[pos + 3..pos + 5] == buf[pos..pos + 5][3..5] == b[3..5];
    TwoOf(b[1], b[2]);
    TwoOf(b[3], b[4]);
    hide Put16;
    assert b[1..3] == [b[1], b[2]] && b[3..5] == [b[3], b[4]] && buf[pos] == buf[pos..pos + 5][0];
  }

  lemma TwoOf(a: byte, b: byte)
    ensures Put16((a as int) * 0x100 + b) == [a, b]
  {
  }

  lemma PowersForTime()
    ensures Pow2(1) == 2 && Pow2(3) == 8 && Pow2(15) == 0x8000
  {
    Pow2Values();
    assert Pow2(15) == 2 * Pow2(14) && Pow2(14) == 2 * Pow2(13);
  }

  lemma TimeParts(t: uint32)
    ensures var b := Time(t);
            (b[0] as int / 2 % 8) * 0x4000_0000 % 0x1_0000_0000
            + ((b[1] as int) * 0x100 + b[2]) / 2 % 0x8000 * 0x8000
            + ((b[3] as int) * 0x100 + b[4]) / 2 % 0x8000 == t
  {
    var h, m, l := t / 0x4000_0000, t / 0x8000 % 0x8000, t % 0x8000;
    TimeDigits(t);
    TimeHigh(h, m * 0x8000 + l);
    TimeMiddle(h, m, l);
    TimeLow(h * 0x8000 + m, l);
    hide OrOne;
  }

  lemma TimeDigits(t: uint32)
    ensures t / 0x4000_0000 < 4 && t == t / 0x4000_0000 * 0x4000_0000 + t / 0x8000 % 0x8000 * 0x8000 + t % 0x8000
  {
    assert t / 0x8000 / 0x8000 == t / 0x4000_0000;
  }

  lemma TimeHigh(h: nat, rest: nat)
    requires h < 4 && rest < 0x4000_0000
    ensures var t := h * 0x4000_0000 + rest; (0x20 + OrOne(t / 0x2000_0000)) / 2 % 8 * 0x4000_0000 % 0x1_0000_0000 == h * 0x4000_0000
  {
  }

  lemma TimeMiddle(h: nat, m: nat, l: nat)
    requires h < 4 && m < 0x8000 && l < 0x8000
    ensures var t := h * 0x4000_0000 + m * 0x8000 + l;
            (t / 0x40_0000 % 0x100 * 0x100 + OrOne(t / 0x4000 % 0x100)) / 2 % 0x8000 == m
  {
    var a, b := m / 0x80, m % 0x80;
    MiddleBytes(h, a, b, l);
    assert m * 0x8000 == a * 0x40_0000 + b * 0x8000;
  }

  lemma MiddleBytes(h: nat, a: nat, b: nat, l: nat)
    requires h < 4 && a < 0x100 && b < 0x80 && l < 0x8000
    ensures var t := h * 0x4000_0000 + a * 0x40_0000 + b * 0x8000 + l;
            t / 0x40_0000 % 0x100 == a && OrOne(t / 0x4000 % 0x100) == b * 2 + 1
  {
    var t := h * 0x4000_0000 + a * 0x40_0000 + b * 0x8000 + l;
    assert t / 0x40_0000 == h * 0x100 + a;
    assert t / 0x4000 == (h * 0x100 + a) * 0x100 + b * 2 + l / 0x4000;
    assert t / 0x4000 % 0x100 == b * 2 + l / 0x4000;
  }

  lemma TimeLow(high: nat, l: nat)
    requires l < 0x8000
    ensures var t := high * 0x8000 + l; (t / 0x80 % 0x100 * 0x100 + (t * 2 % 0x100 + 1)) / 2 % 0x8000 == l
  {
    var t, a, b := high * 0x8000 + l, l / 0x80, l % 0x80;
    assert t / 0x80 == high * 0x100 + a;
    assert t * 2 == (high * 0x100 + a) * 0x100 + 2 * b;
    LowByte(high * 0x100 + a, b);
    HighByte(high, a);
  }

  lemma LowByte(q: nat, b: nat)
    requires b < 0x80
    ensures (q * 0x100 + 2 * b) % 0x100 == 2 * b
  {
  }

  lemma HighByte(q: nat, a: nat)
    requires a < 0x100
    ensures (q * 0x100 + a) % 0x100 == a
  {
  }

  // The header of a packet, and the payload behind it.
  lemma PacketReads(pid: uint16, start: bool, counter: nat, chunk: Data)
    requires pid < 0x2000 && counter < 0x10 && 0 < |chunk| <= PacketSize - 4
    ensures var b := TsPacket(pid, start, counter, chunk);
            ReadHeader(b) == Header(pid, start, PacketSize - |chunk|) && b[PacketSize - |chunk|..] == chunk
  {
    hide Num, Pow2, Put16;
    var b, v: uint16 := TsPacket(pid, start, counter, chunk), pid + if start then 0x4000 else 0;
    assert b[1..3] == Put16(v);
    assert b[PacketSize - |chunk|..] == chunk;
    SmallPowers();
    InTwoBytes(b, 1, 3, 13, v, 1, 0x2000);
    InTwoBytes(b, 1, 1, 1, v, 0x4000, 2);
    InByte(b, 3, 2, 1, 0x20, 2);
  }

  // The payload of a PES packet that does not fit its size field has none.
  function Room(length: nat): nat {
    if 8 + length <= 0xFFFF then length else 0
  }

  lemma StartReads(p: Pes, buf: Data, pos: nat, streamID: byte, pts: uint32, length: nat, conv: Conv)
    requires |buf| == PacketSize && pos + 14 <= PacketSize && buf[pos..pos + 14] == PesHeader(streamID, pts, length)
    ensures StartPes(p, buf, pos, conv) ==
            Finish(p.(streamID := streamID, pts := pts, dts := 0, payload := buf[pos + 14..], size := Room(length)), conv)
  {
    hide Num, Pow2, Put16, Time, Finish, ReadTime;
    var h := PesHeader(streamID, pts, length);
    var size: uint16 := if 8 + length <= 0xFFFF then 8 + length else 0;
    HeaderBytes(buf, pos, h, streamID, size, pts);
    SmallPowers();
    InTwoBytes(buf, pos + 4, 0, 16, size, 1, 0x1_0000);
    InByte(buf, pos + 7, 0, 1, 0x80, 2);
    InByte(buf, pos + 7, 1, 1, 0x40, 2);
    TimeReads(buf, pos + 9, pts);
    assert Skip(pos + 14, 0) == pos + 14;
  }

  lemma HeaderBytes(buf: Data, pos: nat, h: Data, streamID: byte, size: uint16, pts: uint32)
    requires pos + 14 <= |buf| && buf[pos..pos + 14] == h == [0, 0, 1, streamID] + Put16(size) + [0x80, 0x80, 5] + Time(pts)
    ensures buf[pos] == 0 && buf[pos + 1] == 0 && buf[pos + 2] == 1 && buf[pos + 3] == streamID
    ensures buf[pos + 4..pos + 6] == Put16(size) && buf[pos + 7] == 0x80 && buf[pos + 8] == 5
    ensures buf[pos + 9..pos + 14] == Time(pts)
  {
    hide Put16, Time;
    assert forall k :: 0 <= k < 14 ==> buf[pos + k] == buf[pos..pos + 14][k] == h[k];
    assert buf[pos + 4..pos + 6] == buf[pos..pos + 14][4..6] == h[4..6] == Put16(size);
    assert buf[pos + 9..pos + 14] == buf[pos..pos + 14][9..] == h[9..] == Time(pts);
  }
}
