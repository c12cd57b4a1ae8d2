// pkg/mpegts: the format of transport stream packets, and what the demuxer reads
// from them.

module MpegTs {
  import opened Bytes
  import opened Bits

  const PacketSize: nat := 188
  const SyncByte: byte := 0x47

  // A stream, as the muxer and the demuxer keep it.
  datatype Pes = Pes(streamID: byte, streamType: byte, sequence: uint16, timestamp: uint32, pts: uint32, dts: uint32,
                     payload: Data, size: nat)

  function NewPes(streamType: byte): Pes {
    Pes(0, streamType, 0, 0, 0, 0, [], 0)
  }

  const H264: byte := 0x1B
  const H265: byte := 0x24
  const AAC: byte := 0x0F
  const PCMATapo: byte := 0x90
  const PCMUTapo: byte := 0x91
  const Private: byte := 0x06
  const PrivateOPUS: byte := 0xEB

  // The conversions of payloads that other packages do.
  datatype Conv = Conv(avcc: Data -> Data, rtp: Data -> Data, cutOpus: Data -> (Data, Data))

  // The program table is handed out as the types of its streams, in the order of
  // a Go map.
  datatype Packet =
    | Table(types: multiset<byte>)
    | Media(streamType: byte, sequence: uint16, timestamp: uint32, cts: uint16, payload: Data)

  // A program identifier.
  function Pid(buf: Data, at: nat): (pid: uint16)
    ensures pid < 0x2000
  {
    assert Pow2(13) == 0x2000 by { Pow2Values(); }
    Num(buf, at, 13)
  }

  // ---- Demuxer: one packet -----------------------------------------------------------

  datatype Header = WrongSync | WrongAdaptation | Header(pid: uint16, start: bool, pos: nat)

  function ReadHeader(buf: Data): (h: Header)
    requires |buf| == PacketSize
    ensures h.Header? ==> 4 <= h.pos < PacketSize
  {
    if buf[0] != SyncByte then WrongSync
    else
      var pid, start := Pid(buf, 11), Num(buf, 9, 1) != 0;
      if Num(buf, 26, 1) == 0 then Header(pid, start, 4)
      else if buf[4] as nat > PacketSize - 6 then WrongAdaptation
      else Header(pid, start, 5 + buf[4])
  }

  const SkipRead: nat := 0xFF

  // The cursor is a byte: skipping wraps around.
  function Skip(pos: nat, n: nat): (r: nat)
    ensures r < 0x100
  {
    (pos + n) % 0x100
  }

  datatype Section = Section(pos: nat, end: nat)

  // Where the content of a table starts, and where its section ends.
  function ReadPSI(buf: Data, pos: nat): (r: Option<Section>)
    requires |buf| == PacketSize && pos < PacketSize
    ensures r.Some? ==> r.value.pos <= PacketSize && r.value.end < 0x100
  {
    var p := Skip(pos + 1, buf[pos]);
    if p + 8 > PacketSize then None
    else Some(Section(p + 8, Skip(p + 3, Num(buf, 8 * (p + 1) + 6, 10))))
  }

  // Programs are read while more than a checksum is left of the section.
  function Left(pos: nat, end: nat): nat {
    (end - pos) % 0x100
  }

  function ReadPrograms(buf: Data, pos: nat, end: nat, pmtID: uint16): Option<uint16>
    requires |buf| == PacketSize
    decreases PacketSize - pos
  {
    if Left(pos, end) <= 4 then Some(pmtID)
    else if pos + 4 > PacketSize then None
    else ReadPrograms(buf, pos + 4, end, if Num(buf, 8 * pos, 16) != 0 then Pid(buf, 8 * pos + 19) else pmtID)
  }

  const OpusInfo: Data := [5, 4, 0x4F, 0x70, 0x75, 0x73]

  // The streams, and where the list ended.
  datatype Streams = Streams(pes: map<uint16, Pes>, pos: nat)

  function ReadStreams(buf: Data, pos: nat, end: nat, pes: map<uint16, Pes>): Option<Streams>
    requires |buf| == PacketSize
    decreases PacketSize - pos
  {
    if Left(pos, end) <= 4 then Some(Streams(pes, pos))
    else if pos + 5 > PacketSize then None
    else
      var next := Skip(pos + 5, Num(buf, 8 * (pos + 3) + 6, 10));
      if next < pos + 5 || next > PacketSize then None
      else
        var info := buf[pos + 5..next];
        var streamType := if buf[pos] == Private && OpusInfo <= info then PrivateOPUS else buf[pos];
        ReadStreams(buf, next, end, pes[Pid(buf, 8 * (pos + 1) + 3) := NewPes(streamType)])
  }

  function ReadPMT(buf: Data, pos: nat): Option<Streams>
    requires |buf| == PacketSize && pos < PacketSize
  {
    var section := ReadPSI(buf, pos);
    if section == None || section.value.pos + 4 > PacketSize then None
    else
      var p := section.value.pos;
      ReadStreams(buf, Skip(p + 4, Num(buf, 8 * (p + 2) + 6, 10)), section.value.end, map[])
  }

  // A 33-bit time of which the demuxer keeps 32 bits.
  function ReadTime(buf: Data, pos: nat): (t: uint32) {
    (Num(buf, 8 * pos + 4, 3) * 0x4000_0000 % 0x1_0000_0000) + Num(buf, 8 * pos + 8, 15) * 0x8000 + Num(buf, 8 * pos + 24, 15)
  }

  // ---- Demuxer: streams ---------------------------------------------------------------

  function Next16(x: uint16): uint16 {
    (x + 1) % 0x1_0000
  }

  // The packet of a finished buffer; unknown types give none.
  function GetPacket(p: Pes, conv: Conv): (Option<Packet>, Pes) {
    if p.streamType == H264 || p.streamType == H265 then
      (Some(Media(p.streamType, 0, if p.dts != 0 then p.dts else p.pts, if p.dts != 0 then (p.pts - p.dts) % 0x1_0000 else 0,
                  conv.avcc(p.payload))),
       p.(payload := []))
    else if p.streamType == AAC then
      (Some(Media(AAC, Next16(p.sequence), p.pts, 0, conv.rtp(p.payload))), p.(sequence := Next16(p.sequence), payload := []))
    else if p.streamType == PCMATapo || p.streamType == PCMUTapo then
      (Some(Media(p.streamType, Next16(p.sequence), p.pts, 0, p.payload)), p.(sequence := Next16(p.sequence), payload := []))
    else if p.streamType == PrivateOPUS then
      var (packet, left) := conv.cutOpus(p.payload);
      (Some(Media(p.streamType, Next16(p.sequence), p.pts, 0, packet)),
       p.(sequence := Next16(p.sequence), payload := left, pts := (p.pts + 1800) % 0x1_0000_0000))
    else (None, p.(payload := []))
  }

  // What reading one packet did to a stream: nothing to hand out, or a packet,
  // perhaps with the buffer to be read again.
  datatype Read = Fault | Quiet(pes: Pes) | Ready(pes: Pes, packet: Packet, again: bool)

  function Emit(p: Pes, conv: Conv): Read {
    var (packet, q) := GetPacket(p, conv);
    if packet.Some? then Ready(q, packet.value, false) else Quiet(q)
  }

  function Finish(p: Pes, conv: Conv): Read {
    if p.size != 0 && |p.payload| >= p.size then Emit(p, conv) else Quiet(p)
  }

  // The header of a PES packet: the length of the payload that is left of the
  // packet size (0 for none), the times, and where the payload starts.
  function ReadStart(p: Pes, buf: Data, pos: nat): (r: Option<Pes>)
    requires |buf| == PacketSize && pos + 9 <= PacketSize
  {
    var size, length: byte := Num(buf, 8 * (pos + 4), 16), buf[pos + 8];
    var room := if size == 0 then 0 else (size - (3 + length) % 0x100) % 0x1_0000;
    var hasPts, hasDts := Num(buf, 8 * (pos + 7), 1) != 0, Num(buf, 8 * (pos + 7) + 1, 1) != 0;
    var a := if hasPts then pos + 14 else pos + 9;
    var b := if hasDts then a + 5 else a;
    if b > PacketSize then None
    else
      var from := Skip(b, (length - (b - (pos + 9))) % 0x100);
      if from > PacketSize then None
      else
        Some(p.(streamID := buf[pos + 3], pts := if hasPts then ReadTime(buf, pos + 9) else 0,
                dts := if hasDts then ReadTime(buf, a) else 0, payload := buf[from..], size := room))
  }

  // A buffer that does not start with 00 00 01 is ignored.
  function StartPes(p: Pes, buf: Data, pos: nat, conv: Conv): Read
    requires |buf| == PacketSize && pos < PacketSize
  {
    if buf[pos] != 0 then Quiet(p)
    else if pos + 1 == PacketSize then Fault
    else if buf[pos + 1] != 0 then Quiet(p)
    else if pos + 2 == PacketSize then Fault
    else if buf[pos + 2] != 1 then Quiet(p)
    else if pos + 9 > PacketSize then Fault
    else
      var q := ReadStart(p, buf, pos);
      if q == None then Fault else Finish(q.value, conv)
  }

  function ReadPES(p: Pes, buf: Data, pos: nat, start: bool, conv: Conv): Read
    requires |buf| == PacketSize && pos < PacketSize
  {
    if start && p.payload != [] then
      var r := Emit(p, conv);
      if r.Ready? then r.(again := true) else StartPes(r.pes, buf, pos, conv)
    else if start then StartPes(p, buf, pos, conv)
    else Finish(p.(payload := p.payload + buf[pos..]), conv)
  }

  // ---- Demuxer: the input -------------------------------------------------------------

  // held is the buffer that is read again.
  datatype Demux = Demux(pmtID: uint16, pes: Option<map<uint16, Pes>>, held: Option<Data>)

  datatype Step = Failed | Panic | Go(d: Demux) | Out(d: Demux, packet: Packet)

  function Types(pes: map<uint16, Pes>, pids: nat): multiset<byte> {
    if pids == 0 then multiset{}
    else Types(pes, pids - 1) + if pids - 1 in pes then multiset{pes[pids - 1].streamType} else multiset{}
  }

  function ReadBuffer(d: Demux, buf: Data, conv: Conv): Step
    requires |buf| == PacketSize
  {
    var h := ReadHeader(buf);
    if !h.Header? then Failed
    else if d.pes == None then
      if h.pid == 0 then
        var section := ReadPSI(buf, h.pos);
        var pmtID := if section == None then None else ReadPrograms(buf, section.value.pos, section.value.end, d.pmtID);
        if pmtID == None then Panic else Go(Demux(pmtID.value, None, None))
      else if h.pid == d.pmtID then
        var list := ReadPMT(buf, h.pos);
        if list == None then Panic
        else
          // The checksum is skipped; the cursor may reach the mark for reading again.
          var held := if Skip(list.value.pos, 4) == SkipRead then Some(buf) else None;
          Out(Demux(d.pmtID, Some(list.value.pes), held), Table(Types(list.value.pes, 0x2000)))
      else Go(d.(held := None))
    else if h.pid !in d.pes.value then Go(d.(held := None))
    else
      var r := ReadPES(d.pes.value[h.pid], buf, h.pos, h.start, conv);
      if r == Fault then Panic
      else
        var after := Demux(d.pmtID, Some(d.pes.value[h.pid := r.pes]), None);
        if r.Quiet? then Go(after)
        else if r.again then Out(after.(held := Some(buf)), r.packet)
        else Out(after, r.packet)
  }

  datatype Result = Eof | Error | Panicked | Got(d: Demux, packet: Packet, rest: Data)

  predicate Valid(d: Demux) {
    d.held.Some? ==> |d.held.value| == PacketSize
  }

  // ReadPacket over the bytes that are left of the input.
  function ReadPacket(d: Demux, input: Data, conv: Conv): (r: Result)
    requires Valid(d)
    ensures r.Got? ==> Valid(r.d) && |r.rest| <= |input|
    decreases |input|, if d.held.Some? then 1 else 0
  {
    if d.held == None && |input| < PacketSize then Eof
    else
      var buf := if d.held.Some? then d.held.value else input[..PacketSize];
      var rest := if d.held.Some? then input else input[PacketSize..];
      match ReadBuffer(d, buf, conv)
      case Failed => Error
      case Panic => Panicked
      case Out(e, packet) => Got(e, packet, rest)
      case Go(e) => ReadPacket(e, rest, conv)
  }

  // The packets up to the end of the input or an error.
  datatype Packets = Done(packets: seq<Packet>) | Broken(packets: seq<Packet>)

  function ReadAll(d: Demux, input: Data, conv: Conv, fuel: nat): Packets
    requires Valid(d)
    decreases fuel
  {
    if fuel == 0 then Broken([])
    else
      var r := ReadPacket(d, input, conv);
      if r.Eof? then Done([])
      else if !r.Got? then Broken([])
      else
        var more := ReadAll(r.d, r.rest, conv, fuel - 1);
        more.(packets := [r.packet] + more.packets)
  }

  const NewDemux := Demux(0, None, None)
}
