// pkg/mpegts/demuxer.go: the demuxer with its byte-sized cursor.

module MpegTsDemuxer {
  import opened Bytes
  import opened Bits
  import opened MpegTs

  class Demuxer {
    const conv: Conv
    var buf: Data
    var byte_: byte
    var bits: nat
    var pos: byte
    var end: byte
    var pmtID: uint16
    var pes: Option<map<uint16, Pes>>
    // An index outside the buffer: the source panics.
    var fault: bool

    ghost function Current(): Demux
      reads this
    {
      Demux(pmtID, pes, if pos == SkipRead then Some(buf) else None)
    }

    // The cursor, in bits.
    ghost function At(): int
      reads this
    {
      8 * pos - bits
    }

    ghost predicate Valid()
      reads this
    {
      && |buf| == PacketSize && bits <= 7
      && (bits > 0 && !fault ==> 1 <= pos <= PacketSize && byte_ == buf[pos - 1])
    }

    constructor (conv: Conv)
      ensures Valid() && Current() == NewDemux && !fault && this.conv == conv
    {
      this.conv, buf, byte_, bits, pos, end, pmtID, pes, fault := conv, Zeros(PacketSize), 0, 0, 0, 0, 0, None, false;
    }

    method ReadByte() returns (b: byte)
      requires Valid()
      modifies this`pos, this`bits, this`byte_, this`fault
      ensures Valid() && (fault <==> old(fault) || old(At()) + 8 > 8 * PacketSize)
      ensures !fault ==> At() == old(At()) + 8 && bits == old(bits) && b == Num(buf, old(At()), 8)
      ensures !fault && bits == 0 ==> b == buf[old(pos)]
      decreases 3
    {
      if bits != 0 {
        b := ReadBits8();
        return;
      }
      if pos >= PacketSize {
        fault := true;
        return 0;
      }
      NumByte(buf, pos);
      b := buf[pos];
      pos := pos + 1;
    }

    method ReadBits8() returns (b: byte)
      requires Valid() && bits != 0
      modifies this`pos, this`bits, this`byte_, this`fault
      ensures Valid() && (fault <==> old(fault) || old(At()) + 8 > 8 * PacketSize)
      ensures !fault ==> At() == old(At()) + 8 && bits == old(bits) && b == Num(buf, old(At()), 8)
      decreases 2
    {
      Pow2Values();
      var v := ReadBits(8);
      return if fault then 0 else v;
    }

    method ReadBit() returns (b: nat)
      requires Valid()
      modifies this`pos, this`bits, this`byte_, this`fault
      ensures Valid() && (fault <==> old(fault) || old(At()) + 1 > 8 * PacketSize)
      ensures bits == if old(bits) == 0 then 7 else old(bits) - 1
      ensures !fault ==> At() == old(At()) + 1 && b == BitAt(buf, old(At()))
      decreases 0
    {
      if bits == 0 {
        if pos >= PacketSize {
          fault := true;
        } else {
          byte_ := buf[pos];
          pos := pos + 1;
        }
        bits := 7;
      } else {
        bits := bits - 1;
      }
      if !fault {
        BitInByte(buf, pos - 1, 7 - bits);
      }
      return Shr(byte_, bits) % 2;
    }

    // readBits and readBits16 differ in the width of the result; the counter is
    // a byte.
    method ReadBits(n: byte) returns (res: nat)
      requires Valid() && n <= 32
      modifies this`pos, this`bits, this`byte_, this`fault
      ensures Valid() && (fault <==> old(fault) || (n > 0 && old(At()) + n > 8 * PacketSize))
      ensures !fault ==> At() == old(At()) + n && res == Num(buf, old(At()), n)
      decreases 1
    {
      hide Num, BitAt, Pow2, HighPart;
      res := 0;
      ghost var from, done: nat := At(), 0;
      if !fault && from >= 0 { HighPartEnds(buf, from, n); }
      var i := if n == 0 then 255 else n - 1;
      while i != 255
        invariant done <= n && i == (if done == n then 255 else n - 1 - done)
        invariant Valid() && (fault <==> old(fault) || (done > 0 && from + done > 8 * PacketSize))
        invariant !fault ==> At() == from + done && res == HighPart(buf, from, done, n)
        decreases n - done
      {
        if !fault { AddBit(buf, from, done, n); }
        var bit := ReadBit();
        res := res + bit * Pow2(i);
        i := if i == 0 then 255 else i - 1;
        done := done + 1;
      }
    }

    method SkipBytes(i: nat)
      requires Valid() && i < 0x100
      modifies this`pos
      ensures pos == Skip(old(pos), i) && (bits == 0 ==> Valid())
    {
      pos := (pos + i) % 0x100;
    }

    // From the error indicator to the identifier, and the next byte.
    method ReadPid() returns (pid: uint16, start: bool)
      requires Valid() && !fault && bits == 0 && pos == 1
      modifies this`pos, this`bits, this`byte_, this`fault
      ensures Valid() && !fault && bits == 0 && pos == 3 && pid == Pid(buf, 11) && start == (Num(buf, 9, 1) != 0)
    {
      hide Num;
      var _ := ReadBit();
      NumOne(buf, 9);
      var pusi := ReadBit();
      var _ := ReadBit();
      pid := ReadPidBits();
      start := pusi != 0;
    }

    method ReadPidBits() returns (pid: uint16)
      requires Valid()
      modifies this`pos, this`bits, this`byte_, this`fault
      ensures Valid() && (fault <==> old(fault) || old(At()) + 13 > 8 * PacketSize)
      ensures !fault ==> At() == old(At()) + 13 && pid == Pid(buf, old(At()))
    {
      Pow2Values();
      var v := ReadBits(13);
      return if fault then 0 else v;
    }

    method ReadFlags() returns (af: bool)
      requires Valid() && !fault && bits == 0 && pos == 3
      modifies this`pos, this`bits, this`byte_, this`fault
      ensures Valid() && !fault && bits == 0 && pos == 4 && af == (Num(buf, 26, 1) != 0)
    {
      hide Num;
      var _ := ReadBits(2);
      NumOne(buf, 26);
      var bit := ReadBit();
      af := bit != 0;
      var _ := ReadBit();
      var _ := ReadBits(4);
    }

    method ReadPacketHeader() returns (h: Header)
      requires Valid()
      modifies this`pos, this`bits, this`byte_, this`end, this`fault
      ensures Valid() && h == ReadHeader(buf)
      ensures !fault && (h.Header? ==> bits == 0 && pos == h.pos)
    {
      hide Num, Pid;
      fault, pos, end, bits := false, 0, PacketSize, 0;
      var sb := ReadByte();
      if sb != SyncByte {
        return WrongSync;
      }
      var pid, start := ReadPid();
      var af := ReadFlags();
      if af {
        var adSize := ReadByte();
        if adSize as nat > PacketSize - 6 {
          return WrongAdaptation;
        }
        SkipBytes(adSize);
      }
      return Header(pid, start, pos);
    }

    // The table identifier, the flags and the length of a section.
    method ReadLength() returns (size: nat)
      requires Valid() && !fault && bits == 0
      modifies this`pos, this`bits, this`byte_, this`fault
      ensures Valid() && (fault <==> old(pos) + 3 > PacketSize)
      ensures !fault ==> bits == 0 && pos == old(pos) + 3 && size == Num(buf, 8 * (old(pos) + 1) + 6, 10)
    {
      hide Num;
      var _ := ReadByte();
      var _ := ReadBit();
      var _ := ReadBit();
      var _ := ReadBits(2);
      var _ := ReadBits(2);
      size := ReadBits(10);
    }

    method SkipVersion()
      requires Valid() && (!fault ==> bits == 0)
      modifies this`pos, this`bits, this`byte_, this`fault
      ensures Valid() && (fault <==> old(fault) || old(pos) + 5 > PacketSize)
      ensures !fault ==> bits == 0 && pos == old(pos) + 5
    {
      hide Num;
      var _ := ReadBits(16);
      var _ := ReadBits(2);
      var _ := ReadBits(5);
      var _ := ReadBit();
      var _ := ReadByte();
      var _ := ReadByte();
    }

    method ReadPSIHeader()
      requires Valid() && !fault && bits == 0 && pos < PacketSize
      modifies this`pos, this`bits, this`byte_, this`end, this`fault
      ensures Valid() && (fault <==> ReadPSI(buf, old(pos)) == None)
      ensures !fault ==> bits == 0 && ReadPSI(buf, old(pos)) == Some(Section(pos, end))
    {
      hide Num, ReadPSI, Skip;
      PsiUnfold(buf, pos);
      var pointer := ReadByte();
      SkipBytes(pointer);
      var size := ReadLength();
      SkipLow(pos, size);
      end := (pos + size % 0x100) % 0x100;
      SkipVersion();
    }

    method ReadPAT()
      requires Valid() && !fault && bits == 0 && pos < PacketSize
      modifies this`pos, this`bits, this`byte_, this`end, this`fault, this`pmtID
      ensures var section := ReadPSI(buf, old(pos));
              var id := if section == None then None else ReadPrograms(buf, section.value.pos, section.value.end, old(pmtID));
              (fault <==> id == None) && (!fault ==> Some(pmtID) == id)
      ensures Valid() && (!fault ==> pos != SkipRead)
    {
      hide Num, Pid, ReadPSI, ReadPrograms, Left, Skip;
      ReadPSIHeader();
      if fault {
        return;
      }
      ghost var from := pos;
      while !fault && Left(pos, end) > 4
        invariant Valid() && (!fault ==> bits == 0 && pos <= PacketSize)
        invariant ReadPSI(buf, old(pos)) == Some(Section(from, end))
        invariant if fault then ReadPrograms(buf, from, end, old(pmtID)) == None
                  else ReadPrograms(buf, pos, end, pmtID) == ReadPrograms(buf, from, end, old(pmtID))
        decreases if fault then 0 else 1, PacketSize - pos
      {
        ProgramsUnfold(buf, pos, end, pmtID);
        ReadProgram();
      }
      if !fault {
        ProgramsUnfold(buf, pos, end, pmtID);
        SkipNear(pos);
        SkipBytes(4);
      }
    }

    // One program of the table.
    method ReadProgram()
      requires Valid() && !fault && bits == 0 && pos <= PacketSize
      modifies this`pos, this`bits, this`byte_, this`fault, this`pmtID
      ensures Valid() && (fault <==> old(pos) + 4 > PacketSize)
      ensures !fault ==> bits == 0 && pos == old(pos) + 4
                         && pmtID == if Num(buf, 8 * old(pos), 16) != 0 then Pid(buf, 8 * old(pos) + 19) else old(pmtID)
    {
      hide Num, Pid;
      var num := ReadBits(16);
      var _ := ReadBits(3);
      var pid := ReadPidBits();
      if num != 0 {
        pmtID := pid;
      }
    }

    // The program information before the list of streams is skipped.
    method ReadPMT()
      requires Valid() && !fault && bits == 0 && pos < PacketSize
      modifies this`pos, this`bits, this`byte_, this`end, this`fault, this`pes
      ensures Valid()
      ensures var list := MpegTs.ReadPMT(buf, old(pos));
              (fault <==> list == None) && (!fault ==> pes == Some(list.value.pes) && pos == Skip(list.value.pos, 4))
    {
      hide Num, Pid, ReadPSI, ReadStreams, MpegTs.ReadPMT;
      PmtUnfold(buf, pos);
      ReadPSIHeader();
      if fault {
        return;
      }
      var size := ReadInfo();
      if fault {
        return;
      }
      SkipBytes(size % 0x100);
      pes := Some(map[]);
      hide Skip;
      ReadStreamList();
    }

    method ReadStreamList()
      requires Valid() && !fault && bits == 0 && pes == Some(map[])
      modifies this`pos, this`bits, this`byte_, this`fault, this`pes
      ensures Valid()
      ensures var list := ReadStreams(buf, old(pos), end, map[]);
              (fault <==> list == None) && (!fault ==> pes == Some(list.value.pes) && pos == Skip(list.value.pos, 4))
    {
      hide Num, Pid, ReadStreams, NextStream;
      ghost var start := pos;
      while !fault && Left(pos, end) > 4
        invariant Valid() && pes.Some? && (!fault ==> bits == 0)
        invariant if fault then ReadStreams(buf, start, end, map[]) == None
                  else ReadStreams(buf, pos, end, pes.value) == ReadStreams(buf, start, end, map[])
        decreases if fault then 0 else 1, PacketSize - pos
      {
        StreamsUnfold(buf, pos, end, pes.value);
        NextWithin(buf, pos);
        ReadStream();
      }
      if !fault {
        StreamsUnfold(buf, pos, end, pes.value);
        SkipBytes(4);
      }
    }

    method ReadInfo() returns (size: nat)
      requires Valid() && !fault && bits == 0
      modifies this`pos, this`bits, this`byte_, this`fault
      ensures Valid() && (fault <==> old(pos) + 4 > PacketSize)
      ensures !fault ==> bits == 0 && pos == old(pos) + 4 && size == Num(buf, 8 * (old(pos) + 2) + 6, 10)
    {
      hide Num;
      var _ := ReadBits(3);
      var _ := ReadBits(13);
      var _ := ReadBits(4);
      var _ := ReadBits(2);
      size := ReadBits(10);
    }

    // One stream of the table. Its description is a slice of the buffer, whose
    // bounds are bytes that wrap around.
    method ReadStream()
      requires Valid() && !fault && bits == 0 && pes.Some?
      modifies this`pos, this`bits, this`byte_, this`fault, this`pes
      ensures Valid() && pes.Some? && (!fault ==> bits == 0)
      ensures fault <==> NextStream(buf, old(pos)) == None
      ensures !fault ==> var (next, pid, streamType) := NextStream(buf, old(pos)).value;
                         pos == next && next >= old(pos) + 5 && pes == Some(old(pes).value[pid := NewPes(streamType)])
    {
      hide Num, Pid, Skip, NextStream;
      NextUnfold(buf, pos);
      var streamType, pid, size := ReadStreamHead();
      if fault {
        return;
      }
      SkipLow(pos, size);
      var info := ReadBytes(size % 0x100);
      if fault {
        return;
      }
      if streamType == Private && OpusInfo <= info {
        streamType := PrivateOPUS;
      }
      pes := Some(pes.value[pid := NewPes(streamType)]);
    }

    method ReadBytes(i: nat) returns (info: Data)
      requires Valid() && !fault && bits == 0 && i < 0x100
      modifies this`pos, this`fault
      ensures Valid() && pos == Skip(old(pos), i) && (fault <==> pos < old(pos) || pos > PacketSize)
      ensures !fault ==> info == buf[old(pos)..pos]
    {
      var from := pos;
      SkipBytes(i);
      if pos < from || pos > PacketSize {
        fault := true;
        return [];
      }
      return buf[from..pos];
    }

    method ReadStreamHead() returns (streamType: byte, pid: uint16, size: nat)
      requires Valid() && !fault && bits == 0
      modifies this`pos, this`bits, this`byte_, this`fault
      ensures Valid() && (fault <==> old(pos) + 5 > PacketSize)
      ensures !fault ==> bits == 0 && pos == old(pos) + 5 && streamType == buf[old(pos)] && pid == Pid(buf, 8 * (old(pos) + 1) + 3)
                         && size == Num(buf, 8 * (old(pos) + 3) + 6, 10)
    {
      hide Num, Pid;
      streamType := ReadByte();
      var _ := ReadBits(3);
      pid := ReadPidBits();
      var _ := ReadBits(4);
      var _ := ReadBits(2);
      size := ReadBits(10);
    }

    method ReadTime() returns (t: uint32)
      requires Valid() && (!fault ==> bits == 0)
      modifies this`pos, this`bits, this`byte_, this`fault
      ensures Valid() && (fault <==> old(fault) || old(pos) + 5 > PacketSize)
      ensures !fault ==> bits == 0 && pos == old(pos) + 5 && t == MpegTs.ReadTime(buf, old(pos))
    {
      hide Num, MpegTs.ReadTime;
      var high := ReadHigh();
      var middle := ReadFifteen();
      var low := ReadFifteen();
      if fault {
        return 0;
      }
      TimeIs(buf, old(pos));
      return high * 0x4000_0000 % 0x1_0000_0000 + middle * 0x8000 + low;
    }

    // The first three bits, between four reserved ones and a marker.
    method ReadHigh() returns (v: nat)
      requires Valid() && (!fault ==> bits == 0)
      modifies this`pos, this`bits, this`byte_, this`fault
      ensures Valid() && (fault <==> old(fault) || old(pos) + 1 > PacketSize)
      ensures !fault ==> bits == 0 && pos == old(pos) + 1 && v == Num(buf, 8 * old(pos) + 4, 3)
    {
      hide Num;
      var _ := ReadBits(4);
      v := ReadBits(3);
      var _ := ReadBits(1);
    }

    // Fifteen bits and a marker.
    method ReadFifteen() returns (v: nat)
      requires Valid() && (!fault ==> bits == 0)
      modifies this`pos, this`bits, this`byte_, this`fault
      ensures Valid() && (fault <==> old(fault) || old(pos) + 2 > PacketSize)
      ensures !fault ==> bits == 0 && pos == old(pos) + 2 && v == Num(buf, 8 * old(pos), 15)
    {
      hide Num;
      v := ReadBits(15);
      var _ := ReadBits(1);
    }

    static lemma TimeIs(b: Data, at: nat)
      ensures var high, middle, low := Num(b, 8 * at + 4, 3), Num(b, 8 * at + 8, 15), Num(b, 8 * at + 24, 15);
              high * 0x4000_0000 % 0x1_0000_0000 + middle * 0x8000 + low == MpegTs.ReadTime(b, at)
      ensures Num(b, 8 * at + 8, 15) < 0x8000
    {
      Fifteen();
      hide Num, Pow2;
    }

    static lemma Fifteen()
      ensures Pow2(3) == 8 && Pow2(15) == 0x8000
    {
      Pow2Values();
      assert Pow2(15) == 2 * Pow2(14) && Pow2(14) == 2 * Pow2(13);
    }

    // From the stream identifier to the length of the header.
    method ReadPesHead() returns (id: byte, size: nat, hasPts: bool, hasDts: bool, length: byte)
      requires Valid() && !fault && bits == 0
      modifies this`pos, this`bits, this`byte_, this`fault
      ensures Valid() && (fault <==> old(pos) + 6 > PacketSize)
      ensures !fault ==> bits == 0 && pos == old(pos) + 6 && id == buf[old(pos)] && length == buf[old(pos) + 5]
      ensures !fault ==> size == Num(buf, 8 * (old(pos) + 1), 16) && hasPts == (Num(buf, 8 * (old(pos) + 4), 1) != 0)
                         && hasDts == (Num(buf, 8 * (old(pos) + 4) + 1, 1) != 0)
    {
      hide Num;
      id := ReadByte();
      size := ReadBits(16);
      SkipFlags();
      hasPts, hasDts := ReadTimeFlags();
      length := ReadByte();
    }

    method SkipFlags()
      requires Valid() && (!fault ==> bits == 0)
      modifies this`pos, this`bits, this`byte_, this`fault
      ensures Valid() && (fault <==> old(fault) || old(pos) + 1 > PacketSize) && (!fault ==> bits == 0 && pos == old(pos) + 1)
    {
      hide Num;
      var _ := ReadBits(2);
      var _ := ReadBits(2);
      var _ := ReadBit();
      var _ := ReadBit();
      var _ := ReadBit();
      var _ := ReadBit();
    }

    method ReadTimeFlags() returns (hasPts: bool, hasDts: bool)
      requires Valid() && (!fault ==> bits == 0)
      modifies this`pos, this`bits, this`byte_, this`fault
      ensures Valid() && (fault <==> old(fault) || old(pos) + 1 > PacketSize) && (!fault ==> bits == 0 && pos == old(pos) + 1)
      ensures !fault ==> hasPts == (Num(buf, 8 * old(pos), 1) != 0) && hasDts == (Num(buf, 8 * old(pos) + 1, 1) != 0)
    {
      hide Num, BitAt;
      NumOne(buf, 8 * pos);
      NumOne(buf, 8 * pos + 1);
      var ptsi := ReadBit();
      var dtsi := ReadBit();
      hasPts, hasDts := ptsi != 0, dtsi != 0;
      SkipSix();
    }

    method SkipSix()
      requires Valid() && (!fault ==> bits == 6)
      modifies this`pos, this`bits, this`byte_, this`fault
      ensures Valid() && fault == old(fault) && (!fault ==> bits == 0 && pos == old(pos))
    {
      hide BitAt;
      var _ := ReadBit();
      var _ := ReadBit();
      var _ := ReadBit();
      var _ := ReadBit();
      var _ := ReadBit();
      var _ := ReadBit();
    }

    // Sizes are computed in a byte and in sixteen bits, and wrap around.
    method ReadPesStart(p: Pes) returns (q: Pes)
      requires Valid() && !fault && bits == 0 && 3 <= pos
      modifies this`pos, this`bits, this`byte_, this`fault
      ensures Valid()
      ensures old(pos) + 6 > PacketSize ==> fault
      ensures old(pos) + 6 <= PacketSize ==>
                (fault <==> ReadStart(p, buf, old(pos) - 3) == None) && (!fault ==> Some(q) == ReadStart(p, buf, old(pos) - 3) && pos != SkipRead)
    {
      hide Num, MpegTs.ReadTime, Skip, ReadStart;
      ghost var at: int := pos - 3;
      var id, size, hasPts, hasDts, headerSize := ReadPesHead();
      q := p;
      if fault {
        return;
      }
      StartUnfold(p, buf, at, size, hasPts, hasDts, headerSize);
      var room := if size == 0 then 0 else (size - (3 + headerSize as nat) % 0x100) % 0x1_0000;
      var pts, dts, length := ReadTimes(hasPts, hasDts, headerSize);
      if fault {
        return;
      }
      SkipBytes(length);
      if pos > PacketSize {
        fault := true;
        return;
      }
      q := p.(streamID := id, pts := pts, dts := dts, payload := buf[pos..], size := room);
    }

    lemma StartUnfold(p: Pes, b: Data, at: nat, size: nat, hasPts: bool, hasDts: bool, length: byte)
      requires |b| == PacketSize && at + 9 <= PacketSize && size == Num(b, 8 * (at + 4), 16) && length == b[at + 8]
      requires hasPts == (Num(b, 8 * (at + 7), 1) != 0) && hasDts == (Num(b, 8 * (at + 7) + 1, 1) != 0)
      ensures var x := if hasPts then at + 14 else at + 9;
              var y := if hasDts then x + 5 else x;
              var from := Skip(y, (length - (y - (at + 9))) % 0x100);
              var room := if size == 0 then 0 else (size - (3 + length as nat) % 0x100) % 0x1_0000;
              ReadStart(p, b, at) ==
              if y > PacketSize || from > PacketSize then None
              else
                Some(p.(streamID := b[at + 3], pts := if hasPts then MpegTs.ReadTime(b, at + 9) else 0,
                        dts := if hasDts then MpegTs.ReadTime(b, x) else 0, payload := b[from..], size := room))
    {
      hide Num, MpegTs.ReadTime, Skip;
    }

    // The times that are there, and what is left of the header.
    method ReadTimes(hasPts: bool, hasDts: bool, headerSize: byte) returns (pts: uint32, dts: uint32, left: nat)
      requires Valid() && !fault && bits == 0
      modifies this`pos, this`bits, this`byte_, this`fault
      ensures var a := if hasPts then old(pos) + 5 else old(pos);
              var b := if hasDts then a + 5 else a;
              && (old(pos) <= PacketSize ==> (fault <==> b > PacketSize))
              && (!fault ==> bits == 0 && pos == b && left == (headerSize - (b - old(pos))) % 0x100 && left < 0x100
                             && pts == (if hasPts then MpegTs.ReadTime(buf, old(pos)) else 0)
                             && dts == (if hasDts then MpegTs.ReadTime(buf, a) else 0))
      ensures Valid()
    {
      hide MpegTs.ReadTime;
      pts, dts, left := 0, 0, headerSize;
      if hasPts {
        pts := ReadTime();
        left := (left - 5) % 0x100;
      }
      if hasDts {
        dts := ReadTime();
        left := (left - 5) % 0x100;
      }
    }

    method StartStream(p: Pes) returns (r: Read)
      requires Valid() && !fault && bits == 0 && pos < PacketSize
      modifies this`pos, this`bits, this`byte_, this`fault
      ensures Valid() && r == StartPes(p, buf, old(pos), conv) && (r.Fault? <==> fault) && (!fault ==> pos != SkipRead)
    {
      hide Num, ReadStart, MpegTs.Finish;
      var b := ReadByte();
      if b != 0 {
        return Quiet(p);
      }
      b := ReadByte();
      if fault {
        return Fault;
      }
      if b != 0 {
        return Quiet(p);
      }
      b := ReadByte();
      if fault {
        return Fault;
      }
      if b != 1 {
        return Quiet(p);
      }
      var q := ReadPesStart(p);
      if fault {
        return Fault;
      }
      NotFault(q, conv);
      return Finish(q, conv);
    }

    lemma NotFault(p: Pes, conv: Conv)
      ensures !Finish(p, conv).Fault? && !Emit(p, conv).Fault? && (Emit(p, conv).Ready? ==> !Emit(p, conv).again)
    {
    }

    // A packet that is finished by the start of the next is handed out first.
    method ReadPES(p: Pes, start: bool) returns (r: Read)
      requires Valid() && !fault && bits == 0 && pos < PacketSize
      modifies this`pos, this`bits, this`byte_, this`fault
      ensures Valid() && r == MpegTs.ReadPES(p, buf, old(pos), start, conv) && (r.Fault? <==> fault)
      ensures !fault ==> (pos == SkipRead <==> r.Ready? && r.again)
    {
      hide StartPes, Emit;
      NotFault(p, conv);
      var q := p;
      if start && p.payload != [] {
        var finished := Emit(p, conv);
        if finished.Ready? {
          pos, bits := SkipRead, 0;
          return finished.(again := true);
        }
        // Without a packet the buffer is read again, now with nothing collected.
        q := finished.pes;
      }
      if start {
        r := StartStream(q);
        StartIsOnce(q, buf, old(pos), conv);
      } else {
        NotFault(q.(payload := q.payload + buf[pos..]), conv);
        r := Finish(q.(payload := q.payload + buf[pos..]), conv);
        FinishIsOnce(q.(payload := q.payload + buf[pos..]), conv);
      }
    }

    lemma StartIsOnce(p: Pes, b: Data, at: nat, conv: Conv)
      requires |b| == PacketSize && at < PacketSize
      ensures StartPes(p, b, at, conv).Ready? ==> !StartPes(p, b, at, conv).again
    {
    }

    lemma FinishIsOnce(p: Pes, conv: Conv)
      ensures Finish(p, conv).Ready? ==> !Finish(p, conv).again
    {
    }

    // The result of reading one buffer: a packet, nothing, or an end.
    method ReadBuffer() returns (r: Step)
      requires Valid() && !fault
      modifies this`pos, this`bits, this`byte_, this`end, this`fault, this`pmtID, this`pes
      ensures Valid() && r == MpegTs.ReadBuffer(old(Current()).(held := None), buf, conv) && (r.Panic? <==> fault)
      ensures r.Go? || r.Out? ==> r.d == Current() && !fault
      ensures r.Go? ==> pos != SkipRead
    {
      hide ReadHeader, ReadPSI, ReadPrograms, MpegTs.ReadPMT, MpegTs.ReadPES, Types;
      var h := ReadPacketHeader();
      if !h.Header? {
        return Failed;
      }
      if pes == None {
        if h.pid == 0 {
          ReadPAT();
          return if fault then Panic else Go(Demux(pmtID, None, None));
        }
        if h.pid == pmtID {
          ReadPMT();
          if fault {
            return Panic;
          }
          return Out(Demux(pmtID, pes, if pos == SkipRead then Some(buf) else None), Table(Types(pes.value, 0x2000)));
        }
        return Go(Demux(pmtID, pes, None));
      }
      if h.pid !in pes.value {
        return Go(Demux(pmtID, pes, None));
      }
      var read := ReadPES(pes.value[h.pid], h.start);
      if fault {
        return Panic;
      }
      pes := Some(pes.value[h.pid := read.pes]);
      var after := Demux(pmtID, pes, if pos == SkipRead then Some(buf) else None);
      return if read.Quiet? then Go(after) else Out(after, read.packet);
    }

    lemma HeldIsRead(d: Demux, b: Data, conv: Conv)
      requires |b| == PacketSize
      ensures MpegTs.ReadBuffer(d, b, conv) == MpegTs.ReadBuffer(d.(held := None), b, conv)
    {
      hide ReadHeader, ReadPSI, ReadPrograms, MpegTs.ReadPMT, MpegTs.ReadPES, Types;
    }

    // ReadPacket: the loop over the packets of the input.
    method ReadPacket(input: Data) returns (r: Result)
      requires Valid() && !fault
      modifies this
      ensures Valid() && r == MpegTs.ReadPacket(old(Current()), input, conv) && (r.Panicked? <==> fault)
      ensures r.Got? ==> r.d == Current()
    {
      hide MpegTs.ReadBuffer;
      var rest := input;
      while true
        invariant Valid() && !fault
        invariant MpegTs.ReadPacket(Current(), rest, conv) == MpegTs.ReadPacket(old(Current()), input, conv)
        decreases |rest|, if pos == SkipRead then 1 else 0
      {
        if pos != SkipRead {
          if |rest| < PacketSize {
            return Eof;
          }
          buf := rest[..PacketSize];
          bits := 0;
          rest := rest[PacketSize..];
        }
        HeldIsRead(Current(), buf, conv);
        var step := ReadBuffer();
        match step {
          case Failed => return Error;
          case Panic => return Panicked;
          case Out(d, packet) => return Got(d, packet, rest);
          case Go(_) =>
        }
      }
    }
  }

  // One turn of the list of streams.
  function NextStream(buf: Data, pos: nat): Option<(nat, uint16, byte)>
    requires |buf| == PacketSize
  {
    if pos + 5 > PacketSize then None
    else
      var next := Skip(pos + 5, Num(buf, 8 * (pos + 3) + 6, 10));
      if next < pos + 5 || next > PacketSize then None
      else
        var info := buf[pos + 5..next];
        Some((next, Pid(buf, 8 * (pos + 1) + 3), if buf[pos] == Private && OpusInfo <= info then PrivateOPUS else buf[pos]))
  }

  lemma NextUnfold(buf: Data, pos: nat)
    requires |buf| == PacketSize
    ensures pos + 5 > PacketSize ==> NextStream(buf, pos) == None
    ensures pos + 5 <= PacketSize ==>
              var next := Skip(pos + 5, Num(buf, 8 * (pos + 3) + 6, 10));
              var r := NextStream(buf, pos);
              if next < pos + 5 || next > PacketSize then r == None
              else
                && r.Some? && r.value.0 == next && r.value.1 == Pid(buf, 8 * (pos + 1) + 3)
                && r.value.2 == if buf[pos] == Private && OpusInfo <= buf[pos + 5..next] then PrivateOPUS else buf[pos]
  {
    hide Num, Pid, Skip;
  }

  lemma SkipLow(pos: nat, size: nat)
    ensures Skip(pos, size % 0x100) == Skip(pos, size) == (pos + size % 0x100) % 0x100
  {
  }

  lemma SkipNear(pos: nat)
    requires pos <= PacketSize
    ensures Skip(pos, 4) == pos + 4
  {
  }

  lemma PsiUnfold(buf: Data, pos: nat)
    requires |buf| == PacketSize && pos < PacketSize
    ensures var p := Skip(pos + 1, buf[pos]);
            ReadPSI(buf, pos) == if p + 8 > PacketSize then None else Some(Section(p + 8, Skip(p + 3, Num(buf, 8 * (p + 1) + 6, 10))))
  {
    hide Num, Skip;
  }

  lemma ProgramsUnfold(buf: Data, pos: nat, end: nat, pmtID: uint16)
    requires |buf| == PacketSize
    ensures ReadPrograms(buf, pos, end, pmtID) ==
            if Left(pos, end) <= 4 then Some(pmtID)
            else if pos + 4 > PacketSize then None
            else ReadPrograms(buf, pos + 4, end, if Num(buf, 8 * pos, 16) != 0 then Pid(buf, 8 * pos + 19) else pmtID)
  {
    hide Num, Pid, Left;
  }

  lemma PmtUnfold(buf: Data, pos: nat)
    requires |buf| == PacketSize && pos < PacketSize
    ensures var section := ReadPSI(buf, pos);
            MpegTs.ReadPMT(buf, pos) ==
            if section == None || section.value.pos + 4 > PacketSize then None
            else ReadStreams(buf, Skip(section.value.pos + 4, Num(buf, 8 * (section.value.pos + 2) + 6, 10) % 0x100), section.value.end, map[])
  {
    hide ReadPSI, Num, ReadStreams, Skip;
    var section := ReadPSI(buf, pos);
    if section.Some? {
      SkipLow(section.value.pos + 4, Num(buf, 8 * (section.value.pos + 2) + 6, 10));
    }
  }

  lemma NextWithin(buf: Data, pos: nat)
    requires |buf| == PacketSize
    ensures NextStream(buf, pos).Some? ==> pos + 5 <= NextStream(buf, pos).value.0 <= PacketSize
  {
  }

  lemma StreamsUnfold(buf: Data, pos: nat, end: nat, pes: map<uint16, Pes>)
    requires |buf| == PacketSize
    ensures var s := NextStream(buf, pos);
            ReadStreams(buf, pos, end, pes) ==
            if Left(pos, end) <= 4 then Some(Streams(pes, pos))
            else if s == None then None
            else ReadStreams(buf, s.value.0, end, pes[s.value.1 := NewPes(s.value.2)])
  {
    hide Num, Pid;
  }

  lemma NumOne(data: Data, at: nat)
    ensures Num(data, at, 1) == BitAt(data, at)
  {
    assert Num(data, at, 0) == 0;
  }
}
