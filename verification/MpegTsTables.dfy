// pkg/mpegts: transport packets and tables written after ISO/IEC 13818-1, what the
// demuxer reads from them, and that the muxer writes them.

module MpegTsTables {
  import opened Bytes
  import opened Bits
  import opened MpegTs
  import opened MpegTsFormat
  import opened MpegTsRoundTrip
  import opened MpegTsTimes

  // ---- Transport packets, after section 2.4.3.2 --------------------------------------------

  // The bits that the demuxer skips: error, priority, scrambling, payload flag and
  // continuity counter.
  datatype Marks = Marks(error: nat, priority: nat, scrambling: nat, payload: nat, counter: nat)

  predicate IsMarks(m: Marks) {
    m.error < 2 && m.priority < 2 && m.scrambling < 4 && m.payload < 2 && m.counter < 0x10
  }

  function Transport(pid: uint16, start: bool, m: Marks, adaptation: Option<Data>, payload: Data): Data
    requires pid < 0x2000 && IsMarks(m) && (adaptation.Some? ==> |adaptation.value| < 0x100)
  {
    [0x47] + Put16(m.error * 0x8000 + (if start then 0x4000 else 0) + m.priority * 0x2000 + pid)
    + [m.scrambling * 0x40 + (if adaptation.Some? then 0x20 else 0) + m.payload * 0x10 + m.counter]
    + (if adaptation.Some? then [|adaptation.value|] + adaptation.value else []) + payload
  }

  predicate IsTransport(pid: uint16, m: Marks, adaptation: Option<Data>, payload: Data) {
    && pid < 0x2000 && IsMarks(m)
    && 4 + (if adaptation.Some? then 1 + |adaptation.value| else 0) + |payload| == 188
  }

  // The demuxer finds the identifier, the start mark and the payload, unless the
  // adaptation field leaves no byte for a payload: then it gives up.
  lemma TransportReads(pid: uint16, start: bool, m: Marks, adaptation: Option<Data>, payload: Data)
    requires IsTransport(pid, m, adaptation, payload)
    ensures var b := Transport(pid, start, m, adaptation, payload);
            && |b| == 188 && b[188 - |payload|..] == payload
            && ReadHeader(b) == if adaptation.Some? && payload == [] then WrongAdaptation else Header(pid, start, 188 - |payload|)
  {
    hide Num, Pow2, Put16;
    var v := m.error * 0x8000 + (if start then 0x4000 else 0) + m.priority * 0x2000 + pid;
    var b := Transport(pid, start, m, adaptation, payload);
    assert b[1..3] == Put16(v);
    assert b[188 - |payload|..] == payload;
    SmallPowers();
    InTwoBytes(b, 1, 3, 13, v, 1, 0x2000);
    InTwoBytes(b, 1, 1, 1, v, 0x4000, 2);
    InByte(b, 3, 2, 1, 0x20, 2);
    MarkBits(m, start, adaptation.Some?, pid);
  }

  lemma MarkBits(m: Marks, start: bool, adaptation: bool, pid: uint16)
    requires IsMarks(m) && pid < 0x2000
    ensures var v := m.error * 0x8000 + (if start then 0x4000 else 0) + m.priority * 0x2000 + pid;
            v % 0x2000 == pid && v / 0x4000 % 2 == if start then 1 else 0
    ensures (m.scrambling * 0x40 + (if adaptation then 0x20 else 0) + m.payload * 0x10 + m.counter) / 0x20 % 2 == if adaptation then 1 else 0
  {
  }

  // The muxer's packets: an adaptation field of zeros when the payload is short.
  lemma MuxerPacket(pid: uint16, start: bool, counter: nat, chunk: Data)
    requires pid < 0x2000 && counter < 0x10 && |chunk| <= 184
    ensures var adaptation := if |chunk| < 184 then Some(Zeros(183 - |chunk|)) else None;
            var m := Marks(0, 0, 0, 1, counter);
            IsTransport(pid, m, adaptation, chunk) && TsPacket(pid, start, counter, chunk) == Transport(pid, start, m, adaptation, chunk)
  {
    hide Put16;
  }

  // ---- PES packets ----------------------------------------------------------------------------

  // A call of the muxer writes a PES packet with a presentation time alone.
  lemma MuxerPes(p: Pes, timestamp: uint32, body: Data)
    ensures var id := if p.streamType in [0x1B, 0x24] then 0xE0 else if p.streamType in [0x0F, 0x90] then 0xC0 else 0;
            var u := Unit(0, 0, id, 0x80, 0, Pts(NextPts(p, timestamp)), [], 8 + |body| <= 0xFFFF, body);
            IsUnit(u) && Frame(p, timestamp, body) == HeaderOf(u) + body
  {
    hide Put16, Time, TimeField, NextPts;
    SameTime(NextPts(p, timestamp));
  }

  lemma SameTime(t: uint32)
    ensures Time(t) == TimeField(2, t)
  {
    hide OrOne;
    HighOf(t);
    MiddleOf(t);
    LowOf(t);
  }

  lemma HighOf(t: uint32)
    ensures OrOne(t / 0x2000_0000) == t / 0x4000_0000 * 2 + 1
  {
    assert t / 0x2000_0000 / 2 == t / 0x4000_0000;
  }

  lemma LowOf(t: uint32)
    ensures t * 2 % 0x100 == t % 0x80 * 2
  {
  }

  lemma MiddleOf(t: uint32)
    ensures OrOne(t / 0x4000 % 0x100) == t / 0x8000 % 0x80 * 2 + 1
  {
    HalfLow(t / 0x4000);
    assert t / 0x4000 / 2 == t / 0x8000;
  }

  lemma HalfLow(x: nat)
    ensures x % 0x100 / 2 == x / 2 % 0x80
  {
  }

  // ---- Tables, after section 2.4.4 ------------------------------------------------------------

  // A section behind its pointer and some filler: table, extension, version and
  // numbers, content and checksum.
  datatype PsiSection = PsiSection(filler: Data, table: byte, extension: uint16, version: nat, current: nat, number: byte, last: byte, content: Data, crc: Data, rest: Data)

  predicate IsSection(s: PsiSection) {
    && |s.filler| < 0x100 && s.version < 0x20 && s.current < 2 && |s.crc| == 4
    && 1 + |s.filler| + 8 + |s.content| + 4 + |s.rest| <= 184
  }

  function SectionBytes(s: PsiSection): (b: Data)
    requires IsSection(s)
    ensures |b| == 1 + |s.filler| + 12 + |s.content| + |s.rest|
  {
    [|s.filler|] + s.filler
    + ([s.table] + Put16(0xB000 + 9 + |s.content|) + Put16(s.extension) + [0xC0 + s.version * 2 + s.current, s.number, s.last] + s.content + s.crc)
    + s.rest
  }

  // Where the content starts and the section ends.
  lemma SectionReads(b: Data, pos: nat, s: PsiSection)
    requires IsSection(s) && |b| == 188 && pos < 188 && b[pos..] == SectionBytes(s)
    ensures var at := pos + 9 + |s.filler|;
            && ReadPSI(b, pos) == Some(MpegTs.Section(at, at + |s.content| + 4))
            && at + |s.content| + 4 <= 188 && b[at..at + |s.content|] == s.content
  {
    hide Num, Pow2, Put16, SectionBytes, Skip;
    var p := pos + 1 + |s.filler|;
    SectionPlaces(b, pos, s);
    SmallPowers();
    InTwoBytes(b, p + 1, 6, 10, 0xB000 + 9 + |s.content|, 1, 0x400);
    SkipIs(pos + 1, b[pos]);
    SkipIs(p + 3, 9 + |s.content|);
  }

  lemma SkipIs(pos: nat, n: nat)
    requires pos + n < 0x100
    ensures Skip(pos, n) == pos + n
  {
  }

  lemma SectionPlaces(b: Data, pos: nat, s: PsiSection)
    requires IsSection(s) && |b| == 188 && pos < 188 && b[pos..] == SectionBytes(s)
    ensures var p := pos + 1 + |s.filler|;
            && b[pos] == |s.filler| && b[p + 1..p + 3] == Put16(0xB000 + 9 + |s.content|) && b[p + 8..p + 8 + |s.content|] == s.content
            && p + 12 + |s.content| <= 188
  {
    hide Put16;
    var v: Data := [0xC0 + s.version * 2 + s.current, s.number, s.last];
    SectionParts(b, pos, [|s.filler|], s.filler, [s.table], Put16(0xB000 + 9 + |s.content|), Put16(s.extension), v, s.content, s.crc, s.rest);
  }

  lemma SectionParts(b: Data, pos: nat, a: Data, f: Data, t: Data, l: Data, e: Data, v: Data, content: Data, crc: Data, rest: Data)
    requires |a| == 1 && |t| == 1 && |l| == 2 && |e| == 2 && |v| == 3 && |crc| == 4
    requires pos < |b| && b[pos..] == a + f + (t + l + e + v + content + crc) + rest
    ensures var p := pos + 1 + |f|;
            && p + 12 + |content| <= |b| && b[pos] == a[0] && b[p + 1..p + 3] == l && b[p + 8..p + 8 + |content|] == content
  {
    var d, n := b[pos..], |f|;
    assert d == (a + f + t) + (l + (e + v + content + crc + rest));
    assert d == (a + f + t + l + e + v) + (content + (crc + rest));
    FromSlice(b, pos, n + 2, n + 4);
    FromSlice(b, pos, n + 9, n + 9 + |content|);
    assert b[pos] == d[0];
  }

  lemma FromSlice(b: Data, pos: nat, i: nat, j: nat)
    requires pos <= |b| && i <= j <= |b| - pos
    ensures b[pos..][i..j] == b[pos + i..pos + j]
  {
  }

  lemma PidIs(b: Data, at: nat)
    ensures Pid(b, at) == Num(b, at, 13)
  {
  }

  lemma LeftIs(at: nat, end: nat)
    requires at <= end < 0x100
    ensures Left(at, end) == end - at
  {
  }

  // ---- Programs -------------------------------------------------------------------------------

  datatype Program = Program(number: uint16, pid: uint16)

  predicate ArePrograms(programs: seq<Program>) {
    forall i :: 0 <= i < |programs| ==> programs[i].pid < 0x2000
  }

  function ProgramBytes(programs: seq<Program>): (b: Data)
    requires ArePrograms(programs)
    ensures |b| == 4 * |programs|
  {
    if programs == [] then [] else Put16(programs[0].number) + Put16(0xE000 + programs[0].pid) + ProgramBytes(programs[1..])
  }

  // The last program that is not number 0, which is the network's.
  function LastProgram(programs: seq<Program>, pid: uint16): uint16 {
    if programs == [] then pid
    else
      var last := programs[|programs| - 1];
      if last.number != 0 then last.pid else LastProgram(programs[..|programs| - 1], pid)
  }

  lemma {:induction false} LastFromFront(programs: seq<Program>, pid: uint16)
    requires programs != []
    ensures LastProgram(programs, pid) == LastProgram(programs[1..], if programs[0].number != 0 then programs[0].pid else pid)
    decreases |programs|
  {
    var n := |programs| - 1;
    if programs[n].number == 0 && n > 0 {
      LastFromFront(programs[..n], pid);
      assert programs[..n][1..] == programs[1..][..n - 1];
    }
  }

  lemma ProgramsUnfold(programs: seq<Program>)
    requires ArePrograms(programs) && programs != []
    ensures ArePrograms(programs[1..])
    ensures ProgramBytes(programs) == Put16(programs[0].number) + Put16(0xE000 + programs[0].pid) + ProgramBytes(programs[1..])
  {
  }

  lemma ProgramPlaces(b: Data, at: nat, programs: seq<Program>)
    requires ArePrograms(programs) && programs != [] && at + 4 * |programs| <= |b| && b[at..at + 4 * |programs|] == ProgramBytes(programs)
    ensures ArePrograms(programs[1..]) && b[at + 4..at + 4 + 4 * |programs[1..]|] == ProgramBytes(programs[1..])
    ensures b[at..at + 2] == Put16(programs[0].number) && b[at + 2..at + 4] == Put16(0xE000 + programs[0].pid)
  {
    hide Put16, ProgramBytes;
    ProgramsUnfold(programs);
    var d, n := ProgramBytes(programs), 4 * |programs|;
    assert d[0..2] == Put16(programs[0].number) && d[2..4] == Put16(0xE000 + programs[0].pid) && d[4..n] == ProgramBytes(programs[1..]);
    SubSlice(b, at, at + n, 0, 2);
    SubSlice(b, at, at + n, 2, 4);
    SubSlice(b, at, at + n, 4, n);
  }

  lemma {:induction false} ProgramsRead(b: Data, at: nat, programs: seq<Program>, pid: uint16)
    requires ArePrograms(programs) && |b| == 188 && at + 4 * |programs| + 4 <= 188 && b[at..at + 4 * |programs|] == ProgramBytes(programs)
    ensures ReadPrograms(b, at, at + 4 * |programs| + 4, pid) == Some(LastProgram(programs, pid))
    decreases |programs|
  {
    hide Num, Pow2, Put16, LastProgram, ProgramBytes, ReadPrograms, Pid;
    var end := at + 4 * |programs| + 4;
    LeftIs(at, end);
    if programs == [] {
      NoProgram(pid);
    } else {
      ProgramPlaces(b, at, programs);
      SmallPowers();
      InTwoBytes(b, at, 0, 16, programs[0].number, 1, 0x1_0000);
      InTwoBytes(b, at + 2, 3, 13, 0xE000 + programs[0].pid, 1, 0x2000);
      PidIs(b, 8 * at + 19);
      ProgramsRead(b, at + 4, programs[1..], if programs[0].number != 0 then programs[0].pid else pid);
      LastFromFront(programs, pid);
    }
    ProgramStep(b, at, end, pid);
  }

  lemma ProgramStep(b: Data, at: nat, end: nat, pid: uint16)
    requires |b| == 188 && at + 4 <= 188
    ensures ReadPrograms(b, at, end, pid) ==
            if Left(at, end) <= 4 then Some(pid) else ReadPrograms(b, at + 4, end, if Num(b, 8 * at, 16) != 0 then Pid(b, 8 * at + 19) else pid)
  {
    hide Num, Pid, Left;
  }

  lemma NoProgram(pid: uint16)
    ensures LastProgram([], pid) == pid
  {
  }

  // A program association table in one packet: the demuxer waits for the table of
  // the last program.
  lemma AssociationReads(d: Demux, start: bool, m: Marks, adaptation: Option<Data>, s: PsiSection, programs: seq<Program>, conv: Conv)
    requires d.pes == None && ArePrograms(programs) && IsSection(s) && s.content == ProgramBytes(programs)
    requires IsTransport(0, m, adaptation, SectionBytes(s))
    ensures ReadBuffer(d, TransportOf(0, start, m, adaptation, s), conv) == Go(Demux(LastProgram(programs, d.pmtID), None, None))
  {
    hide ReadHeader, ReadPSI, ReadPrograms, Transport, SectionBytes, ProgramBytes, LastProgram;
    var b := Transport(0, start, m, adaptation, SectionBytes(s));
    TransportReads(0, start, m, adaptation, SectionBytes(s));
    assert |SectionBytes(s)| > 0;
    var pos := 188 - |SectionBytes(s)|;
    SectionReads(b, pos, s);
    ProgramsRead(b, pos + 9 + |s.filler|, programs, d.pmtID);
  }

  function TransportOf(pid: uint16, start: bool, m: Marks, adaptation: Option<Data>, s: PsiSection): (b: Data)
    requires IsSection(s) && IsTransport(pid, m, adaptation, SectionBytes(s))
    ensures |b| == 188
  {
    TransportReads(pid, start, m, adaptation, SectionBytes(s));
    Transport(pid, start, m, adaptation, SectionBytes(s))
  }

  // ---- Streams of a program ---------------------------------------------------------------------

  // A stream: its type, its identifier and its descriptors.
  datatype Entry = Entry(kind: byte, pid: uint16, info: Data)

  predicate AreEntries(entries: seq<Entry>) {
    forall i :: 0 <= i < |entries| ==> entries[i].pid < 0x2000 && |entries[i].info| < 0x100
  }

  function EntryBytes(e: Entry): (b: Data)
    requires e.pid < 0x2000 && |e.info| < 0x100
    ensures |b| == 5 + |e.info|
  {
    [e.kind] + Put16(0xE000 + e.pid) + Put16(0xF000 + |e.info|) + e.info
  }

  function EntriesBytes(entries: seq<Entry>): Data
    requires AreEntries(entries)
  {
    if entries == [] then [] else EntryBytes(entries[0]) + EntriesBytes(entries[1..])
  }

  // Clock, descriptors of the program, and its streams.
  function MapBytes(clock: uint16, info: Data, entries: seq<Entry>): (b: Data)
    requires clock < 0x2000 && |info| < 0x100 && AreEntries(entries)
    ensures |b| == 4 + |info| + |EntriesBytes(entries)|
  {
    Put16(0xE000 + clock) + Put16(0xF000 + |info|) + info + EntriesBytes(entries)
  }

  // Private data with a registration descriptor for Opus has a type of its own.
  function KindOf(e: Entry): byte {
    if e.kind == 0x06 && |e.info| >= 6 && e.info[..6] == [5, 4, 'O' as int, 'p' as int, 'u' as int, 's' as int] then 0xEB else e.kind
  }

  function Entered(pes: map<uint16, Pes>, entries: seq<Entry>): map<uint16, Pes>
    decreases |entries|
  {
    if entries == [] then pes else Entered(pes[entries[0].pid := NewPes(KindOf(entries[0]))], entries[1..])
  }

  // The last entry of an identifier counts.
  lemma EnteredIs(pes: map<uint16, Pes>, entries: seq<Entry>, pid: uint16)
    ensures var m := Entered(pes, entries);
            && (forall i :: IsLast(entries, pid, i) ==> pid in m && m[pid] == NewPes(KindOf(entries[i])))
            && ((forall j :: 0 <= j < |entries| ==> entries[j].pid != pid) ==> (pid in m <==> pid in pes) && (pid in m ==> m[pid] == pes[pid]))
  {
    hide KindOf, Entered;
    if forall j :: 0 <= j < |entries| ==> entries[j].pid != pid {
      NotEntered(pes, entries, pid);
    }
    forall i | IsLast(entries, pid, i) ensures pid in Entered(pes, entries) && Entered(pes, entries)[pid] == NewPes(KindOf(entries[i])) {
      LastEntered(pes, entries, pid, i);
    }
  }

  predicate IsLast(entries: seq<Entry>, pid: uint16, i: int) {
    0 <= i < |entries| && entries[i].pid == pid && forall j :: i < j < |entries| ==> entries[j].pid != pid
  }

  lemma {:induction false} NotEntered(pes: map<uint16, Pes>, entries: seq<Entry>, pid: uint16)
    requires forall j :: 0 <= j < |entries| ==> entries[j].pid != pid
    ensures var m := Entered(pes, entries); (pid in m <==> pid in pes) && (pid in m ==> m[pid] == pes[pid])
    decreases |entries|
  {
    hide KindOf;
    if entries != [] {
      NotEntered(pes[entries[0].pid := NewPes(KindOf(entries[0]))], entries[1..], pid);
    }
  }

  lemma {:induction false} LastEntered(pes: map<uint16, Pes>, entries: seq<Entry>, pid: uint16, i: nat)
    requires IsLast(entries, pid, i)
    ensures var m := Entered(pes, entries); pid in m && m[pid] == NewPes(KindOf(entries[i]))
    decreases |entries|
  {
    hide KindOf;
    var rest, next := entries[1..], pes[entries[0].pid := NewPes(KindOf(entries[0]))];
    assert forall j :: 0 <= j < |rest| ==> rest[j] == entries[j + 1];
    if i > 0 {
      LastEntered(next, rest, pid, i - 1);
    } else {
      NotEntered(next, rest, pid);
    }
  }

  lemma EntriesUnfold(entries: seq<Entry>)
    requires AreEntries(entries) && entries != []
    ensures AreEntries(entries[1..]) && EntriesBytes(entries) == EntryBytes(entries[0]) + EntriesBytes(entries[1..])
  {
    hide EntryBytes;
  }

  lemma EntryPlaces(b: Data, at: nat, entries: seq<Entry>)
    requires AreEntries(entries) && entries != []
    requires at + |EntriesBytes(entries)| <= |b| && b[at..at + |EntriesBytes(entries)|] == EntriesBytes(entries)
    ensures var e, next := entries[0], at + 5 + |entries[0].info|;
            && AreEntries(entries[1..]) && |EntriesBytes(entries)| == 5 + |e.info| + |EntriesBytes(entries[1..])|
            && b[next..next + |EntriesBytes(entries[1..])|] == EntriesBytes(entries[1..])
            && b[at] == e.kind && b[at + 1..at + 3] == Put16(0xE000 + e.pid) && b[at + 3..at + 5] == Put16(0xF000 + |e.info|) && b[at + 5..next] == e.info
  {
    hide Put16, EntriesBytes, EntryBytes;
    EntriesUnfold(entries);
    var d, e, more := EntriesBytes(entries), entries[0], EntriesBytes(entries[1..]);
    var k, n := 5 + |e.info|, |d|;
    EntryParts(d, e, more);
    SubSlice(b, at, at + n, 1, 3);
    SubSlice(b, at, at + n, 3, 5);
    SubSlice(b, at, at + n, 5, k);
    SubSlice(b, at, at + n, k, n);
    assert b[at] == b[at..at + n][0];
  }

  lemma EntryParts(d: Data, e: Entry, more: Data)
    requires e.pid < 0x2000 && |e.info| < 0x100 && d == EntryBytes(e) + more
    ensures var k := 5 + |e.info|;
            |d| == k + |more| && d[0] == e.kind && d[1..3] == Put16(0xE000 + e.pid) && d[3..5] == Put16(0xF000 + |e.info|) && d[5..k] == e.info && d[k..] == more
  {
    hide Put16;
    assert d == [e.kind] + Put16(0xE000 + e.pid) + Put16(0xF000 + |e.info|) + e.info + more;
  }

  lemma EntryStep(b: Data, at: nat, e: Entry, end: nat, pes: map<uint16, Pes>)
    requires |b| == 188 && e.pid < 0x2000 && |e.info| < 0x100 && at + 5 + |e.info| + 4 <= end <= 188
    requires b[at] == e.kind && b[at + 1..at + 3] == Put16(0xE000 + e.pid) && b[at + 3..at + 5] == Put16(0xF000 + |e.info|)
    requires b[at + 5..at + 5 + |e.info|] == e.info
    ensures ReadStreams(b, at, end, pes) == ReadStreams(b, at + 5 + |e.info|, end, pes[e.pid := NewPes(KindOf(e))])
  {
    hide Num, Pow2, Put16, Pid, ReadStreams, KindOf, NewPes;
    SmallPowers();
    InTwoBytes(b, at + 1, 3, 13, 0xE000 + e.pid, 1, 0x2000);
    InTwoBytes(b, at + 3, 6, 10, 0xF000 + |e.info|, 1, 0x400);
    SkipIs(at + 5, |e.info|);
    PidIs(b, 8 * (at + 1) + 3);
    LeftIs(at, end);
    OpusIs(e);
    StepIs(b, at, e, end, pes);
  }

  lemma StepIs(b: Data, at: nat, e: Entry, end: nat, pes: map<uint16, Pes>)
    requires |b| == 188 && e.pid < 0x2000 && at + 5 + |e.info| + 4 <= end <= 188 && b[at] == e.kind && b[at + 5..at + 5 + |e.info|] == e.info
    requires Num(b, 8 * (at + 3) + 6, 10) == |e.info| && Skip(at + 5, |e.info|) == at + 5 + |e.info| && Left(at, end) == end - at
    requires Pid(b, 8 * (at + 1) + 3) == e.pid && (if e.kind == Private && OpusInfo <= e.info then PrivateOPUS else e.kind) == KindOf(e)
    ensures ReadStreams(b, at, end, pes) == ReadStreams(b, at + 5 + |e.info|, end, pes[e.pid := NewPes(KindOf(e))])
  {
    hide Num, Pid, Skip, Left, KindOf, NewPes;
  }

  lemma OpusIs(e: Entry)
    ensures (if e.kind == Private && OpusInfo <= e.info then PrivateOPUS else e.kind) == KindOf(e)
  {
    assert OpusInfo == [5, 4, 'O' as int, 'p' as int, 'u' as int, 's' as int];
    if OpusInfo <= e.info { assert e.info[..6] == OpusInfo; }
  }

  lemma {:induction false} EntriesRead(b: Data, at: nat, entries: seq<Entry>, pes: map<uint16, Pes>)
    requires AreEntries(entries) && |b| == 188 && at + |EntriesBytes(entries)| + 4 <= 188
    requires b[at..at + |EntriesBytes(entries)|] == EntriesBytes(entries)
    ensures var end := at + |EntriesBytes(entries)| + 4; ReadStreams(b, at, end, pes) == Some(Streams(Entered(pes, entries), end - 4))
    decreases |entries|
  {
    hide KindOf, ReadStreams, EntriesBytes, Entered;
    var end := at + |EntriesBytes(entries)| + 4;
    if entries == [] {
      NoEntries(b, at, pes);
    } else {
      var e := entries[0];
      EntryPlaces(b, at, entries);
      EntryStep(b, at, e, end, pes);
      EntriesRead(b, at + 5 + |e.info|, entries[1..], pes[e.pid := NewPes(KindOf(e))]);
      EnteredUnfold(pes, entries);
    }
  }

  lemma NoEntries(b: Data, at: nat, pes: map<uint16, Pes>)
    requires |b| == 188 && at + 4 <= 188
    ensures EntriesBytes([]) == [] && Entered(pes, []) == pes && ReadStreams(b, at, at + 4, pes) == Some(Streams(pes, at))
  {
    assert Left(at, at + 4) == 4;
  }

  lemma EnteredUnfold(pes: map<uint16, Pes>, entries: seq<Entry>)
    requires entries != []
    ensures Entered(pes, entries) == Entered(pes[entries[0].pid := NewPes(KindOf(entries[0]))], entries[1..])
  {
  }

  lemma MapPlaces(b: Data, at: nat, clock: uint16, info: Data, entries: seq<Entry>)
    requires clock < 0x2000 && |info| < 0x100 && AreEntries(entries)
    requires var n := |MapBytes(clock, info, entries)|; at + n <= |b| && b[at..at + n] == MapBytes(clock, info, entries)
    ensures var from := at + 4 + |info|;
            b[at + 2..at + 4] == Put16(0xF000 + |info|) && b[from..from + |EntriesBytes(entries)|] == EntriesBytes(entries)
  {
    hide Put16, EntriesBytes;
    var d := MapBytes(clock, info, entries);
    var n := |d|;
    assert d[2..4] == Put16(0xF000 + |info|) && d[4 + |info|..n] == EntriesBytes(entries);
    SubSlice(b, at, at + n, 2, 4);
    SubSlice(b, at, at + n, 4 + |info|, n);
  }

  lemma MapReads(b: Data, pos: nat, s: PsiSection, clock: uint16, info: Data, entries: seq<Entry>)
    requires IsSection(s) && |b| == 188 && pos < 188 && b[pos..] == SectionBytes(s)
    requires clock < 0x2000 && |info| < 0x100 && AreEntries(entries) && s.content == MapBytes(clock, info, entries)
    ensures MpegTs.ReadPMT(b, pos) == Some(Streams(Entered(map[], entries), pos + 9 + |s.filler| + |s.content|))
    ensures pos + 9 + |s.filler| + |s.content| + 4 <= 188
  {
    hide Num, Pow2, Put16, SectionBytes, EntriesBytes, ReadStreams, Entered, ReadPSI, MapBytes;
    SectionReads(b, pos, s);
    var at := pos + 9 + |s.filler|;
    MapPlaces(b, at, clock, info, entries);
    SmallPowers();
    InTwoBytes(b, at + 2, 6, 10, 0xF000 + |info|, 1, 0x400);
    assert Skip(at + 4, |info|) == at + 4 + |info|;
    EntriesRead(b, at + 4 + |info|, entries, map[]);
  }

  // A program map table in one packet: the demuxer knows its streams and hands out
  // their types.
  lemma MapTableReads(d: Demux, start: bool, m: Marks, adaptation: Option<Data>, s: PsiSection, clock: uint16, info: Data, entries: seq<Entry>, conv: Conv)
    requires d.pes == None && d.pmtID != 0 && IsSection(s)
    requires clock < 0x2000 && |info| < 0x100 && AreEntries(entries) && s.content == MapBytes(clock, info, entries)
    requires IsTransport(d.pmtID, m, adaptation, SectionBytes(s))
    ensures var pes := Entered(map[], entries);
            ReadBuffer(d, TransportOf(d.pmtID, start, m, adaptation, s), conv) == Out(Demux(d.pmtID, Some(pes), None), Table(Types(pes, 0x2000)))
  {
    hide ReadHeader, ReadPSI, MpegTs.ReadPMT, Transport, SectionBytes, EntriesBytes, Entered, Types, MapBytes;
    var b := Transport(d.pmtID, start, m, adaptation, SectionBytes(s));
    TransportReads(d.pmtID, start, m, adaptation, SectionBytes(s));
    assert |SectionBytes(s)| > 0;
    var pos := 188 - |SectionBytes(s)|;
    MapReads(b, pos, s, clock, info, entries);
    var end := pos + 9 + |s.filler| + |s.content|;
    assert Skip(end, 4) == end + 4;
  }

  // ---- The muxer's tables ----------------------------------------------------------------------------

  function Checksum(crc: uint32): (b: Data)
    ensures |b| == 4
  {
    [crc % 0x100, crc / 0x100 % 0x100, crc / 0x1_0000 % 0x100, crc / 0x100_0000]
  }

  // A table of the muxer in a packet: version 0, current, and the only section.
  function TableSection(table: byte, content: Data, crc: uint32): PsiSection
    requires |content| < 171
  {
    PsiSection([], table, 1, 0, 1, 0, 0, content, Checksum(crc), Zeros(171 - |content|))
  }

  lemma TablePacket(pid: uint16, table: byte, content: Data, checksum: Data -> uint32) returns (crc: uint32)
    requires pid < 0x2000 && |content| < 171
    ensures var s := TableSection(table, content, crc);
            IsSection(s) && Padded(Closed(TableHeader(pid, table, 9 + |content|) + content, checksum)) == Transport(pid, true, Marks(0, 0, 0, 1, 0), None, SectionBytes(s))
  {
    hide Put16, Padded;
    var header := TableHeader(pid, table, 9 + |content|);
    crc := checksum((header + content)[5..]);
    var b, s := header + content + Checksum(crc), TableSection(table, content, crc);
    assert Closed(header + content, checksum) == b;
    PaddedIs(b);
    TableParts([0x47], Put16(0x4000 + pid), [0x10], [0, table], Put16(0xB000 + 9 + |content|), Put16(1), [0xC1, 0, 0], content, Checksum(crc), s.rest);
    assert SectionBytes(s) == [0] + [] + ([table] + Put16(0xB000 + 9 + |content|) + Put16(1) + [0xC1, 0, 0] + content + Checksum(crc)) + s.rest;
  }

  lemma PaddedIs(b: Data)
    requires |b| < 188
    ensures Padded(b) == b + Zeros(188 - |b|)
  {
  }

  lemma TableParts(a: Data, pid: Data, flags: Data, start: Data, length: Data, one: Data, version: Data, content: Data, crc: Data, rest: Data)
    requires |start| == 2
    ensures (a + pid + (flags + start) + length + one + version) + content + crc + rest
         == a + pid + flags + [] + ([start[0]] + [] + ([start[1]] + length + one + version + content + crc) + rest)
  {
    assert start == [start[0]] + [start[1]];
  }

  // The muxer writes one program, with its table at 0x1000.
  lemma MuxerAssociation(checksum: Data -> uint32) returns (crc: uint32)
    ensures var s := TableSection(0, ProgramBytes([Program(1, 0x1000)]), crc);
            IsSection(s) && Pat(checksum) == Transport(0, true, Marks(0, 0, 0, 1, 0), None, SectionBytes(s))
  {
    hide Put16, Padded, Closed, TableHeader, Transport, SectionBytes, TableSection;
    var content := ProgramBytes([Program(1, 0x1000)]);
    assert [Program(1, 0x1000)][1..] == [];
    assert content == PatContent();
    crc := TablePacket(0, 0, content, checksum);
  }

  function TrackEntries(types: seq<byte>, pid: nat): (entries: seq<Entry>)
    requires pid + |types| <= 0x2000
    ensures |entries| == |types| && forall i :: 0 <= i < |types| ==> entries[i] == Entry(types[i], pid + i, [])
  {
    seq(|types|, i requires 0 <= i < |types| => Entry(types[i], pid + i, []))
  }

  lemma {:induction false} TracksAre(types: seq<byte>, pid: nat)
    requires pid + |types| <= 0x2000
    ensures AreEntries(TrackEntries(types, pid)) && EntriesBytes(TrackEntries(types, pid)) == StreamList(types, pid)
    decreases |types|
  {
    hide Put16;
    if types != [] {
      TracksAre(types[1..], pid + 1);
      assert TrackEntries(types, pid)[1..] == TrackEntries(types[1..], pid + 1);
    }
  }

  // The muxer's table has no clock, and its tracks from 0x100 on, when they fit
  // one packet.
  lemma MuxerMap(types: seq<byte>, checksum: Data -> uint32) returns (crc: uint32)
    requires |types| <= 33
    ensures var entries := TrackEntries(types, 0x100);
            && AreEntries(entries) && |MapBytes(0x1FFF, [], entries)| < 171
            && var s := TableSection(2, MapBytes(0x1FFF, [], entries), crc);
               IsSection(s) && Pmt(types, checksum) == Transport(0x1000, true, Marks(0, 0, 0, 1, 0), None, SectionBytes(s))
  {
    hide Put16, Padded, Closed, TableHeader, Transport, SectionBytes, TableSection, StreamList, EntriesBytes, TrackEntries;
    TracksAre(types, 0x100);
    var entries := TrackEntries(types, 0x100);
    var content := MapBytes(0x1FFF, [], entries);
    assert content == PmtContent(types) by { assert Put16(0xF000) + [] == Put16(0xF000); }
    crc := TablePacket(0x1000, 2, content, checksum);
  }
}
