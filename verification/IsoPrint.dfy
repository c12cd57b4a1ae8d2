// Boxes written after ISO/IEC 14496-12, what the reader of pkg/iso/reader.go makes
// of them, and that the writers of pkg/iso/atoms.go write them.

module IsoPrint {
  import opened Bytes
  import opened Bits
  import opened Iso
  import opened IsoReader
  import opened IsoFragment

  // ---- Boxes, after section 4.2 -----------------------------------------------------------

  // The four characters of a name.
  function Ascii(name: string): (b: Data)
    ensures |b| == |name|
  {
    seq(|name|, i requires 0 <= i < |name| => name[i] as int % 0x100)
  }

  function BoxOf(name: string, content: Data): (b: Data)
    requires 8 + |content| < 0x1_0000_0000
    ensures |b| == 4 + |name| + |content|
  {
    Put32(8 + |content|) + Ascii(name) + content
  }

  function FullBox(name: string, version: byte, flags: nat, content: Data): Data
    requires 12 + |content| < 0x1_0000_0000 && flags < 0x100_0000
  {
    BoxOf(name, Full(version, flags, content))
  }

  function Full(version: byte, flags: nat, content: Data): (b: Data)
    requires flags < 0x100_0000
    ensures |b| == 4 + |content|
  {
    [version, flags / 0x1_0000, flags / 0x100 % 0x100, flags % 0x100] + content
  }

  // ---- A movie fragment, after section 8.8 -------------------------------------------------

  // Track fragment header: defaults for duration, size and flags, and offsets
  // from the start of the fragment.
  function PrintTfhd(track: uint32, duration: uint32, size: uint32, flags: uint32): Data {
    FullBox("tfhd", 0, 0x02_0000 + 0x8 + 0x10 + 0x20, Put32(track) + Put32(duration) + Put32(size) + Put32(flags))
  }

  // Decode time: version 1 has 64 bits.
  function PrintTfdt(dts: uint64): Data {
    FullBox("tfdt", 1, 0, Put64(dts))
  }

  // A run of one sample, with its offset and perhaps its composition time.
  function PrintTrun(offset: uint32, cts: uint32): Data {
    if cts == 0 then FullBox("trun", 0, 0x1, Put32(1) + Put32(offset))
    else FullBox("trun", 0, 0x1 + 0x800, Put32(1) + Put32(offset) + Put32(cts))
  }

  function PrintTraf(track: uint32, duration: uint32, size: uint32, flags: uint32, dts: uint64, cts: uint32, offset: uint32): Data {
    BoxOf("traf", PrintTfhd(track, duration, size, flags) + PrintTfdt(dts) + PrintTrun(offset, cts))
  }

  // The offset is that of the data from the start of the fragment.
  function PrintFragment(sequence: uint32, track: uint32, duration: uint32, size: uint32, flags: uint32, dts: uint64, cts: uint32, data: Data): Data
    requires 8 + |data| < 0x1_0000_0000
  {
    BoxOf("moof", FullBox("mfhd", 0, 0, Put32(sequence))
                  + PrintTraf(track, duration, size, flags, dts, cts, if cts == 0 then 108 else 112))
    + BoxOf("mdat", data)
  }

  // The reader's codes are the names.
  lemma Names()
    ensures Ascii("moof") == Put32(MOOF) && Ascii("mfhd") == Put32(MFHD) && Ascii("traf") == Put32(TRAF) && Ascii("tfhd") == Put32(TFHD)
    ensures Ascii("tfdt") == Put32(TFDT) && Ascii("trun") == Put32(TRUN) && Ascii("mdat") == Put32(MDAT)
  {
    hide Put32, Ascii;
    NameIs("moof", MOOF);
    NameIs("mfhd", MFHD);
    NameIs("traf", TRAF);
    NameIs("tfhd", TFHD);
    NameIs("tfdt", TFDT);
    NameIs("trun", TRUN);
    NameIs("mdat", MDAT);
  }

  lemma MoreNames()
    ensures Ascii("moov") == Put32(MOOV) && Ascii("trak") == Put32(TRAK) && Ascii("mdia") == Put32(MDIA) && Ascii("minf") == Put32(MINF)
    ensures Ascii("stbl") == Put32(STBL) && Ascii("tkhd") == Put32(TKHD) && Ascii("mdhd") == Put32(MDHD) && Ascii("stsd") == Put32(STSD)
    ensures Ascii("avc1") == Put32(AVC1) && Ascii("hev1") == Put32(HEV1) && Ascii("mp4a") == Put32(MP4A)
  {
    hide Put32, Ascii;
    NameIs("moov", MOOV);
    NameIs("trak", TRAK);
    NameIs("mdia", MDIA);
    NameIs("minf", MINF);
    NameIs("stbl", STBL);
    NameIs("tkhd", TKHD);
    NameIs("mdhd", MDHD);
    NameIs("stsd", STSD);
    NameIs("avc1", AVC1);
    NameIs("hev1", HEV1);
    NameIs("mp4a", MP4A);
  }

  lemma NameIs(name: string, code: uint32)
    requires |name| == 4 && forall i :: 0 <= i < 4 ==> name[i] as int < 0x80
    requires code == name[0] as int * 0x100_0000 + name[1] as int * 0x1_0000 + name[2] as int * 0x100 + name[3] as int
    ensures Ascii(name) == Put32(code)
  {
    FourBytes(name[0] as int, name[1] as int, name[2] as int, name[3] as int);
    hide Put32;
  }

  lemma FourBytes(a: byte, b: byte, c: byte, d: byte)
    requires a < 0x80
    ensures Put32(a * 0x100_0000 + b * 0x1_0000 + c * 0x100 + d) == [a, b, c, d]
  {
    var x := (a as int) * 0x100 + b;
    var y := x * 0x100 + c;
    var v := y * 0x100 + d;
    assert v / 0x100 == y && v % 0x100 == d && y / 0x100 == x && y % 0x100 == c && x / 0x100 == a && x % 0x100 == b;
    Quotients(v);
  }

  lemma Quotients(v: nat)
    ensures v / 0x1_0000 == v / 0x100 / 0x100 && v / 0x100_0000 == v / 0x100 / 0x100 / 0x100
  {
  }

  lemma BoxIs(name: string, content: Data, code: uint32)
    requires |name| == 4 && 8 + |content| < 0x1_0000_0000 && Ascii(name) == Put32(code)
    ensures BoxOf(name, content) == Sized(Put32(code), content) && |BoxOf(name, content)| == 8 + |content|
  {
    hide Put32;
  }

  // WriteMovieFragment and WriteData write this fragment.
  lemma FragmentIs(sequence: uint32, track: uint32, duration: uint32, size: uint32, flags: uint32, dts: uint64, cts: uint32, data: Data)
    requires 8 + |data| < 0x1_0000_0000
    ensures BoxSerial(Fragment(0, sequence, track, duration, size, flags, dts, cts)) + BoxSerial(Leaf(MDAT, data))
         == PrintFragment(sequence, track, duration, size, flags, dts, cts, data)
  {
    hide Put32, Put64, Sized, Ascii, BoxSerial, Fragment, MfhdData, BoxOf;
    Names();
    var offset := if cts == 0 then 108 else 112;
    LeafSerial(MDAT, data);
    FragmentSerial(0, sequence, track, duration, size, flags, dts, cts);
    MfhdIs(sequence);
    TrafIs(track, duration, size, flags, dts, cts, offset);
    BoxIs("mdat", data, MDAT);
    BoxIs("mfhd", Full(0, 0, Put32(sequence)), MFHD);
    BoxIs("moof", FullBox("mfhd", 0, 0, Put32(sequence)) + PrintTraf(track, duration, size, flags, dts, cts, offset), MOOF);
  }

  lemma MfhdIs(sequence: uint32)
    ensures Full(0, 0, Put32(sequence)) == MfhdData(sequence)
  {
  }

  lemma TrafIs(track: uint32, duration: uint32, size: uint32, flags: uint32, dts: uint64, cts: uint32, offset: uint32)
    requires offset == if cts == 0 then 108 else 112
    ensures PrintTraf(track, duration, size, flags, dts, cts, offset) == Sized(Put32(TRAF), TrafInner(0, track, duration, size, flags, dts, cts))
    ensures |PrintTraf(track, duration, size, flags, dts, cts, offset)| < 100
  {
    hide Put32, Put64, Sized, Ascii, BoxOf;
    Names();
    var tfhd, run := Put32(track) + Put32(duration) + Put32(size) + Put32(flags), Put32(1) + Put32(offset);
    assert Full(0, 0x02_0038, tfhd) == TfhdData(track, duration, size, flags);
    BoxIs("tfhd", Full(0, 0x02_0038, tfhd), TFHD);
    BoxIs("tfdt", Full(1, 0, Put64(dts)), TFDT);
    if cts == 0 {
      assert Full(0, 0x1, run) == TrunData(offset, cts);
      BoxIs("trun", Full(0, 0x1, run), TRUN);
    } else {
      assert Full(0, 0x801, run + Put32(cts)) == TrunData(offset, cts);
      BoxIs("trun", Full(0, 0x801, run + Put32(cts)), TRUN);
    }
    BoxIs("traf", PrintTfhd(track, duration, size, flags) + PrintTfdt(dts) + PrintTrun(offset, cts), TRAF);
  }

  // ---- Runs of samples, after section 8.8.8 --------------------------------------------------

  // The fields that the flags of a run announce, and those of a sample.
  datatype Fields = Fields(offset: bool, first: bool, duration: bool, size: bool, flags: bool, cts: bool)
  datatype RunSample = RunSample(duration: uint32, size: uint32, flags: uint32, cts: uint32)

  function Bit(c: bool, bit: nat): nat {
    if c then bit else 0
  }

  function RunFlags(f: Fields): (flags: nat)
    ensures flags < 0x1000
  {
    Bit(f.offset, 0x1) + Bit(f.first, 0x4) + Bit(f.duration, 0x100) + Bit(f.size, 0x200) + Bit(f.flags, 0x400) + Bit(f.cts, 0x800)
  }

  function Given(c: bool, v: uint32): Data {
    if c then Put32(v) else []
  }

  function SampleBytes(f: Fields, x: RunSample): Data {
    Given(f.duration, x.duration) + (Given(f.size, x.size) + (Given(f.flags, x.flags) + Given(f.cts, x.cts)))
  }

  function SamplesBytes(f: Fields, samples: seq<RunSample>): Data {
    if samples == [] then [] else SampleBytes(f, samples[0]) + SamplesBytes(f, samples[1..])
  }

  function RunContent(f: Fields, offset: uint32, first: uint32, samples: seq<RunSample>): Data
    requires |samples| < 0x1_0000_0000
  {
    Put32(|samples|) + (Given(f.offset, offset) + (Given(f.first, first) + SamplesBytes(f, samples)))
  }

  // The fields of the samples that the flags announce, each as a list.
  function Durations(f: Fields, samples: seq<RunSample>): seq<uint32> {
    if f.duration then seq(|samples|, k requires 0 <= k < |samples| => samples[k].duration) else []
  }

  function Sizes(f: Fields, samples: seq<RunSample>): seq<uint32> {
    if f.size then seq(|samples|, k requires 0 <= k < |samples| => samples[k].size) else []
  }

  function FlagsEach(f: Fields, samples: seq<RunSample>): seq<uint32> {
    if f.flags then seq(|samples|, k requires 0 <= k < |samples| => samples[k].flags) else []
  }

  function CtsEach(f: Fields, samples: seq<RunSample>): seq<uint32> {
    if f.cts then seq(|samples|, k requires 0 <= k < |samples| => samples[k].cts) else []
  }

  // ---- Reading ------------------------------------------------------------------------------------

  predicate Has(data: Data, i: nat, part: Data) {
    i + |part| <= |data| && data[i..i + |part|] == part
  }

  lemma SplitHas(data: Data, i: nat, a: Data, b: Data)
    requires Has(data, i, a + b)
    ensures Has(data, i, a) && Has(data, i + |a|, b)
  {
    var all := data[i..i + |a + b|];
    assert all[..|a|] == a && all[|a|..] == b;
    assert data[i..i + |a|] == all[..|a|] && data[i + |a|..i + |a| + |b|] == all[|a|..];
  }

  lemma FieldReads(data: Data, i: nat, v: uint32)
    requires Has(data, i, Put32(v))
    ensures U32(data, 8 * i) == v
  {
    hide Num, Get32, Put32;
    NumGet32(data, i);
    assert data[i..] == Put32(v) + data[i + 4..];
    Get32Put32(v, data[i + 4..]);
  }

  lemma GivenReads(data: Data, i: nat, flags: nat, bit: nat, c: bool, v: uint32)
    requires bit > 0 && Flag(flags, bit) == c && Has(data, i, Given(c, v))
    ensures Field(data, flags, bit, 8 * i) == (if c then [v] else []) && Past(flags, bit, 8 * i) == 8 * (i + |Given(c, v)|)
  {
    hide U32, Flag, Put32;
    if c {
      FieldReads(data, i, v);
    }
  }

  lemma FlagsOfRun(f: Fields)
    ensures var n := RunFlags(f);
            && Flag(n, 0x1) == f.offset && Flag(n, 0x4) == f.first && Flag(n, 0x100) == f.duration && Flag(n, 0x200) == f.size
            && Flag(n, 0x400) == f.flags && Flag(n, 0x800) == f.cts
  {
  }

  lemma SampleReads(data: Data, i: nat, f: Fields, x: RunSample, run: Atom)
    requires run.Trun? && Has(data, i, SampleBytes(f, x))
    ensures AddSample(data, RunFlags(f), 8 * i, run) ==
            run.(durations := run.durations + (if f.duration then [x.duration] else []), sizes := run.sizes + (if f.size then [x.size] else []),
                 flags := run.flags + (if f.flags then [x.flags] else []), cts := run.cts + (if f.cts then [x.cts] else []))
    ensures SampleEnd(RunFlags(f), 8 * i) == 8 * (i + |SampleBytes(f, x)|)
  {
    hide Field, Past, Given, RunFlags, Has, Flag;
    FlagsOfRun(f);
    var n := RunFlags(f);
    var a, b, c, e := Given(f.duration, x.duration), Given(f.size, x.size), Given(f.flags, x.flags), Given(f.cts, x.cts);
    SplitHas(data, i, a, b + (c + e));
    SplitHas(data, i + |a|, b, c + e);
    SplitHas(data, i + |a| + |b|, c, e);
    GivenReads(data, i, n, 0x100, f.duration, x.duration);
    GivenReads(data, i + |a|, n, 0x200, f.size, x.size);
    GivenReads(data, i + |a| + |b|, n, 0x400, f.flags, x.flags);
    GivenReads(data, i + |a| + |b| + |c|, n, 0x800, f.cts, x.cts);
  }

  function WithSamples(f: Fields, samples: seq<RunSample>, run: Atom): (r: Atom)
    requires run.Trun?
    ensures r.Trun?
  {
    run.(durations := run.durations + Durations(f, samples), sizes := run.sizes + Sizes(f, samples),
         flags := run.flags + FlagsEach(f, samples), cts := run.cts + CtsEach(f, samples))
  }

  lemma {:induction false} SamplesRead(data: Data, i: nat, f: Fields, samples: seq<RunSample>, run: Atom)
    requires run.Trun? && Has(data, i, SamplesBytes(f, samples))
    ensures TrunSamples(data, RunFlags(f), 8 * i, |samples|, run) == WithSamples(f, samples, run)
    decreases |samples|
  {
    hide AddSample, SampleEnd, SampleBytes, RunFlags, Has, WithSamples;
    if samples == [] {
      NoSamples(f, run);
    } else {
      var x, rest := samples[0], samples[1..];
      SplitHas(data, i, SampleBytes(f, x), SamplesBytes(f, rest));
      SampleReads(data, i, f, x, run);
      var more := AddSample(data, RunFlags(f), 8 * i, run);
      SamplesRead(data, i + |SampleBytes(f, x)|, f, rest, more);
      OneMoreSample(f, samples, run, more);
    }
  }

  lemma NoSamples(f: Fields, run: Atom)
    requires run.Trun?
    ensures WithSamples(f, [], run) == run
  {
  }

  lemma OneMoreSample(f: Fields, samples: seq<RunSample>, run: Atom, more: Atom)
    requires run.Trun? && samples != []
    requires var x := samples[0];
             more == run.(durations := run.durations + (if f.duration then [x.duration] else []), sizes := run.sizes + (if f.size then [x.size] else []),
                          flags := run.flags + (if f.flags then [x.flags] else []), cts := run.cts + (if f.cts then [x.cts] else []))
    ensures WithSamples(f, samples[1..], more) == WithSamples(f, samples, run)
  {
    hide Durations, Sizes, FlagsEach, CtsEach;
    FirstSample(f, samples);
    var x := samples[0];
    Regroup(run.durations, if f.duration then [x.duration] else [], Durations(f, samples[1..]));
    Regroup(run.sizes, if f.size then [x.size] else [], Sizes(f, samples[1..]));
    Regroup(run.flags, if f.flags then [x.flags] else [], FlagsEach(f, samples[1..]));
    Regroup(run.cts, if f.cts then [x.cts] else [], CtsEach(f, samples[1..]));
  }

  lemma FirstSample(f: Fields, samples: seq<RunSample>)
    requires samples != []
    ensures var x, rest := samples[0], samples[1..];
            && Durations(f, samples) == (if f.duration then [x.duration] else []) + Durations(f, rest)
            && Sizes(f, samples) == (if f.size then [x.size] else []) + Sizes(f, rest)
            && FlagsEach(f, samples) == (if f.flags then [x.flags] else []) + FlagsEach(f, rest)
            && CtsEach(f, samples) == (if f.cts then [x.cts] else []) + CtsEach(f, rest)
  {
  }

  lemma Regroup(a: seq<uint32>, b: seq<uint32>, c: seq<uint32>)
    ensures (a + b) + c == a + (b + c)
  {
  }

  lemma BoxReads(name: string, content: Data, code: uint32, rest: Data)
    requires |name| == 4 && 8 + |content| < 0x1_0000_0000 && Ascii(name) == Put32(code)
    ensures Decode(BoxOf(name, content) + rest) == DecodeBox(code, content)
  {
    hide Put32, Get32, DecodeBox, Sized;
    BoxIs(name, content, code);
    HeadOfBox(Put32(code), content, rest);
    NameOf(code);
  }

  // The flags behind the version.
  lemma FlagsOf(version: byte, flags: nat, content: Data)
    requires flags < 0x100_0000
    ensures Num(Full(version, flags, content), 8, 24) == flags
  {
    hide Num;
    FlagsAt(Full(version, flags, content));
    assert flags / 0x1_0000 * 0x1_0000 + flags / 0x100 % 0x100 * 0x100 + flags % 0x100 == flags by { ThreeDigits(flags); }
  }

  lemma ThreeDigits(v: nat)
    ensures v / 0x1_0000 * 0x1_0000 + v / 0x100 % 0x100 * 0x100 + v % 0x100 == v
  {
    assert v / 0x1_0000 == v / 0x100 / 0x100;
  }

  // The reader inverts a run with any of its fields, over any samples.
  lemma RunReads(f: Fields, version: byte, offset: uint32, first: uint32, samples: seq<RunSample>, rest: Data)
    requires |samples| < 0x1_0000_0000 && 12 + |RunContent(f, offset, first, samples)| < 0x1_0000_0000
    ensures Decode(FullBox("trun", version, RunFlags(f), RunContent(f, offset, first, samples)) + rest)
         == One(Trun(if f.offset then offset else 0, if f.first then first else 0, Durations(f, samples),
                     Sizes(f, samples), FlagsEach(f, samples), CtsEach(f, samples)))
  {
    hide Put32, Ascii, Decode, BoxOf, RunFlags, Num, Has, SamplesBytes, TrunOf, Given;
    Names();
    var content := RunContent(f, offset, first, samples);
    var data := Full(version, RunFlags(f), content);
    BoxReads("trun", data, TRUN, rest);
    FlagsOf(version, RunFlags(f), content);
    assert Has(data, 4, content) by { AfterFlags(version, RunFlags(f), content); }
    SplitHas(data, 4, Put32(|samples|), Given(f.offset, offset) + (Given(f.first, first) + SamplesBytes(f, samples)));
    FieldReads(data, 4, |samples|);
    RunBodyReads(data, f, offset, first, samples);
  }

  lemma AfterFlags(version: byte, flags: nat, content: Data)
    requires flags < 0x100_0000
    ensures Has(Full(version, flags, content), 4, content)
  {
  }

  lemma RunBodyReads(data: Data, f: Fields, offset: uint32, first: uint32, samples: seq<RunSample>)
    requires Num(data, 8, 24) == RunFlags(f) && U32(data, 32) == |samples|
    requires Has(data, 8, Given(f.offset, offset) + (Given(f.first, first) + SamplesBytes(f, samples)))
    ensures TrunOf(data)
         == Trun(if f.offset then offset else 0, if f.first then first else 0, Durations(f, samples),
                 Sizes(f, samples), FlagsEach(f, samples), CtsEach(f, samples))
  {
    hide Put32, RunFlags, Num, Has, SamplesBytes, Given, Flag, Durations, Sizes, FlagsEach, CtsEach, TrunSamples;
    var a, b, n := Given(f.offset, offset), Given(f.first, first), RunFlags(f);
    SplitHas(data, 8, a, b + SamplesBytes(f, samples));
    SplitHas(data, 8 + |a|, b, SamplesBytes(f, samples));
    FlagsOfRun(f);
    GivenReads(data, 8, n, 0x1, f.offset, offset);
    GivenReads(data, 8 + |a|, n, 0x4, f.first, first);
    var start := Trun(if f.offset then offset else 0, if f.first then first else 0, [], [], [], []);
    SamplesRead(data, 8 + |a| + |b|, f, samples, start);
  }

  // ---- Other headers --------------------------------------------------------------------------------

  // A track fragment header, after section 8.8.7: besides the defaults it can have
  // a data offset of 64 bits and the index of a description.
  datatype Defaults = Defaults(base: Option<uint64>, description: Option<uint32>, duration: Option<uint32>, size: Option<uint32>, flags: Option<uint32>)

  function Maybe(v: Option<uint32>): Data {
    if v.Some? then Put32(v.value) else []
  }

  function TfhdFlags(x: Defaults, moof: bool): (flags: nat)
    ensures flags < 0x3_0000
  {
    Bit(x.base.Some?, 0x1) + Bit(x.description.Some?, 0x2) + Bit(x.duration.Some?, 0x8) + Bit(x.size.Some?, 0x10) + Bit(x.flags.Some?, 0x20)
    + Bit(moof, 0x2_0000)
  }

  function TfhdContent(track: uint32, x: Defaults): (b: Data)
    ensures |b| <= 28
  {
    Put32(track) + ((if x.base.Some? then Put64(x.base.value) else []) + (Maybe(x.description) + (Maybe(x.duration) + (Maybe(x.size) + Maybe(x.flags)))))
  }

  function Or0(v: Option<uint32>): uint32 {
    if v.Some? then v.value else 0
  }

  lemma FlagsOfTfhd(x: Defaults, moof: bool)
    ensures var n := TfhdFlags(x, moof); Flag(n, 0x8) == x.duration.Some? && Flag(n, 0x10) == x.size.Some? && Flag(n, 0x20) == x.flags.Some?
  {
  }

  // The reader inverts it when it has neither of those two. With a data offset it
  // takes the high half of it for the duration.
  lemma TfhdReads(version: byte, track: uint32, x: Defaults, moof: bool, rest: Data)
    ensures var r := Decode(FullBox("tfhd", version, TfhdFlags(x, moof), TfhdContent(track, x)) + rest);
            && (x.base == None && x.description == None ==> r == One(Tfhd(track, Or0(x.duration), Or0(x.size), Or0(x.flags))))
            && (x.base.Some? && x.duration.Some? ==> r.One? && r.atom.Tfhd? && r.atom.sampleDuration == x.base.value / 0x1_0000_0000)
  {
    hide Put32, Ascii, Decode, BoxOf, TfhdFlags, Num, Has, TfhdOf, TfhdContent;
    Names();
    var content := TfhdContent(track, x);
    var data := Full(version, TfhdFlags(x, moof), content);
    BoxReads("tfhd", data, TFHD, rest);
    FlagsOf(version, TfhdFlags(x, moof), content);
    assert Has(data, 4, content) by { AfterFlags(version, TfhdFlags(x, moof), content); }
    BoxIsTfhd(data);
    TfhdBodyReads(data, track, x, moof);
  }

  lemma TfhdBodyReads(data: Data, track: uint32, x: Defaults, moof: bool)
    requires Num(data, 8, 24) == TfhdFlags(x, moof) && Has(data, 4, TfhdContent(track, x))
    ensures x.base == None && x.description == None ==> TfhdOf(data) == Tfhd(track, Or0(x.duration), Or0(x.size), Or0(x.flags))
    ensures TfhdOf(data).Tfhd? && (x.base.Some? && x.duration.Some? ==> TfhdOf(data).sampleDuration == x.base.value / 0x1_0000_0000)
  {
    hide Put32, TfhdFlags, Num, Has, U32, Flag;
    var a, b, c := Maybe(x.duration), Maybe(x.size), Maybe(x.flags);
    var base: Data := if x.base.Some? then Put64(x.base.value) else [];
    var after := Maybe(x.description) + (a + (b + c));
    FlagsOfTfhd(x, moof);
    SplitHas(data, 4, Put32(track), base + after);
    FieldReads(data, 4, track);
    if x.base.Some? {
      SplitHas(data, 8, base, after);
      SplitHas(data, 8, Put32(x.base.value / 0x1_0000_0000), Put32(x.base.value % 0x1_0000_0000));
      FieldReads(data, 8, x.base.value / 0x1_0000_0000);
    } else if x.description == None {
      assert base + after == a + (b + c);
      SplitHas(data, 8, a, b + c);
      SplitHas(data, 8 + |a|, b, c);
      if x.duration.Some? { FieldReads(data, 8, x.duration.value); }
      if x.size.Some? { FieldReads(data, 8 + |a|, x.size.value); }
      if x.flags.Some? { FieldReads(data, 8 + |a| + |b|, x.flags.value); }
    }
  }

  // Track and media headers, after sections 8.3.2 and 8.4.2: the reader finds the
  // track and the time scale in version 0. In version 1, where the times before
  // them have 64 bits, it takes the high half of the modification time for them.
  lemma HeadersRead(flags: nat, creation: uint64, modification: uint64, v: uint32, more: Data, rest: Data)
    requires flags < 0x100_0000 && 40 + |more| < 0x1_0000_0000
    ensures creation < 0x1_0000_0000 && modification < 0x1_0000_0000 ==>
              var content := Put32(creation) + Put32(modification) + Put32(v) + more;
              && Decode(FullBox("mdhd", 0, flags, content) + rest) == One(Mdhd(v))
              && Decode(FullBox("tkhd", 0, flags, content) + rest) == One(Tkhd(v))
    ensures var content := Put64(creation) + Put64(modification) + Put32(v) + more;
            && Decode(FullBox("mdhd", 1, flags, content) + rest) == One(Mdhd(modification / 0x1_0000_0000))
            && Decode(FullBox("tkhd", 1, flags, content) + rest) == One(Tkhd(modification / 0x1_0000_0000))
  {
    hide Put32, Ascii, Decode, BoxOf, Get32;
    MoreNames();
    if creation < 0x1_0000_0000 && modification < 0x1_0000_0000 {
      var data := Full(0, flags, Put32(creation) + Put32(modification) + Put32(v) + more);
      BoxReads("mdhd", data, MDHD, rest);
      BoxReads("tkhd", data, TKHD, rest);
      assert data[12..] == Put32(v) + more;
      Get32Put32(v, more);
    }
    var high, low := modification / 0x1_0000_0000, modification % 0x1_0000_0000;
    var data := Full(1, flags, Put64(creation) + Put64(modification) + Put32(v) + more);
    BoxReads("mdhd", data, MDHD, rest);
    BoxReads("tkhd", data, TKHD, rest);
    assert data[12..] == Put32(high) + (Put32(low) + Put32(v) + more);
    Get32Put32(high, Put32(low) + Put32(v) + more);
  }

  // Decode times, after section 8.8.12: version 1 is read, and version 0, which
  // has 32 bits, panics.
  lemma TimesRead(flags: nat, time: uint64, rest: Data)
    requires flags < 0x100_0000
    ensures Decode(FullBox("tfdt", 1, flags, Put64(time)) + rest) == One(Tfdt(time))
    ensures time < 0x1_0000_0000 ==> Decode(FullBox("tfdt", 0, flags, Put32(time)) + rest) == Panic
  {
    hide Put32, Put64, Ascii, Decode, BoxOf, Get64;
    Names();
    var data := Full(1, flags, Put64(time));
    BoxReads("tfdt", data, TFDT, rest);
    assert data[4..] == Put64(time) + [];
    Get64Put64(time, []);
    if time < 0x1_0000_0000 {
      BoxReads("tfdt", Full(0, flags, Put32(time)), TFDT, rest);
    }
  }

  // ---- Sample entries, after sections 8.5.2, 12.1.3 and 12.2.3 ---------------------------------

  // Before the boxes of a visual sample entry.
  function VisualHeader(index: uint16, width: uint16, height: uint16, horizontal: uint32, vertical: uint32, frames: uint16, compressor: Data, depth: uint16): (b: Data)
    requires |compressor| == 32
    ensures |b| == 78
  {
    Zeros(6) + Put16(index) + Zeros(16) + Put16(width) + Put16(height) + Put32(horizontal) + Put32(vertical) + Zeros(4) + Put16(frames) + compressor
    + Put16(depth) + Put16(0xFFFF)
  }

  // Before those of an audio sample entry; the rate is a 16.16 number.
  function AudioHeader(index: uint16, channels: uint16, sampleSize: uint16, rate: uint16, fraction: uint16): (b: Data)
    ensures |b| == 28
  {
    Zeros(6) + Put16(index) + Zeros(8) + Put16(channels) + Put16(sampleSize) + Zeros(4) + Put16(rate) + Put16(fraction)
  }

  // A description of one entry is read as its entry.
  lemma DescriptionReads(flags: nat, entry: Data, rest: Data)
    requires flags < 0x100_0000 && 16 + |entry| < 0x1_0000_0000
    ensures Decode(FullBox("stsd", 0, flags, Put32(1) + entry) + rest) == Decode(entry)
  {
    hide Put32, Ascii, Decode, BoxOf, Get32;
    MoreNames();
    var data := Full(0, flags, Put32(1) + entry);
    BoxReads("stsd", data, STSD, rest);
    assert data[4..] == Put32(1) + entry && data[8..] == entry;
    Get32Put32(1, entry);
  }

  lemma OtherReads(name: string, code: uint32, content: Data, rest: Data)
    requires |name| == 4 && Ascii(name) == Put32(code) && 8 + |content| < 0x1_0000_0000
    requires code in {0x61766343, 0x68766343, 0x65736473}
    ensures Decode(BoxOf(name, content) + rest) == One(Other(code, content))
  {
    hide Put32, Ascii, Decode, BoxOf;
    BoxReads(name, content, code, rest);
  }

  // The configuration of a video entry is that of the box behind its header.
  lemma VideoReads(header: Data, config: Data, more: Data, rest: Data)
    requires |header| == 78 && 94 + |config| + |more| < 0x1_0000_0000
    ensures Decode(BoxOf("avc1", header + (BoxOf("avcC", config) + more)) + rest) == One(Video(AVC1, config))
    ensures Decode(BoxOf("hev1", header + (BoxOf("hvcC", config) + more)) + rest) == One(Video(HEV1, config))
  {
    hide Put32, Ascii, Decode, BoxOf;
    MoreNames();
    ConfigNames();
    BoxReads("avc1", header + (BoxOf("avcC", config) + more), AVC1, rest);
    BoxReads("hev1", header + (BoxOf("hvcC", config) + more), HEV1, rest);
    OtherReads("avcC", 0x61766343, config, more);
    OtherReads("hvcC", 0x68766343, config, more);
    assert (header + (BoxOf("avcC", config) + more))[78..] == BoxOf("avcC", config) + more;
    assert (header + (BoxOf("hvcC", config) + more))[78..] == BoxOf("hvcC", config) + more;
  }

  lemma ConfigNames()
    ensures Ascii("avcC") == Put32(0x61766343) && Ascii("hvcC") == Put32(0x68766343) && Ascii("esds") == Put32(0x65736473)
  {
    hide Put32, Ascii;
    NameIs("avcC", 0x61766343);
    NameIs("hvcC", 0x68766343);
    NameIs("esds", 0x65736473);
  }

  // The content of an elementary stream descriptor: something, then the decoder
  // specific information with its length in four bytes, then something more.
  function Descriptor(before: Data, config: Data, after: Data): Data
    requires |config| < 0x100
  {
    before + ([5, 0x80, 0x80, 0x80, |config|] + config + after)
  }

  predicate IsMark(d: Data, i: nat) {
    i + 4 <= |d| && d[i..i + 4] == [5, 0x80, 0x80, 0x80]
  }

  // The four bytes that start it do not occur earlier.
  predicate MarksFirst(before: Data, d: Data) {
    forall i :: 0 <= i < |before| ==> !IsMark(d, i)
  }

  lemma {:induction false} MarkFound(before: Data, rest: Data)
    requires MarksFirst(before, before + ([5, 0x80, 0x80, 0x80] + rest))
    ensures AfterMark(before + ([5, 0x80, 0x80, 0x80] + rest)) == rest
    decreases |before|
  {
    var d := before + ([5, 0x80, 0x80, 0x80] + rest);
    if before == [] {
      assert d[..4] == [5, 0x80, 0x80, 0x80] && d[4..] == rest;
    } else {
      var e := before[1..] + ([5, 0x80, 0x80, 0x80] + rest);
      assert d[1..] == e && !IsMark(d, 0);
      assert d[0..4] == d[..4];
      forall i | 0 <= i < |before[1..]| ensures !IsMark(e, i) {
        assert !IsMark(d, i + 1);
        assert i + 4 <= |e| ==> e[i..i + 4] == d[i + 1..(i + 1) + 4];
      }
      MarkFound(before[1..], rest);
    }
  }

  // Channels and rate of an audio entry come back. Its configuration does when
  // something follows it in the descriptor; a configuration of 255 bytes panics.
  lemma AudioReads(index: uint16, channels: uint16, sampleSize: uint16, rate: uint16, fraction: uint16, before: Data, config: Data, after: Data, rest: Data)
    requires |config| < 0x100 && 60 + |Descriptor(before, config, after)| < 0x1_0000_0000 && MarksFirst(before, Descriptor(before, config, after))
    ensures var esds := BoxOf("esds", Descriptor(before, config, after));
            var r := Decode(BoxOf("mp4a", AudioHeader(index, channels, sampleSize, rate, fraction) + esds) + rest);
            if after == [] then r == One(Audio(MP4A, channels, rate, []))
            else if |config| == 255 then r == Panic
            else r == One(Audio(MP4A, channels, rate, config))
  {
    hide Put32, Ascii, Decode, BoxOf, Num, AfterMark, Get32, AudioHeader, AudioConfig, DecodeBox;
    MoreNames();
    ConfigNames();
    var d := Descriptor(before, config, after);
    var esds := BoxOf("esds", d);
    var header := AudioHeader(index, channels, sampleSize, rate, fraction);
    var data := header + esds;
    BoxReads("mp4a", data, MP4A, rest);
    OtherReads("esds", 0x65736473, d, []);
    assert data[28..] == esds == esds + [];
    var tail := [|config|] + config + after;
    assert d == before + ([5, 0x80, 0x80, 0x80] + tail);
    MarkFound(before, tail);
    ConfigAfterMark(d, config, after);
    AudioFields(index, channels, sampleSize, rate, fraction, esds);
    EntryIs(data, d, channels, rate);
  }

  lemma AudioFields(index: uint16, channels: uint16, sampleSize: uint16, rate: uint16, fraction: uint16, more: Data)
    ensures var data := AudioHeader(index, channels, sampleSize, rate, fraction) + more; Num(data, 128, 16) == channels && Num(data, 192, 16) == rate
  {
    hide Put16, Num;
    var data := AudioHeader(index, channels, sampleSize, rate, fraction) + more;
    assert data[16..18] == Put16(channels) && data[24..26] == Put16(rate);
    SixteenBits(data, 16, channels);
    SixteenBits(data, 24, rate);
  }

  // An audio entry, when the box behind its header is not one the reader knows.
  lemma EntryIs(data: Data, d: Data, channels: uint16, rate: uint16)
    requires |data| >= 28 && Num(data, 128, 16) == channels && Num(data, 192, 16) == rate && Decode(data[28..]) == One(Other(0x65736473, d))
    ensures DecodeBox(MP4A, data) == if AudioConfig(d) == None then Panic else One(Audio(MP4A, channels, rate, AudioConfig(d).value))
  {
    hide Num, AudioConfig, Decode;
  }

  lemma ConfigAfterMark(d: Data, config: Data, after: Data)
    requires |config| < 0x100 && AfterMark(d) == [|config|] + config + after
    ensures AudioConfig(d) == if after == [] then Some([]) else if |config| == 255 then None else Some(config)
  {
    hide AfterMark;
    var b := AfterMark(d);
    assert b[1..1 + |config|] == config;
  }

  lemma SixteenBits(data: Data, p: nat, v: uint16)
    requires p + 2 <= |data| && data[p..p + 2] == Put16(v)
    ensures Num(data, 8 * p, 16) == v
  {
    hide Num, Pow2, Put16;
    SmallPowers();
    InTwoBytes(data, p, 0, 16, v, 1, 0x1_0000);
  }
}
