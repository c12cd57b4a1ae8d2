// pkg/mp4/muxer.go: the timeline of fragmented MP4, and the keyframe checks of
// pkg/h264 and pkg/h265 that set the sample flags.

module Mp4Muxer {
  import opened Bytes
  import opened Iso
  import opened IsoReader
  import opened IsoFragment
  import Nalu

  datatype Name = H264 | H265 | AAC | Sound

  datatype Codec = Codec(name: Name, clockRate: uint32)

  datatype Packet = Packet(timestamp: uint32, cts: uint16, payload: Data)

  // ---- Keyframes ----------------------------------------------------------------

  function UnitType(name: Name, b: Data): byte
    requires |b| > 4
  {
    if name == H265 then b[4] / 2 % 0x40 else b[4] % 0x20
  }

  predicate Intra(name: Name, t: byte) {
    if name == H265 then 19 <= t <= 21 else t == 5
  }

  // A unit without its header byte makes the source panic.
  function Keyframe(name: Name, b: Data): Option<bool>
    decreases |b|
  {
    if |b| < 5 then None
    else
      var t := UnitType(name, b);
      if t == 1 then Some(false)
      else if Intra(name, t) then Some(true)
      else
        var size := Get32(b) + 4;
        if size < |b| then Keyframe(name, b[size..]) else Some(false)
  }

  method IsKeyframe(name: Name, payload: Data) returns (key: bool)
    requires Keyframe(name, payload).Some?
    ensures Keyframe(name, payload) == Some(key)
  {
    hide Get32, UnitType, Intra;
    var b := payload;
    while true
      invariant Keyframe(name, b) == Keyframe(name, payload)
      decreases |b|
    {
      var t := UnitType(name, b);
      if t == 1 {
        return false;
      }
      if Intra(name, t) {
        return true;
      }
      var size := Get32(b) + 4;
      if size >= |b| {
        return false;
      }
      b := b[size..];
    }
  }

  predicate NonEmptyUnits(units: seq<Data>) {
    forall i :: 0 <= i < |units| ==> 0 < |units[i]| < 0x1_0000_0000
  }

  // The first unit of type 1 or of an intra type decides.
  predicate FirstSliceIsIntra(name: Name, units: seq<Data>)
    requires NonEmptyUnits(units)
  {
    if units == [] then false
    else
      var t := UnitType(name, [0, 0, 0, 0] + units[0]);
      t != 1 && (Intra(name, t) || FirstSliceIsIntra(name, units[1..]))
  }

  lemma {:induction false} KeyframeOfUnits(name: Name, units: seq<Data>)
    requires units != [] && NonEmptyUnits(units)
    ensures Keyframe(name, Nalu.Join(units)) == Some(FirstSliceIsIntra(name, units))
    decreases |units|
  {
    hide UnitType, Intra, Nalu.Join, Put32, Get32;
    var unit, rest, b := units[0], Nalu.Join(units[1..]), Nalu.Join(units);
    JoinStep(units);
    SameType(name, b, unit);
    if |units| > 1 {
      JoinStep(units[1..]);
      KeyframeOfUnits(name, units[1..]);
    } else {
      JoinNone();
      assert units[1..] == [];
    }
  }

  lemma JoinNone()
    ensures Nalu.Join([]) == []
  {
  }

  lemma JoinStep(units: seq<Data>)
    requires units != [] && NonEmptyUnits(units)
    ensures var b := Nalu.Join(units);
            && |b| >= 5 && b[4] == units[0][0] && Get32(b) == |units[0]| && |b| == 4 + |units[0]| + |Nalu.Join(units[1..])|
            && b[Get32(b) + 4..] == Nalu.Join(units[1..])
  {
    assert Nalu.Join(units) == Nalu.Prefixed(units[0]) + Nalu.Join(units[1..]);
    hide Nalu.Join, Put32, Get32;
    PrefixedHead(units[0], Nalu.Join(units[1..]));
  }

  lemma PrefixedHead(unit: Data, rest: Data)
    requires 0 < |unit| < 0x1_0000_0000
    ensures var b := Nalu.Prefixed(unit) + rest;
            |b| == 4 + |unit| + |rest| && b[4] == unit[0] && Get32(b) == |unit| && b[|unit| + 4..] == rest
  {
    hide Put32, Get32;
    assert Nalu.Prefixed(unit) + rest == Put32(|unit|) + (unit + rest);
    Get32Put32(|unit|, unit + rest);
  }

  lemma SameType(name: Name, b: Data, unit: Data)
    requires |b| > 4 && unit != [] && b[4] == unit[0]
    ensures UnitType(name, b) == UnitType(name, [0, 0, 0, 0] + unit)
  {
  }

  // ---- The timeline -----------------------------------------------------------------

  function Sub32(a: uint32, b: uint32): uint32 {
    (a - b) % 0x1_0000_0000
  }

  function Add32(a: uint32, b: uint32): uint32 {
    (a + b) % 0x1_0000_0000
  }

  datatype Timing = Timing(duration: uint32, pts: uint32)

  // The duration of a packet, and the timestamp the next one is compared with.
  function Time(codec: Codec, pts: uint32, timestamp: uint32): Timing {
    var d := if codec.name == AAC then 1024 else Sub32(timestamp, pts);
    if d == 0 || d > codec.clockRate then
      var least := codec.clockRate / 1000 + 1;
      Timing(least, Add32(timestamp, least))
    else Timing(d, timestamp)
  }

  const SampleVideoIFrame: uint32 := 0x200_0000
  const SampleVideoNonIFrame: uint32 := 0x101_0000
  const SampleAudio: uint32 := 0x200_0000

  predicate Parses(codec: Codec, payload: Data) {
    codec.name in {H264, H265} ==> Keyframe(codec.name, payload).Some?
  }

  function Flags(codec: Codec, payload: Data): uint32
    requires Parses(codec, payload)
  {
    if codec.name in {H264, H265} then (if Keyframe(codec.name, payload).value then SampleVideoIFrame else SampleVideoNonIFrame)
    else SampleAudio
  }

  // What one fragment says.
  datatype Sample = Sample(sequence: uint32, track: byte, duration: uint32, size: uint32, flags: uint32, dts: uint64, cts: uint32,
                           payload: Data)

  function Written(x: Sample): Data {
    BoxSerial(Fragment(0, x.sequence, x.track, x.duration, x.size, x.flags, x.dts, x.cts)) + BoxSerial(Leaf(MDAT, x.payload))
  }

  datatype Timeline = Timeline(index: uint32, dts: seq<uint64>, pts: seq<uint32>, codecs: seq<Codec>)

  predicate Paired(s: Timeline) {
    |s.dts| == |s.pts| == |s.codecs|
  }

  datatype Call = AddTrack(codec: Codec) | Reset | GetPayload(track: byte, packet: Packet)

  // A track that was not added, or a payload without a NAL type, panics.
  predicate Allowed(s: Timeline, c: Call) {
    c.GetPayload? ==> c.track < |s.codecs| && Parses(s.codecs[c.track], c.packet.payload)
  }

  function SampleOf(s: Timeline, track: byte, p: Packet): Sample
    requires Paired(s) && Allowed(s, GetPayload(track, p))
  {
    var codec := s.codecs[track];
    Sample(Add32(s.index, 1), (track + 1) % 0x100, Time(codec, s.pts[track], p.timestamp).duration, |p.payload| % 0x1_0000_0000,
           Flags(codec, p.payload), s.dts[track], p.cts, p.payload)
  }

  function Do(s: Timeline, c: Call): (r: Timeline)
    requires Paired(s) && Allowed(s, c)
    ensures Paired(r)
  {
    match c
    case AddTrack(codec) => Timeline(s.index, s.dts + [0], s.pts + [0], s.codecs + [codec])
    case Reset => Timeline(0, seq(|s.dts|, _ => 0), seq(|s.pts|, _ => 0), s.codecs)
    case GetPayload(track, p) =>
      var t := Time(s.codecs[track], s.pts[track], p.timestamp);
      Timeline(Add32(s.index, 1), s.dts[track := (s.dts[track] + t.duration) % 0x1_0000_0000_0000_0000], s.pts[track := t.pts], s.codecs)
  }

  class Muxer {
    var index: uint32
    var dts: seq<uint64>
    var pts: seq<uint32>
    var codecs: seq<Codec>

    ghost function Current(): Timeline
      reads this
    {
      Timeline(index, dts, pts, codecs)
    }

    constructor ()
      ensures Current() == Timeline(0, [], [], [])
    {
      index, dts, pts, codecs := 0, [], [], [];
    }

    method AddTrack(codec: Codec)
      requires Paired(Current())
      modifies this
      ensures Current() == Do(old(Current()), Call.AddTrack(codec))
    {
      dts := dts + [0];
      pts := pts + [0];
      codecs := codecs + [codec];
    }

    method Reset()
      requires Paired(Current())
      modifies this
      ensures Current() == Do(old(Current()), Call.Reset)
    {
      index := 0;
      var i := 0;
      while i < |dts|
        invariant i <= |dts| == |pts| == |codecs| && index == 0 && codecs == old(codecs) && |dts| == old(|dts|)
        invariant forall k :: 0 <= k < i ==> dts[k] == 0 && pts[k] == 0
      {
        dts := dts[i := 0];
        pts := pts[i := 0];
        i := i + 1;
      }
    }

    method GetPayload(track: byte, packet: Packet) returns (bytes: Data)
      requires Paired(Current()) && Allowed(Current(), Call.GetPayload(track, packet))
      modifies this
      ensures Current() == Do(old(Current()), Call.GetPayload(track, packet))
      ensures bytes == Written(SampleOf(old(Current()), track, packet))
    {
      hide BoxSerial, Keyframe, Fragment, Leaf, Sub32;
      var codec := codecs[track];
      index := Add32(index, 1);
      var duration := Sub32(packet.timestamp, pts[track]);
      pts := pts[track := packet.timestamp];
      var flags: uint32;
      match codec.name {
        case H264 | H265 =>
          var key := IsKeyframe(codec.name, packet.payload);
          flags := if key then SampleVideoIFrame else SampleVideoNonIFrame;
        case AAC =>
          duration := 1024;
          flags := SampleAudio;
        case _ =>
          flags := SampleAudio;
      }
      if duration == 0 || duration > codec.clockRate {
        duration := codec.clockRate / 1000 + 1;
        pts := pts[track := Add32(pts[track], duration)];
      }
      var size := |packet.payload|;
      var mv := new Movie();
      WriteMovieFragment(mv, index, (track + 1) % 0x100, duration, size % 0x1_0000_0000, flags, dts[track], packet.cts);
      WriteData(mv, packet.payload);
      dts := dts[track := (dts[track] + duration) % 0x1_0000_0000_0000_0000];
      return mv.b;
    }
  }

  // A fragment decodes to what the sample says, and the run points at the
  // payload.
  lemma WrittenDecodes(x: Sample)
    requires 8 + |x.payload| < 0x1_0000_0000
    ensures DecodeAll(Written(x)) == Atoms(FragmentAtoms(x.sequence, x.track, x.duration, x.size, x.flags, x.dts, x.cts, x.payload))
  {
    FragmentRoundTrip(x.sequence, x.track, x.duration, x.size, x.flags, x.dts, x.cts, x.payload);
  }

  // ---- What a fragment says ---------------------------------------------------------

  // A coded slice of an IDR picture, or in H.265 of an IDR or CRA picture; and
  // units of type 1, other slices.
  predicate IsIntraSlice(name: Name, unit: Data)
    requires unit != []
  {
    if name == H265 then unit[0] as int / 2 % 64 in {19, 20, 21} else unit[0] as int % 32 == 5
  }

  predicate IsOtherSlice(name: Name, unit: Data)
    requires unit != []
  {
    (if name == H265 then unit[0] as int / 2 % 64 else unit[0] as int % 32) == 1
  }

  // An intra slice comes before any other slice.
  ghost predicate StartsIntra(name: Name, units: seq<Data>)
    requires NonEmptyUnits(units)
  {
    exists i :: 0 <= i < |units| && IsIntraSlice(name, units[i]) && forall j :: 0 <= j < i ==> !IsOtherSlice(name, units[j])
  }

  lemma {:induction false} FirstSliceDecides(name: Name, units: seq<Data>)
    requires NonEmptyUnits(units)
    ensures FirstSliceIsIntra(name, units) <==> StartsIntra(name, units)
  {
    if units != [] {
      var rest := units[1..];
      assert forall i :: 0 <= i < |rest| ==> rest[i] == units[i + 1];
      FirstSliceDecides(name, rest);
      TypesAre(name, units[0]);
      hide IsIntraSlice, IsOtherSlice, UnitType, Intra;
      if StartsIntra(name, rest) && !IsOtherSlice(name, units[0]) {
        var i :| 0 <= i < |rest| && IsIntraSlice(name, rest[i]) && forall j :: 0 <= j < i ==> !IsOtherSlice(name, rest[j]);
        assert IsIntraSlice(name, units[i + 1]) && forall j :: 0 <= j < i + 1 ==> !IsOtherSlice(name, units[j]);
      }
      if StartsIntra(name, units) && !IsIntraSlice(name, units[0]) {
        var i :| 0 <= i < |units| && IsIntraSlice(name, units[i]) && forall j :: 0 <= j < i ==> !IsOtherSlice(name, units[j]);
        assert IsIntraSlice(name, rest[i - 1]) && forall j :: 0 <= j < i - 1 ==> !IsOtherSlice(name, rest[j]);
      }
    }
  }

  lemma TypesAre(name: Name, unit: Data)
    requires unit != []
    ensures var t := UnitType(name, [0, 0, 0, 0] + unit);
            (Intra(name, t) <==> IsIntraSlice(name, unit)) && (t == 1 <==> IsOtherSlice(name, unit)) && !(IsIntraSlice(name, unit) && IsOtherSlice(name, unit))
  {
  }

  // The fields of sample flags that are set: depends_on is 2 when the sample can
  // be decoded alone and 1 when it cannot, and non_sync is one bit.
  predicate FlagFields(flags: uint32, dependsOn: nat, nonSync: nat) {
    flags / 0x100_0000 % 4 == dependsOn && flags / 0x1_0000 % 2 == nonSync && flags == dependsOn * 0x100_0000 + nonSync * 0x1_0000
  }

  // Reading back what GetPayload returned gives the number, the track, the times
  // and the payload; the run points at the payload.
  lemma PayloadSays(s: Timeline, track: byte, p: Packet)
    requires Paired(s) && Allowed(s, GetPayload(track, p)) && 8 + |p.payload| < 0x1_0000_0000
    ensures var b, codec := Written(SampleOf(s, track, p)), s.codecs[track];
            var r, d := DecodeAll(b), (p.timestamp - s.pts[track]) % 0x1_0000_0000;
            && r.Atoms? && |r.atoms| == 5
            && r.atoms[0] == Mfhd((s.index + 1) % 0x1_0000_0000) && r.atoms[2] == Tfdt(s.dts[track]) && r.atoms[4] == Mdat(p.payload)
            && r.atoms[1].Tfhd? && r.atoms[1].trackID == (track + 1) % 0x100 && r.atoms[1].sampleSize == |p.payload|
            && r.atoms[1].sampleDuration == (if codec.name == AAC && 1024 <= codec.clockRate then 1024
                                             else if codec.name != AAC && 1 <= d <= codec.clockRate then d
                                             else codec.clockRate / 1000 + 1)
            && r.atoms[3].Trun? && r.atoms[3].cts == (if p.cts == 0 then [] else [p.cts])
            && r.atoms[3].durations == [] && r.atoms[3].sizes == [] && r.atoms[3].flags == []
            && r.atoms[3].dataOffset + |p.payload| == |b| && b[r.atoms[3].dataOffset..] == p.payload
  {
    hide BoxSerial, Fragment, Leaf, DecodeAll, Keyframe, Flags;
    var x := SampleOf(s, track, p);
    FragmentRoundTrip(x.sequence, x.track, x.duration, x.size, x.flags, x.dts, x.cts, x.payload);
  }

  // Its flags: a picture of joined units is a sync sample exactly when an intra
  // slice comes before any other slice, and sound always is.
  lemma PayloadFlags(s: Timeline, track: byte, p: Packet, units: seq<Data>)
    requires Paired(s) && track < |s.codecs| && 8 + |p.payload| < 0x1_0000_0000 && units != [] && NonEmptyUnits(units)
    requires s.codecs[track].name in {H264, H265} ==> p.payload == Nalu.Join(units)
    ensures Allowed(s, GetPayload(track, p))
    ensures var name, r := s.codecs[track].name, DecodeAll(Written(SampleOf(s, track, p)));
            && r.Atoms? && |r.atoms| == 5 && r.atoms[1].Tfhd?
            && var flags := r.atoms[1].sampleFlags;
               if name in {H264, H265} && !StartsIntra(name, units) then FlagFields(flags, 1, 1) else FlagFields(flags, 2, 0)
  {
    hide BoxSerial, Fragment, Leaf, DecodeAll, Keyframe, Nalu.Join, StartsIntra, FirstSliceIsIntra, Time;
    var name := s.codecs[track].name;
    KeyframeOfUnits(name, units);
    FirstSliceDecides(name, units);
    var x := SampleOf(s, track, p);
    FragmentRoundTrip(x.sequence, x.track, x.duration, x.size, x.flags, x.dts, x.cts, x.payload);
  }

  // ---- Durations ----------------------------------------------------------------------

  // Durations lie between one tick and one second.
  lemma DurationBounds(codec: Codec, pts: uint32, timestamp: uint32)
    ensures var d := Time(codec, pts, timestamp).duration;
            1 <= d && (d <= codec.clockRate <==> codec.clockRate >= 1)
  {
    assert codec.clockRate >= 1 ==> codec.clockRate / 1000 + 1 <= codec.clockRate;
  }

  // ---- Whole runs -------------------------------------------------------------------

  const Empty := Timeline(0, [], [], [])

  function Run(calls: seq<Call>): (r: Option<Timeline>)
    ensures r.Some? ==> Paired(r.value)
  {
    if calls == [] then Some(Empty)
    else
      var before, c := Run(calls[..|calls| - 1]), calls[|calls| - 1];
      if before.Some? && Allowed(before.value, c) then Some(Do(before.value, c)) else None
  }

  datatype Event = Added | Restarted | Sent(sample: Sample)

  // What the calls produced.
  function Trace(calls: seq<Call>): (r: seq<Event>)
    requires Run(calls).Some?
    ensures |r| == |calls|
  {
    if calls == [] then []
    else
      var rest, c := calls[..|calls| - 1], calls[|calls| - 1];
      Trace(rest) + [match c
                     case AddTrack(_) => Added
                     case Reset => Restarted
                     case GetPayload(track, p) => Sent(SampleOf(Run(rest).value, track, p))]
  }

  // The durations of a track's fragments since the last restart, and the
  // number of all fragments since then.
  function Elapsed(trace: seq<Event>, track: byte): nat {
    if trace == [] then 0
    else
      var rest, e := trace[..|trace| - 1], trace[|trace| - 1];
      match e
      case Added => Elapsed(rest, track)
      case Restarted => 0
      case Sent(x) => Elapsed(rest, track) + if x.track == track then x.duration else 0
  }

  function Count(trace: seq<Event>): nat {
    if trace == [] then 0
    else
      var rest, e := trace[..|trace| - 1], trace[|trace| - 1];
      match e
      case Added => Count(rest)
      case Restarted => 0
      case Sent(_) => Count(rest) + 1
  }

  // In every run the k-th event, when it is a fragment, has the sum of the
  // durations written before it on its track as decode time, the number of
  // fragments as sequence number, and a duration of at least one tick.
  lemma {:induction false} TimelineOfRun(calls: seq<Call>, k: nat)
    requires Run(calls).Some? && k < |calls| && Trace(calls)[k].Sent?
    ensures var x, before := Trace(calls)[k].sample, Trace(calls)[..k];
            && x.dts == Elapsed(before, x.track) % 0x1_0000_0000_0000_0000
            && x.sequence == (Count(before) + 1) % 0x1_0000_0000
            && 1 <= x.duration
  {
    hide SampleOf, Elapsed, Count;
    var n := |calls| - 1;
    var rest := calls[..n];
    assert Trace(calls)[..n] == Trace(rest);
    assert Trace(calls)[..k] == Trace(rest)[..k];
    if k < n {
      TimelineOfRun(rest, k);
    } else {
      var c := calls[n];
      StateOfRun(rest, c.track);
      SampleAt(Run(rest).value, c.track, c.packet);
      assert Trace(calls)[k].sample == SampleOf(Run(rest).value, c.track, c.packet);
      assert Trace(rest)[..k] == Trace(rest);
      AddWraps32(Count(Trace(rest)), 1);
      hide Trace, Run;
    }
  }

  // In every run each duration is at least one tick, and at most one second
  // exactly when the track has a clock.
  lemma {:induction false} DurationsOfRun(calls: seq<Call>, k: nat)
    requires Run(calls).Some? && k < |calls| && Trace(calls)[k].Sent?
    ensures calls[k].GetPayload? && Run(calls[..k]).Some? && calls[k].track < |Run(calls[..k]).value.codecs|
    ensures var d, rate := Trace(calls)[k].sample.duration, Run(calls[..k]).value.codecs[calls[k].track].clockRate;
            1 <= d && (d <= rate <==> rate >= 1)
  {
    var n := |calls| - 1;
    var rest := calls[..n];
    assert calls[..k] == rest[..k];
    if k < n {
      assert Trace(calls)[..n] == Trace(rest);
      DurationsOfRun(rest, k);
    } else {
      var c := calls[n];
      var s := Run(rest).value;
      assert Allowed(s, c) && Trace(calls)[k] == Sent(SampleOf(s, c.track, c.packet));
      SampleAt(s, c.track, c.packet);
      DurationBounds(s.codecs[c.track], s.pts[c.track], c.packet.timestamp);
      hide SampleOf, Trace, Run, Time;
    }
  }

  lemma SampleAt(s: Timeline, track: byte, p: Packet)
    requires Paired(s) && Allowed(s, GetPayload(track, p))
    ensures var x := SampleOf(s, track, p);
            && x.track == (track + 1) % 0x100 && x.dts == s.dts[track] && x.sequence == (s.index + 1) % 0x1_0000_0000
            && x.duration >= 1 && x.duration == Time(s.codecs[track], s.pts[track], p.timestamp).duration
  {
    DurationBounds(s.codecs[track], s.pts[track], p.timestamp);
    hide Time, Flags;
  }

  // The state after a run, as its events tell.
  predicate Tells(s: Timeline, trace: seq<Event>, track: byte)
    requires Paired(s)
  {
    var elapsed := Elapsed(trace, (track + 1) % 0x100);
    && s.index == Count(trace) % 0x1_0000_0000
    && if track < |s.codecs| then s.dts[track] == elapsed % 0x1_0000_0000_0000_0000 else elapsed == 0
  }

  lemma {:induction false} StateOfRun(calls: seq<Call>, track: byte)
    requires Run(calls).Some?
    ensures Tells(Run(calls).value, Trace(calls), track)
  {
    if calls != [] {
      var rest, c := calls[..|calls| - 1], calls[|calls| - 1];
      StateOfRun(rest, track);
      if c.GetPayload? {
        SentTells(Run(rest).value, Trace(rest), c.track, c.packet, track);
      } else {
        OtherTells(Run(rest).value, Trace(rest), c, track);
      }
      hide Tells;
    }
  }

  lemma OtherTells(s: Timeline, trace: seq<Event>, c: Call, track: byte)
    requires Paired(s) && Tells(s, trace, track) && !c.GetPayload?
    ensures Tells(Do(s, c), trace + [if c.Reset? then Restarted else Added], track)
  {
    var e := if c.Reset? then Restarted else Added;
    assert (trace + [e])[..|trace|] == trace;
  }

  lemma TraceSnoc(trace: seq<Event>, x: Sample, track: byte)
    ensures Count(trace + [Sent(x)]) == Count(trace) + 1
    ensures Elapsed(trace + [Sent(x)], track) == Elapsed(trace, track) + if x.track == track then x.duration else 0
  {
    assert (trace + [Sent(x)])[..|trace|] == trace;
  }

  lemma SentTells(s: Timeline, trace: seq<Event>, at: byte, p: Packet, track: byte)
    requires Paired(s) && Tells(s, trace, track) && Allowed(s, GetPayload(at, p))
    ensures Tells(Do(s, GetPayload(at, p)), trace + [Sent(SampleOf(s, at, p))], track)
  {
    hide SampleOf, Time, Keyframe, Flags, Parses, Elapsed, Count;
    var x := SampleOf(s, at, p);
    TraceSnoc(trace, x, (track + 1) % 0x100);
    SampleAt(s, at, p);
    AddWraps32(Count(trace), 1);
    AddWraps64(Elapsed(trace, (track + 1) % 0x100), x.duration);
  }

  lemma AddWraps32(a: nat, b: nat)
    ensures (a % 0x1_0000_0000 + b) % 0x1_0000_0000 == (a + b) % 0x1_0000_0000
  {
  }

  lemma AddWraps64(a: nat, b: nat)
    ensures (a % 0x1_0000_0000_0000_0000 + b) % 0x1_0000_0000_0000_0000 == (a + b) % 0x1_0000_0000_0000_0000
  {
  }

  // ---- Drift ------------------------------------------------------------------------

  // How far the decode time is ahead of the timestamps of a track.
  function Drift(s: Timeline, track: byte): uint32
    requires Paired(s) && track < |s.codecs|
  {
    Sub32(s.dts[track] % 0x1_0000_0000, s.pts[track])
  }

  // A packet that leaves the one-second window makes the source start over
  // from its timestamp. A repeated timestamp does not.
  predicate Jumps(s: Timeline, track: byte, p: Packet)
    requires Paired(s) && track < |s.codecs|
  {
    Sub32(p.timestamp, s.pts[track]) > s.codecs[track].clockRate
  }

  // Except for AAC, a packet keeps the drift exactly when it does not jump; a
  // jump moves it by what the packet jumped over.
  lemma DriftOfPacket(s: Timeline, track: byte, p: Packet)
    requires Paired(s) && Allowed(s, GetPayload(track, p)) && s.codecs[track].name != AAC
    ensures var t := Do(s, GetPayload(track, p));
            && (Drift(t, track) == Drift(s, track) <==> !Jumps(s, track, p))
            && (Jumps(s, track, p) ==> Drift(t, track) == Sub32(Drift(s, track), Sub32(p.timestamp, s.pts[track])))
  {
    hide Keyframe;
    var dts, pts, codec := s.dts[track], s.pts[track], s.codecs[track];
    var time, t := Time(codec, pts, p.timestamp), Do(s, GetPayload(track, p));
    LowSum(dts, time.duration);
    var low := dts % 0x1_0000_0000;
    assert Drift(t, track) == Sub32(Add32(low, time.duration), time.pts);
    assert Drift(s, track) == Sub32(low, pts);
    assert Jumps(s, track, p) == (Sub32(p.timestamp, pts) > codec.clockRate);
    DriftOfTime(codec, low, pts, p.timestamp);
    hide Do, Drift, Time, Jumps, Sub32, Add32;
  }

  lemma DriftOfTime(codec: Codec, low: uint32, pts: uint32, timestamp: uint32)
    requires codec.name != AAC
    ensures var time := Time(codec, pts, timestamp);
            var after, before, jumps := Sub32(Add32(low, time.duration), time.pts), Sub32(low, pts), Sub32(timestamp, pts) > codec.clockRate;
            (after == before <==> !jumps) && (jumps ==> after == Sub32(before, Sub32(timestamp, pts)))
  {
    var time := Time(codec, pts, timestamp);
    SubZero(timestamp, pts);
    PlainStep(low, pts, timestamp);
    LeastStep(low, timestamp, time.duration);
    JumpStep(low, pts, timestamp);
    hide Sub32, Add32;
  }

  lemma SubZero(a: uint32, b: uint32)
    ensures Sub32(a, b) == 0 <==> a == b
  {
  }

  lemma LowSum(dts: uint64, d: uint32)
    ensures (dts + d) % 0x1_0000_0000_0000_0000 % 0x1_0000_0000 == Add32(dts % 0x1_0000_0000, d)
  {
  }

  lemma PlainStep(low: uint32, pts: uint32, timestamp: uint32)
    ensures Sub32(Add32(low, Sub32(timestamp, pts)), timestamp) == Sub32(low, pts)
  {
  }

  lemma LeastStep(low: uint32, timestamp: uint32, d: uint32)
    ensures Sub32(Add32(low, d), Add32(timestamp, d)) == Sub32(low, timestamp)
  {
  }

  lemma JumpStep(low: uint32, pts: uint32, timestamp: uint32)
    ensures Sub32(low, timestamp) == Sub32(Sub32(low, pts), Sub32(timestamp, pts))
    ensures Sub32(low, timestamp) == Sub32(low, pts) <==> timestamp == pts
  {
  }

  // From call i on, nothing resets the timeline and no packet of the track
  // jumps.
  predicate Steady(calls: seq<Call>, i: nat, track: byte)
    requires Run(calls).Some? && i <= |calls|
    decreases |calls| - i
  {
    i == |calls| ||
    var rest, c := calls[..|calls| - 1], calls[|calls| - 1];
    Steady(rest, i, track) && !c.Reset? &&
    (c.GetPayload? && c.track == track ==> !Jumps(Run(rest).value, track, c.packet))
  }

  lemma {:induction false} DriftOfRun(calls: seq<Call>, i: nat, track: byte)
    requires Run(calls).Some? && i <= |calls| && Run(calls[..i]).Some? && track < |Run(calls[..i]).value.codecs|
    requires Run(calls[..i]).value.codecs[track].name != AAC && Steady(calls, i, track)
    ensures var s, t := Run(calls[..i]).value, Run(calls).value;
            track < |t.codecs| && t.codecs[track] == s.codecs[track] && Drift(t, track) == Drift(s, track)
    decreases |calls| - i
  {
    if i == |calls| {
      assert calls[..i] == calls;
    } else {
      var rest, c := calls[..|calls| - 1], calls[|calls| - 1];
      assert rest[..i] == calls[..i];
      DriftOfRun(rest, i, track);
      if c.GetPayload? && c.track == track {
        DriftOfPacket(Run(rest).value, track, c.packet);
      }
    }
  }
}
