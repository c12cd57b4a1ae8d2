// pkg/iso/reader.go: boxes are decoded recursively and flattened into one list
// of atoms.

module IsoReader {
  import opened Bytes
  import opened Bits
  import opened Iso

  // Box names as big-endian numbers of their four characters.
  const MOOV: uint32 := 0x6D6F6F76
  const TRAK: uint32 := 0x7472616B
  const TKHD: uint32 := 0x746B6864
  const MDIA: uint32 := 0x6D646961
  const MDHD: uint32 := 0x6D646864
  const MINF: uint32 := 0x6D696E66
  const STBL: uint32 := 0x7374626C
  const STSD: uint32 := 0x73747364
  const AVC1: uint32 := 0x61766331
  const HEV1: uint32 := 0x68657631
  const MP4A: uint32 := 0x6D703461
  const MOOF: uint32 := 0x6D6F6F66
  const MFHD: uint32 := 0x6D666864
  const TRAF: uint32 := 0x74726166
  const TFHD: uint32 := 0x74666864
  const TFDT: uint32 := 0x74666474
  const TRUN: uint32 := 0x7472756E
  const MDAT: uint32 := 0x6D646174

  datatype Atom =
    | Other(name: uint32, data: Data)
    | Tkhd(trackID: uint32)
    | Mdhd(timeScale: uint32)
    | Video(name: uint32, config: Data)
    | Audio(name: uint32, channels: uint32, sampleRate: uint32, config: Data)
    | Mfhd(sequence: uint32)
    | Mdat(data: Data)
    | Tfhd(trackID: uint32, sampleDuration: uint32, sampleSize: uint32, sampleFlags: uint32)
    | Tfdt(decodeTime: uint64)
    | Trun(dataOffset: uint32, firstSampleFlags: uint32, durations: seq<uint32>, sizes: seq<uint32>,
           flags: seq<uint32>, cts: seq<uint32>)

  // A list of atoms, one atom, an error, or an index out of range. A read past
  // the length of a slice counts as out of range.
  datatype Decoded = Atoms(atoms: seq<Atom>) | One(atom: Atom) | Eof | Panic

  predicate Container(name: uint32) {
    name in {MOOV, TRAK, MDIA, MINF, STBL, MOOF, TRAF}
  }

  predicate Flag(flags: nat, bit: nat)
    requires bit > 0
  {
    flags / bit % 2 == 1
  }

  // ---- Leaves -------------------------------------------------------------------

  lemma NumIs32(data: Data, at: nat)
    ensures Num(data, at, 32) < 0x1_0000_0000 && Num(data, at, 24) < 0x1_0000_0000 && Num(data, at, 16) < 0x1_0000_0000
  {
    Pow2Values();
    Pow2Monotone(16, 32);
    Pow2Monotone(24, 32);
  }

  function U32(data: Data, at: nat): uint32 {
    NumIs32(data, at);
    Num(data, at, 32)
  }

  // Fields that a flag announces come one after the other.
  function TfhdOf(data: Data): Atom {
    var flags := Num(data, 8, 24);
    var a := 64;
    var b := if Flag(flags, 0x8) then a + 32 else a;
    var c := if Flag(flags, 0x10) then b + 32 else b;
    Tfhd(U32(data, 32), if Flag(flags, 0x8) then U32(data, a) else 0,
         if Flag(flags, 0x10) then U32(data, b) else 0, if Flag(flags, 0x20) then U32(data, c) else 0)
  }

  // One sample: the fields it has, and where the next one starts.
  function Field(data: Data, flags: nat, bit: nat, at: nat): seq<uint32>
    requires bit > 0
  {
    if Flag(flags, bit) then [U32(data, at)] else []
  }

  function Past(flags: nat, bit: nat, at: nat): nat
    requires bit > 0
  {
    if Flag(flags, bit) then at + 32 else at
  }

  function SampleEnd(flags: nat, at: nat): nat {
    Past(flags, 0x800, Past(flags, 0x400, Past(flags, 0x200, Past(flags, 0x100, at))))
  }

  function AddSample(data: Data, flags: nat, at: nat, run: Atom): (r: Atom)
    requires run.Trun?
    ensures r.Trun?
  {
    var a := Past(flags, 0x100, at);
    var b := Past(flags, 0x200, a);
    var c := Past(flags, 0x400, b);
    run.(durations := run.durations + Field(data, flags, 0x100, at),
         sizes := run.sizes + Field(data, flags, 0x200, a),
         flags := run.flags + Field(data, flags, 0x400, b),
         cts := run.cts + Field(data, flags, 0x800, c))
  }

  // n samples are added to the run.
  function TrunSamples(data: Data, flags: nat, at: nat, n: nat, run: Atom): (r: Atom)
    requires run.Trun?
    ensures r.Trun?
    decreases n
  {
    if n == 0 then run
    else TrunSamples(data, flags, SampleEnd(flags, at), n - 1, AddSample(data, flags, at, run))
  }

  function TrunOf(data: Data): Atom {
    var flags, samples := Num(data, 8, 24), Num(data, 32, 32);
    var a := Past(flags, 0x1, 64);
    var start := Trun(if Flag(flags, 0x1) then U32(data, 64) else 0, if Flag(flags, 0x4) then U32(data, a) else 0, [], [], [], []);
    TrunSamples(data, flags, Past(flags, 0x4, a), samples, start)
  }

  // The bytes after the first occurrence of the four bytes that start the
  // decoder configuration, as bytes.Cut finds it; empty when there is none.
  function AfterMark(d: Data): Data
    decreases |d|
  {
    if |d| < 4 then []
    else if d[..4] == [5, 0x80, 0x80, 0x80] then d[4..]
    else AfterMark(d[1..])
  }

  // The configuration after the mark, behind its length. The end of it is
  // computed in a byte, so that a length of 255 wraps and panics.
  function AudioConfig(d: Data): Option<Data> {
    var b := AfterMark(d);
    if |b| > 0 && |b| > 1 + (b[0] as int) then
      if b[0] == 255 then None else Some(b[1..1 + (b[0] as int)])
    else Some([])
  }

  // ---- Decoding -------------------------------------------------------------------

  function Decode(b: Data): Decoded
    decreases |b|, 0
  {
    if |b| < 4 then Panic
    else
      var size := Get32(b);
      if |b| < size then Eof
      else if size < 8 then Panic
      else DecodeBox(Get32(b[4..]), b[8..size])
  }

  function DecodeBox(name: uint32, data: Data): Decoded
    decreases |data|, 2
  {
    if Container(name) then DecodeAll(data)
    else if name == TKHD then (if |data| < 16 then Panic else One(Tkhd(Get32(data[12..]))))
    else if name == MDHD then (if |data| < 16 then Panic else One(Mdhd(Get32(data[12..]))))
    else if name == STSD then
      if |data| < 8 then Panic
      else if Get32(data[4..]) == 1 then Decode(data[8..])
      else One(Other(name, data))
    else if name == AVC1 || name == HEV1 then
      if |data| < 78 then Panic
      else
        var inner := Decode(data[78..]);
        if inner.Eof? || inner.Panic? then inner
        else if inner.One? && inner.atom.Other? then One(Video(name, inner.atom.data))
        else One(Other(name, data))
    else if name == MP4A then DecodeAudio(name, data)
    else if name == MFHD then (if |data| < 8 then Panic else One(Mfhd(Get32(data[4..]))))
    else if name == TFHD then One(TfhdOf(data))
    else if name == TFDT then (if |data| < 12 then Panic else One(Tfdt(Get64(data[4..]))))
    else if name == TRUN then One(TrunOf(data))
    else if name == MDAT then One(Mdat(data))
    else One(Other(name, data))
  }

  // Skips that reach past the end are not made. The sample rate is a 16.16
  // number that is cut to its integer part.
  function DecodeAudio(name: uint32, data: Data): Decoded
    decreases |data|, 1
  {
    var a := if |data| >= 16 then 16 else 0;
    var b := Advance(data, a, 2);
    var c := if b + 6 <= |data| then b + 6 else b;
    var e := Advance(data, c, 4);
    NumIs32(data, 8 * a);
    NumIs32(data, 8 * c);
    if e == 0 then Panic
    else
      var inner := Decode(data[e..]);
      var config := if inner.One? && inner.atom.Other? then AudioConfig(inner.atom.data) else Some([]);
      if inner.Panic? || config.None? then Panic
      else One(Audio(name, Num(data, 8 * a, 16), Num(data, 8 * c, 16), config.value))
  }

  // Reading n bytes stops at the end.
  function Advance(data: Data, at: nat, n: nat): (r: nat)
    requires at <= |data|
    ensures at <= r <= |data| && (r == at ==> n == 0 || at == |data|)
  {
    if at + n <= |data| then at + n else |data|
  }

  // The atoms of nested lists are spliced in.
  function Splice(d: Decoded): seq<Atom>
    requires d.Atoms? || d.One?
  {
    if d.Atoms? then d.atoms else [d.atom]
  }

  function DecodeAll(b: Data): (r: Decoded)
    ensures !r.One?
    decreases |b|, 1
  {
    if b == [] then Atoms([])
    else
      var first := Decode(b);
      if first.Eof? || first.Panic? then first
      else
        var rest := DecodeAll(b[Get32(b)..]);
        if rest.Atoms? then Atoms(Splice(first) + rest.atoms) else rest
  }

  // ---- The Go functions -----------------------------------------------------------

  function Prepend(atoms: seq<Atom>, d: Decoded): Decoded {
    if d.Atoms? then Atoms(atoms + d.atoms) else d
  }

  method DecodeAtom(b: Data) returns (r: Decoded)
    ensures r == Decode(b)
    decreases |b|, 0
  {
    if |b| < 4 {
      return Panic;
    }
    var size := Get32(b);
    if |b| < size {
      return Eof;
    }
    if size < 8 {
      return Panic;
    }
    r := DecodeNamed(Get32(b[4..]), b[8..size]);
  }

  // The switch on the name.
  method DecodeNamed(name: uint32, data: Data) returns (r: Decoded)
    ensures r == DecodeBox(name, data)
    decreases |data|, 2
  {
    hide Get32, TfhdOf, TrunOf, AfterMark;
    if Container(name) {
      r := DecodeAtoms(data);
      return;
    }
    if name == TKHD || name == MDHD {
      if |data| < 16 {
        return Panic;
      }
      return One(if name == TKHD then Tkhd(Get32(data[12..])) else Mdhd(Get32(data[12..])));
    }
    if name == STSD {
      if |data| < 8 {
        return Panic;
      }
      if Get32(data[4..]) == 1 {
        r := DecodeAtom(data[8..]);
        return;
      }
    } else if name == AVC1 || name == HEV1 {
      if |data| < 78 {
        return Panic;
      }
      var inner := DecodeAtom(data[78..]);
      if inner.Eof? || inner.Panic? {
        return inner;
      }
      if inner.One? && inner.atom.Other? {
        return One(Video(name, inner.atom.data));
      }
    } else if name == MP4A {
      return DecodeAudio(name, data);
    } else if name == MFHD {
      if |data| < 8 {
        return Panic;
      }
      return One(Mfhd(Get32(data[4..])));
    } else if name == TFHD {
      var atom := DecodeTfhd(data);
      return One(atom);
    } else if name == TFDT {
      if |data| < 12 {
        return Panic;
      }
      return One(Tfdt(Get64(data[4..])));
    } else if name == TRUN {
      var atom := DecodeTrun(data);
      return One(atom);
    } else if name == MDAT {
      return One(Mdat(data));
    }
    return One(Other(name, data));
  }

  method DecodeTfhd(data: Data) returns (atom: Atom)
    ensures atom == TfhdOf(data)
  {
    hide Num, Flag;
    var rd := new Reader(data);
    var _ := rd.ReadByte();
    var flags := rd.ReadUint24();
    var track := rd.ReadUint32();
    var duration, size, sampleFlags: uint32 := 0, 0, 0;
    if Flag(flags, 0x8) {
      duration := rd.ReadUint32();
    }
    if Flag(flags, 0x10) {
      size := rd.ReadUint32();
    }
    if Flag(flags, 0x20) {
      sampleFlags := rd.ReadUint32();
    }
    return Tfhd(track, duration, size, sampleFlags);
  }

  method DecodeTrun(data: Data) returns (atom: Atom)
    ensures atom == TrunOf(data)
  {
    hide Num, Flag, U32;
    var rd := new Reader(data);
    var _ := rd.ReadByte();
    var flags := rd.ReadUint24();
    var samples := rd.ReadUint32();
    var offset := ReadField(rd, flags, 0x1);
    var first := ReadField(rd, flags, 0x4);
    atom := Trun(if offset == [] then 0 else offset[0], if first == [] then 0 else first[0], [], [], [], []);
    atom := DecodeSamples(rd, flags, samples, atom);
  }

  // The loop over the samples.
  method DecodeSamples(rd: Reader, flags: nat, samples: nat, run: Atom) returns (atom: Atom)
    requires rd.Valid() && run.Trun?
    modifies rd
    ensures rd.Valid() && atom == TrunSamples(rd.buf, flags, old(rd.at), samples, run)
  {
    hide Past, Field, AddSample, SampleEnd, TrunSamples;
    atom := run;
    var i := 0;
    while i < samples
      invariant i <= samples && rd.Valid() && atom.Trun?
      invariant TrunSamples(rd.buf, flags, rd.at, samples - i, atom) == TrunSamples(rd.buf, flags, old(rd.at), samples, run)
    {
      NextSample(rd.buf, flags, rd.at, samples - i, atom);
      atom := DecodeSample(rd, flags, atom);
      i := i + 1;
    }
    NoMoreSamples(rd.buf, flags, rd.at, atom);
  }

  lemma NextSample(data: Data, flags: nat, at: nat, n: nat, run: Atom)
    requires run.Trun? && n > 0
    ensures TrunSamples(data, flags, at, n, run) == TrunSamples(data, flags, SampleEnd(flags, at), n - 1, AddSample(data, flags, at, run))
  {
  }

  lemma NoMoreSamples(data: Data, flags: nat, at: nat, run: Atom)
    requires run.Trun?
    ensures TrunSamples(data, flags, at, 0, run) == run
  {
  }

  // The body of the loop over the samples.
  method DecodeSample(rd: Reader, flags: nat, run: Atom) returns (atom: Atom)
    requires rd.Valid() && run.Trun?
    modifies rd
    ensures rd.Valid() && atom == AddSample(rd.buf, flags, old(rd.at), run) && rd.at == SampleEnd(flags, old(rd.at))
  {
    hide Past, Field;
    var duration := ReadField(rd, flags, 0x100);
    var size := ReadField(rd, flags, 0x200);
    var sampleFlags := ReadField(rd, flags, 0x400);
    var cts := ReadField(rd, flags, 0x800);
    atom := run.(durations := run.durations + duration, sizes := run.sizes + size,
                 flags := run.flags + sampleFlags, cts := run.cts + cts);
  }

  // if flags & bit != 0 { ... rd.ReadUint32() }
  method ReadField(rd: Reader, flags: nat, bit: nat) returns (field: seq<uint32>)
    requires rd.Valid() && bit > 0
    modifies rd
    ensures rd.Valid() && field == Field(rd.buf, flags, bit, old(rd.at)) && rd.at == Past(flags, bit, old(rd.at))
  {
    hide Num, Flag;
    field := [];
    if Flag(flags, bit) {
      var v := rd.ReadUint32();
      field := [v];
    }
  }

  method DecodeAtoms(b: Data) returns (r: Decoded)
    ensures r == DecodeAll(b)
    decreases |b|, 1
  {
    hide Get32, Decode;
    var atoms: seq<Atom> := [];
    var rest := b;
    while |rest| > 0
      invariant |rest| <= |b| && DecodeAll(b) == Prepend(atoms, DecodeAll(rest))
      decreases |rest|
    {
      var atom := DecodeAtom(rest);
      if atom.Eof? || atom.Panic? {
        return atom;
      }
      SizeOfDecoded(rest);
      ghost var done := atoms;
      if atom.Atoms? {
        atoms := atoms + atom.atoms;
      } else {
        atoms := atoms + [atom.atom];
      }
      PrependTwice(done, Splice(atom), DecodeAll(rest[Get32(rest)..]));
      rest := rest[Get32(rest)..];
    }
    assert atoms + [] == atoms;
    return Atoms(atoms);
  }

  lemma SizeOfDecoded(b: Data)
    requires Decode(b).Atoms? || Decode(b).One?
    ensures |b| >= 4 && 8 <= Get32(b) <= |b|
  {
  }

  lemma PrependTwice(a: seq<Atom>, b: seq<Atom>, d: Decoded)
    ensures Prepend(a, Prepend(b, d)) == Prepend(a + b, d)
  {
    if d.Atoms? {
      assert a + (b + d.atoms) == a + b + d.atoms;
    }
  }

  // ---- Decoding what was serialised -------------------------------------------------

  // A box with a name of four characters: a container of such boxes, or a
  // leaf with raw data.
  predicate Proper(box: Box) {
    match box
    case Raw(_) => false
    case Node(name, kids) =>
      && |name| == 4
      && |BoxSerial(box)| < 0x1_0000_0000
      && if Container(Get32(name)) then AllProper(kids) else |kids| == 1 && kids[0].Raw?
  }

  predicate AllProper(boxes: seq<Box>) {
    forall i :: 0 <= i < |boxes| ==> Proper(boxes[i])
  }

  // What the decoder makes of a tree of boxes: containers disappear and the
  // leaves follow each other in order, up to the first that does not decode.
  function Flat(boxes: seq<Box>): Decoded
    requires AllProper(boxes)
  {
    if boxes == [] then Atoms([])
    else
      var first := FlatBox(boxes[0]);
      if first.Eof? || first.Panic? then first else Prepend(Splice(first), Flat(boxes[1..]))
  }

  function FlatBox(box: Box): Decoded
    requires Proper(box)
  {
    if Container(Get32(box.name)) then Flat(box.kids) else DecodeBox(Get32(box.name), box.kids[0].data)
  }

  // Decoding inverts serialising, for every tree of boxes.
  lemma {:induction false} DecodeInvertsSerial(boxes: seq<Box>)
    requires AllProper(boxes)
    ensures DecodeAll(Serial(boxes)) == Flat(boxes)
    decreases boxes, 1
  {
    if boxes != [] {
      var box, rest := boxes[0], Serial(boxes[1..]);
      assert Proper(box);
      DecodeInvertsBox(box, rest);
      assert AllProper(boxes[1..]) by { assert forall i :: 0 <= i < |boxes[1..]| ==> boxes[1..][i] == boxes[i + 1]; }
      DecodeInvertsSerial(boxes[1..]);
      hide Decode, Proper, BoxSerial, FlatBox, Get32;
      var b := BoxSerial(box) + rest;
      assert b != [] && b[|BoxSerial(box)|..] == rest;
    }
  }

  lemma {:induction false} DecodeInvertsBox(box: Box, rest: Data)
    requires Proper(box)
    ensures var b := BoxSerial(box) + rest;
            |b| >= 8 && Get32(b) == |BoxSerial(box)| && Decode(b) == FlatBox(box)
    decreases box, 0
  {
    var inner := Serial(box.kids);
    HeadOfBox(box.name, inner, rest);
    if Container(Get32(box.name)) {
      DecodeInvertsSerial(box.kids);
    } else {
      SerialOfRaw(box.kids);
    }
    hide Get32, DecodeBox, Serial, Sized;
  }

  lemma SerialOfRaw(kids: seq<Box>)
    requires |kids| == 1 && kids[0].Raw?
    ensures Serial(kids) == kids[0].data
  {
    assert kids[1..] == [] && Serial([]) == [];
    assert kids[0].data + [] == kids[0].data;
  }

  lemma HeadOfBox(name: Data, inner: Data, rest: Data)
    requires |name| == 4 && |Sized(name, inner)| < 0x1_0000_0000
    ensures var b, size := Sized(name, inner) + rest, |Sized(name, inner)|;
            Get32(b) == size && Get32(b[4..]) == Get32(name) && b[8..size] == inner
  {
    var size := |Sized(name, inner)|;
    var b := Sized(name, inner) + rest;
    assert b == Put32(size) + (name + inner + rest);
    Get32Put32(size, name + inner + rest);
    hide Put32;
    assert b[4..] == name + (inner + rest);
    assert b[8..size] == inner;
  }
}
