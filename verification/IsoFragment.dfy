// pkg/iso/atoms.go: WriteMovieFragment and WriteData, and what the reader
// makes of them.

module IsoFragment {
  import opened Bytes
  import opened Bits
  import opened Iso
  import opened IsoReader

  // ---- The boxes ------------------------------------------------------------------

  function Leaf(name: uint32, data: Data): Box {
    Node(Put32(name), [Raw(data)])
  }

  function MfhdData(sequence: uint32): (d: Data)
    ensures |d| == 8
  {
    [0, 0, 0, 0] + Put32(sequence)
  }

  // Default duration, size and flags are present; the base is the moof.
  function TfhdData(track: uint32, duration: uint32, size: uint32, flags: uint32): (d: Data)
    ensures |d| == 20
  {
    [0, 0x02, 0x00, 0x38] + Put32(track) + Put32(duration) + Put32(size) + Put32(flags)
  }

  function TfdtData(dts: uint64): (d: Data)
    ensures |d| == 12
  {
    [1, 0, 0, 0] + Put64(dts)
  }

  // One sample; the data offset counts from the start of the buffer.
  function TrunData(offset: uint32, cts: uint32): (d: Data)
    ensures |d| == if cts == 0 then 12 else 16
  {
    if cts == 0 then [0, 0, 0x00, 0x01] + Put32(1) + Put32(offset)
    else [0, 0, 0x08, 0x01] + Put32(1) + Put32(offset) + Put32(cts)
  }

  // The offset written at position `at` of the buffer: what remains of the
  // run, and the header of the data box.
  function DataOffset(at: nat, cts: uint32): uint32 {
    (at + (if cts == 0 then 12 else 16)) % 0x1_0000_0000
  }

  // What the run adds before its offset, counted from the start of the moof.
  const OffsetField := 96

  function Fragment(at: nat, sequence: uint32, track: uint32, duration: uint32, size: uint32, flags: uint32,
                    dts: uint64, cts: uint32): Box
  {
    Node(Put32(MOOF), [
      Leaf(MFHD, MfhdData(sequence)),
      Node(Put32(TRAF), [
        Leaf(TFHD, TfhdData(track, duration, size, flags)),
        Leaf(TFDT, TfdtData(dts)),
        Leaf(TRUN, TrunData(DataOffset(at + OffsetField, cts), cts))])])
  }

  lemma LeafSerial(name: uint32, data: Data)
    ensures BoxSerial(Leaf(name, data)) == Sized(Put32(name), data)
  {
    hide Put32, Sized;
    SerialOfRaw([Raw(data)]);
  }

  // ---- The writers --------------------------------------------------------------------

  method WriteLeaf(m: Movie, name: uint32, data: Data)
    requires Valid(m.Current())
    modifies m
    ensures Valid(m.Current())
    ensures m.b == old(m.b) + Sized(Put32(name), data) && m.start == old(m.start)
  {
    hide Put32, Sized, PutAt;
    m.StartAtom(Put32(name));
    m.WriteBytes(data);
    EndPatches(old(m.b), old(m.start), Put32(name), data);
    m.EndAtom();
  }

  method WriteTrun(m: Movie, cts: uint32)
    requires Valid(m.Current())
    modifies m
    ensures Valid(m.Current()) && m.start == old(m.start)
    ensures m.b == old(m.b) + Sized(Put32(TRUN), TrunData(DataOffset(|old(m.b)| + 16, cts), cts))
  {
    hide Put32, Sized, PutAt;
    m.StartAtom(Put32(TRUN));
    m.WriteBytes([0]);
    if cts == 0 {
      m.WriteBytes([0, 0x00, 0x01]);
      m.WriteBytes(Put32(1));
      m.WriteBytes(Put32((|m.b| + 4 + 8) % 0x1_0000_0000));
    } else {
      m.WriteBytes([0, 0x08, 0x01]);
      m.WriteBytes(Put32(1));
      m.WriteBytes(Put32((|m.b| + 4 + 4 + 8) % 0x1_0000_0000));
      m.WriteBytes(Put32(cts));
    }
    ghost var data := TrunData(DataOffset(|old(m.b)| + 16, cts), cts);
    assert m.b == old(m.b) + [0, 0, 0, 0] + Put32(TRUN) + data;
    EndPatches(old(m.b), old(m.start), Put32(TRUN), data);
    m.EndAtom();
  }

  function TrafInner(at: nat, track: uint32, duration: uint32, size: uint32, flags: uint32, dts: uint64, cts: uint32): Data {
    Sized(Put32(TFHD), TfhdData(track, duration, size, flags)) + Sized(Put32(TFDT), TfdtData(dts))
    + Sized(Put32(TRUN), TrunData(DataOffset(at + OffsetField, cts), cts))
  }

  method WriteTraf(m: Movie, track: uint32, duration: uint32, size: uint32, flags: uint32, dts: uint64, cts: uint32)
    requires Valid(m.Current()) && |m.b| >= 24
    modifies m
    ensures Valid(m.Current()) && m.start == old(m.start)
    ensures m.b == old(m.b) + Sized(Put32(TRAF), TrafInner(|old(m.b)| - 24, track, duration, size, flags, dts, cts))
  {
    hide Put32, Put64, Sized, PutAt, TfhdData, TfdtData, TrunData, DataOffset;
    m.StartAtom(Put32(TRAF));
    WriteLeaf(m, TFHD, TfhdData(track, duration, size, flags));
    WriteLeaf(m, TFDT, TfdtData(dts));
    WriteTrun(m, cts);
    ghost var inner := TrafInner(|old(m.b)| - 24, track, duration, size, flags, dts, cts);
    assert m.b == old(m.b) + [0, 0, 0, 0] + Put32(TRAF) + inner;
    EndPatches(old(m.b), old(m.start), Put32(TRAF), inner);
    m.EndAtom();
  }

  method WriteMovieFragment(m: Movie, sequence: uint32, track: uint32, duration: uint32, size: uint32, flags: uint32,
                            dts: uint64, cts: uint32)
    requires Valid(m.Current())
    modifies m
    ensures Valid(m.Current()) && m.start == old(m.start)
    ensures m.b == old(m.b) + BoxSerial(Fragment(|old(m.b)|, sequence, track, duration, size, flags, dts, cts))
  {
    hide Put32, Sized, PutAt, MfhdData, TrafInner;
    ghost var at := |m.b|;
    m.StartAtom(Put32(MOOF));
    WriteLeaf(m, MFHD, MfhdData(sequence));
    WriteTraf(m, track, duration, size, flags, dts, cts);
    ghost var inner := Sized(Put32(MFHD), MfhdData(sequence))
      + Sized(Put32(TRAF), TrafInner(at, track, duration, size, flags, dts, cts));
    assert m.b == old(m.b) + [0, 0, 0, 0] + Put32(MOOF) + inner;
    EndPatches(old(m.b), old(m.start), Put32(MOOF), inner);
    m.EndAtom();
    FragmentSerial(at, sequence, track, duration, size, flags, dts, cts);
  }

  lemma FragmentSerial(at: nat, sequence: uint32, track: uint32, duration: uint32, size: uint32, flags: uint32,
                       dts: uint64, cts: uint32)
    ensures BoxSerial(Fragment(at, sequence, track, duration, size, flags, dts, cts)) ==
            Sized(Put32(MOOF), Sized(Put32(MFHD), MfhdData(sequence))
                               + Sized(Put32(TRAF), TrafInner(at, track, duration, size, flags, dts, cts)))
  {
    var mfhd, tfhd, tfdt := Leaf(MFHD, MfhdData(sequence)), Leaf(TFHD, TfhdData(track, duration, size, flags)), Leaf(TFDT, TfdtData(dts));
    var trun := Leaf(TRUN, TrunData(DataOffset(at + OffsetField, cts), cts));
    LeafSerial(MFHD, MfhdData(sequence));
    LeafSerial(TFHD, TfhdData(track, duration, size, flags));
    LeafSerial(TFDT, TfdtData(dts));
    LeafSerial(TRUN, TrunData(DataOffset(at + OffsetField, cts), cts));
    var traf := Node(Put32(TRAF), [tfhd, tfdt, trun]);
    SerialOfThree(tfhd, tfdt, trun);
    SerialOfTwo(mfhd, traf);
    hide Put32, Sized, MfhdData, TfhdData, TfdtData, TrunData, DataOffset, Leaf, Serial;
    assert BoxSerial(traf) == Sized(Put32(TRAF), Serial([tfhd, tfdt, trun]));
    assert BoxSerial(Node(Put32(MOOF), [mfhd, traf])) == Sized(Put32(MOOF), Serial([mfhd, traf]));
  }

  lemma SerialOfTwo(a: Box, b: Box)
    ensures Serial([a, b]) == BoxSerial(a) + BoxSerial(b)
  {
    hide BoxSerial;
    assert [a, b][1..] == [b] && [b][1..] == [];
    assert Serial([b]) == BoxSerial(b) + Serial([]);
    assert BoxSerial(b) + [] == BoxSerial(b);
  }

  lemma SerialOfThree(a: Box, b: Box, c: Box)
    ensures Serial([a, b, c]) == BoxSerial(a) + BoxSerial(b) + BoxSerial(c)
  {
    hide BoxSerial;
    assert [a, b, c][1..] == [b, c];
    SerialOfTwo(b, c);
    assert BoxSerial(a) + (BoxSerial(b) + BoxSerial(c)) == BoxSerial(a) + BoxSerial(b) + BoxSerial(c);
  }

  method WriteData(m: Movie, data: Data)
    requires Valid(m.Current())
    modifies m
    ensures Valid(m.Current()) && m.start == old(m.start)
    ensures m.b == old(m.b) + BoxSerial(Leaf(MDAT, data))
  {
    hide Put32, Sized, PutAt;
    LeafSerial(MDAT, data);
    m.StartAtom(Put32(MDAT));
    m.WriteBytes(data);
    EndPatches(old(m.b), old(m.start), Put32(MDAT), data);
    m.EndAtom();
  }

  // ---- Round trip ------------------------------------------------------------------------

  // What is read back from one fragment.
  function FragmentAtoms(sequence: uint32, track: uint32, duration: uint32, size: uint32, flags: uint32,
                         dts: uint64, cts: uint32, data: Data): seq<Atom>
  {
    [Mfhd(sequence), Tfhd(track, duration, size, flags), Tfdt(dts),
     Trun(if cts == 0 then 108 else 112, 0, [], [], [], if cts == 0 then [] else [cts]), Mdat(data)]
  }

  lemma MfhdDecodes(sequence: uint32)
    ensures DecodeBox(MFHD, MfhdData(sequence)) == One(Mfhd(sequence))
  {
    Get32Put32(sequence, []);
    hide Put32, Get32;
    assert MfhdData(sequence)[4..] == Put32(sequence) + [];
  }

  lemma TfdtDecodes(dts: uint64)
    ensures DecodeBox(TFDT, TfdtData(dts)) == One(Tfdt(dts))
  {
    Get64Put64(dts, []);
    hide Put64, Get64;
    assert TfdtData(dts)[4..] == Put64(dts) + [];
  }

  // A 32-bit field at a byte boundary.
  lemma FieldAt(data: Data, i: nat, v: uint32, before: Data, rest: Data)
    requires |before| == i && data == before + Put32(v) + rest
    ensures U32(data, 8 * i) == v
  {
    hide Num, Get32, Put32;
    NumGet32(data, i);
    assert data[i..] == Put32(v) + rest;
    Get32Put32(v, rest);
  }

  // The flags after the version byte.
  lemma FlagsAt(data: Data)
    requires |data| >= 4
    ensures Num(data, 8, 24) == (data[1] as int) * 0x1_0000 + (data[2] as int) * 0x100 + data[3]
  {
    Pow2Values();
    NumSplit(data, 8, 16, 8);
    NumSplit(data, 8, 8, 8);
    NumByte(data, 1);
    NumByte(data, 2);
    NumByte(data, 3);
  }

  lemma TfhdDecodes(track: uint32, duration: uint32, size: uint32, flags: uint32)
    ensures DecodeBox(TFHD, TfhdData(track, duration, size, flags)) == One(Tfhd(track, duration, size, flags))
  {
    hide Put32, Num, U32, Flag;
    var d, head: Data := TfhdData(track, duration, size, flags), [0, 0x02, 0x00, 0x38];
    assert DecodeBox(TFHD, d) == One(TfhdOf(d)) by { BoxIsTfhd(d); }
    hide DecodeBox;
    assert Num(d, 8, 24) == 0x020038 by { FlagsAt(d); }
    AllFlags();
    FieldAt(d, 4, track, head, Put32(duration) + Put32(size) + Put32(flags));
    FieldAt(d, 8, duration, head + Put32(track), Put32(size) + Put32(flags));
    FieldAt(d, 12, size, head + Put32(track) + Put32(duration), Put32(flags));
    FieldAt(d, 16, flags, head + Put32(track) + Put32(duration) + Put32(size), []);
  }

  lemma BoxIsTfhd(d: Data)
    ensures DecodeBox(TFHD, d) == One(TfhdOf(d))
  {
    hide TfhdOf;
  }

  lemma AllFlags()
    ensures Flag(0x020038, 0x8) && Flag(0x020038, 0x10) && Flag(0x020038, 0x20)
  {
  }

  lemma TrunDecodes(offset: uint32, cts: uint32)
    ensures DecodeBox(TRUN, TrunData(offset, cts)) == One(Trun(offset, 0, [], [], [], if cts == 0 then [] else [cts]))
  {
    var d: Data := TrunData(offset, cts);
    if cts == 0 {
      OneSample(d, 0x001, offset, cts);
    } else {
      OneSample(d, 0x801, offset, cts);
    }
  }

  lemma OneSample(d: Data, kind: nat, offset: uint32, cts: uint32)
    requires d == TrunData(offset, cts) && kind == if cts == 0 then 0x001 else 0x801
    ensures TrunOf(d) == Trun(offset, 0, [], [], [], if cts == 0 then [] else [cts])
  {
    hide Put32, Num, U32;
    var head: Data := if cts == 0 then [0, 0, 0, 1] else [0, 0, 8, 1];
    FlagsAt(d);
    FieldAt(d, 4, 1, head, d[8..]);
    FieldAt(d, 8, offset, head + Put32(1), d[12..]);
    if cts != 0 {
      FieldAt(d, 12, cts, head + Put32(1) + Put32(offset), []);
    }
    assert Num(d, 32, 32) == 1 by { SampleCount(d); }
    var start := Trun(offset, 0, [], [], [], []);
    assert TrunSamples(d, kind, 96, 0, AddSample(d, kind, 96, start)) == AddSample(d, kind, 96, start);
  }

  lemma SampleCount(d: Data)
    ensures U32(d, 32) == Num(d, 32, 32)
  {
  }

  lemma NameOf(name: uint32)
    ensures Get32(Put32(name)) == name
  {
    Get32Put32(name, []);
    assert Put32(name) + [] == Put32(name);
  }

  lemma LeafProper(name: uint32, data: Data)
    requires !Container(name) && 8 + |data| < 0x1_0000_0000
    ensures Proper(Leaf(name, data)) && FlatBox(Leaf(name, data)) == DecodeBox(name, data)
  {
    NameOf(name);
    LeafSerial(name, data);
    hide Put32, Get32, DecodeBox;
  }

  // A container with two or three boxes that decode to one atom each.
  lemma FlatOfOne(box: Box, rest: seq<Box>, atom: Atom)
    requires Proper(box) && AllProper([box] + rest) && FlatBox(box) == One(atom)
    ensures AllProper(rest) && Flat([box] + rest) == Prepend([atom], Flat(rest))
  {
    var boxes := [box] + rest;
    assert boxes[1..] == rest;
    assert forall i :: 0 <= i < |rest| ==> rest[i] == boxes[i + 1];
    hide Proper;
  }

  lemma TrafDecodes(at: nat, track: uint32, duration: uint32, size: uint32, flags: uint32, dts: uint64, cts: uint32, offset: uint32)
    requires offset == DataOffset(at + OffsetField, cts)
    ensures var traf := Node(Put32(TRAF), [Leaf(TFHD, TfhdData(track, duration, size, flags)), Leaf(TFDT, TfdtData(dts)),
                                           Leaf(TRUN, TrunData(offset, cts))]);
            && Proper(traf)
            && |BoxSerial(traf)| == (if cts == 0 then 76 else 80)
            && FlatBox(traf) == Atoms([Tfhd(track, duration, size, flags), Tfdt(dts),
                                       Trun(offset, 0, [], [], [], if cts == 0 then [] else [cts])])
  {
    var tfhd, tfdt, trun := Leaf(TFHD, TfhdData(track, duration, size, flags)), Leaf(TFDT, TfdtData(dts)), Leaf(TRUN, TrunData(offset, cts));
    LeafProper(TFHD, TfhdData(track, duration, size, flags));
    LeafProper(TFDT, TfdtData(dts));
    LeafProper(TRUN, TrunData(offset, cts));
    TfhdDecodes(track, duration, size, flags);
    TfdtDecodes(dts);
    TrunDecodes(offset, cts);
    LeafSerial(TFHD, TfhdData(track, duration, size, flags));
    LeafSerial(TFDT, TfdtData(dts));
    LeafSerial(TRUN, TrunData(offset, cts));
    SerialOfThree(tfhd, tfdt, trun);
    NameOf(TRAF);
    hide Put32, Get32, Sized, TfhdData, TfdtData, TrunData, Leaf, DecodeBox, Serial, FlatBox, Flat;
    var kids := [tfhd, tfdt, trun];
    var traf := Node(Put32(TRAF), kids);
    assert |BoxSerial(traf)| == (if cts == 0 then 76 else 80);
    assert Proper(traf);
    FlatOfThree(tfhd, tfdt, trun, Tfhd(track, duration, size, flags), Tfdt(dts),
                Trun(offset, 0, [], [], [], if cts == 0 then [] else [cts]));
    assert FlatBox(traf) == Flat(kids) by { FlatOfContainer(traf); }
  }

  lemma FlatOfContainer(box: Box)
    requires Proper(box) && Container(Get32(box.name))
    ensures AllProper(box.kids) && FlatBox(box) == Flat(box.kids)
  {
  }

  lemma FlatOfThree(a: Box, b: Box, c: Box, x: Atom, y: Atom, z: Atom)
    requires Proper(a) && Proper(b) && Proper(c)
    requires FlatBox(a) == One(x) && FlatBox(b) == One(y) && FlatBox(c) == One(z)
    ensures Flat([a, b, c]) == Atoms([x, y, z])
  {
    hide Proper, FlatBox, Flat;
    assert [a] + [b, c] == [a, b, c] && [b] + [c] == [b, c] && [c] + [] == [c];
    FlatOfOne(a, [b, c], x);
    FlatOfOne(b, [c], y);
    FlatOfOne(c, [], z);
    FlatOfNone();
    assert [x] + ([y] + ([z] + [])) == [x, y, z];
  }

  lemma FlatOfNone()
    ensures Flat([]) == Atoms([])
  {
  }

  lemma MoofDecodes(at: nat, sequence: uint32, track: uint32, duration: uint32, size: uint32, flags: uint32,
                    dts: uint64, cts: uint32, offset: uint32)
    requires offset == DataOffset(at + OffsetField, cts)
    ensures var moof := Fragment(at, sequence, track, duration, size, flags, dts, cts);
            && Proper(moof)
            && |BoxSerial(moof)| == (if cts == 0 then 100 else 104)
            && FlatBox(moof) == Atoms([Mfhd(sequence), Tfhd(track, duration, size, flags), Tfdt(dts),
                                       Trun(offset, 0, [], [], [], if cts == 0 then [] else [cts])])
  {
    var mfhd := Leaf(MFHD, MfhdData(sequence));
    var traf := Node(Put32(TRAF), [Leaf(TFHD, TfhdData(track, duration, size, flags)), Leaf(TFDT, TfdtData(dts)),
                                   Leaf(TRUN, TrunData(offset, cts))]);
    LeafProper(MFHD, MfhdData(sequence));
    MfhdDecodes(sequence);
    LeafSerial(MFHD, MfhdData(sequence));
    TrafDecodes(at, track, duration, size, flags, dts, cts, offset);
    SerialOfTwo(mfhd, traf);
    NameOf(MOOF);
    var moof := Fragment(at, sequence, track, duration, size, flags, dts, cts);
    assert moof == Node(Put32(MOOF), [mfhd, traf]);
    hide Put32, Get32, Sized, MfhdData, TfhdData, TfdtData, TrunData, Leaf, DecodeBox, Serial, FlatBox, Flat, Fragment, DataOffset;
    assert |BoxSerial(moof)| == (if cts == 0 then 100 else 104);
    assert Proper(mfhd) && Proper(traf) && Proper(moof);
    FlatOfContainer(moof);
    var trun := Trun(offset, 0, [], [], [], if cts == 0 then [] else [cts]);
    FlatOfTwo(mfhd, traf, Mfhd(sequence), [Tfhd(track, duration, size, flags), Tfdt(dts), trun]);
    assert [Mfhd(sequence)] + [Tfhd(track, duration, size, flags), Tfdt(dts), trun] ==
           [Mfhd(sequence), Tfhd(track, duration, size, flags), Tfdt(dts), trun];
  }

  lemma FlatOfTwo(a: Box, b: Box, x: Atom, ys: seq<Atom>)
    requires Proper(a) && Proper(b) && FlatBox(a) == One(x) && FlatBox(b) == Atoms(ys)
    ensures Flat([a, b]) == Atoms([x] + ys)
  {
    hide Proper, FlatBox;
    assert [a] + [b] == [a, b] && [b][1..] == [] && [b][0] == b;
    FlatOfOne(a, [b], x);
    FlatOfNone();
    assert AllProper([b]) && Flat([b]) == Prepend(ys, Atoms([]));
    assert ys + [] == ys;
  }

  // A fragment and its data on an empty buffer: the reader returns what was
  // written, and the data offset of the run is the position of the data.
  lemma FragmentRoundTrip(sequence: uint32, track: uint32, duration: uint32, size: uint32, flags: uint32,
                          dts: uint64, cts: uint32, data: Data)
    requires 8 + |data| < 0x1_0000_0000
    ensures var b := BoxSerial(Fragment(0, sequence, track, duration, size, flags, dts, cts)) + BoxSerial(Leaf(MDAT, data));
            var offset := if cts == 0 then 108 else 112;
            && DecodeAll(b) == Atoms(FragmentAtoms(sequence, track, duration, size, flags, dts, cts, data))
            && offset + |data| == |b| && b[offset..] == data
  {
    var moof, mdat := Fragment(0, sequence, track, duration, size, flags, dts, cts), Leaf(MDAT, data);
    var offset := if cts == 0 then 108 else 112;
    assert DataOffset(0 + OffsetField, cts) == offset;
    MoofDecodes(0, sequence, track, duration, size, flags, dts, cts, offset);
    LeafProper(MDAT, data);
    LeafSerial(MDAT, data);
    assert FlatBox(mdat) == One(Mdat(data));
    SerialOfTwo(moof, mdat);
    hide Put32, Get32, BoxSerial, Leaf, DecodeBox, Serial, FlatBox, Flat, Fragment, DataOffset, DecodeAll;
    var trun := Trun(offset, 0, [], [], [], if cts == 0 then [] else [cts]);
    MoofThenMdat(moof, mdat, [Mfhd(sequence), Tfhd(track, duration, size, flags), Tfdt(dts), trun], Mdat(data));
    assert AllProper([moof, mdat]);
    DecodeInvertsSerial([moof, mdat]);
    assert [Mfhd(sequence), Tfhd(track, duration, size, flags), Tfdt(dts), trun] + [Mdat(data)] ==
           FragmentAtoms(sequence, track, duration, size, flags, dts, cts, data);
    DataAtEnd(BoxSerial(moof), BoxSerial(mdat), data);
  }

  lemma DataAtEnd(a: Data, b: Data, data: Data)
    requires |b| == 8 + |data| && b[8..] == data
    ensures |a + b| == |a| + 8 + |data| && (a + b)[|a| + 8..] == data
  {
  }

  lemma MoofThenMdat(a: Box, b: Box, xs: seq<Atom>, y: Atom)
    requires Proper(a) && Proper(b) && FlatBox(a) == Atoms(xs) && FlatBox(b) == One(y)
    ensures Flat([a, b]) == Atoms(xs + [y])
  {
    hide Proper, FlatBox;
    assert [a, b][1..] == [b] && [b] + [] == [b];
    assert AllProper([a, b]) && AllProper([b] + []);
    FlatOfOne(b, [], y);
    FlatOfNone();
    assert [y] + [] == [y];
  }
}
