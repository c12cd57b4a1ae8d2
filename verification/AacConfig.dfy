// pkg/aac/aac.go: writing an audio config, and reading it back.

module AacConfig {
  import opened Bytes
  import opened Bits
  import opened Aac

  const LowDelay: byte := 23
  const EnhancedLowDelay: byte := 39
  const Escape: byte := 31

  // ---- Fields -------------------------------------------------------------------------

  datatype Field = Field(value: nat, width: nat)

  // The low n bits of v.
  function Entry(v: nat, n: nat): (f: Field)
    ensures f.value < Pow2(f.width)
  {
    Field(Low(v, n), n)
  }

  function Width(fields: seq<Field>): nat {
    if fields == [] then 0 else Width(fields[..|fields| - 1]) + fields[|fields| - 1].width
  }

  function Value(fields: seq<Field>): nat {
    if fields == [] then 0
    else Value(fields[..|fields| - 1]) * Pow2(fields[|fields| - 1].width) + fields[|fields| - 1].value
  }

  predicate Fits(fields: seq<Field>) {
    forall i :: 0 <= i < |fields| ==> fields[i].value < Pow2(fields[i].width)
  }

  // The data starts with the fields.
  predicate StartsWith(data: Data, fields: seq<Field>) {
    Num(data, 0, Width(fields)) == Value(fields)
  }

  lemma Snoc(fields: seq<Field>, f: Field)
    ensures Width(fields + [f]) == Width(fields) + f.width && Value(fields + [f]) == Value(fields) * Pow2(f.width) + f.value
  {
    hide Pow2;
    assert (fields + [f])[..|fields|] == fields;
  }

  // The last field reads back, and what is before it.
  lemma LastReads(data: Data, fields: seq<Field>, f: Field)
    requires StartsWith(data, fields + [f]) && f.value < Pow2(f.width)
    ensures StartsWith(data, fields) && Num(data, Width(fields), f.width) == f.value
  {
    hide Num, Pow2, Value, Width;
    Snoc(fields, f);
    NumSplit(data, 0, Width(fields), f.width);
    Unique(Num(data, 0, Width(fields)), Num(data, Width(fields), f.width), Value(fields), f.value, Pow2(f.width));
  }

  lemma {:induction false} FrontReads(data: Data, front: seq<Field>, tail: seq<Field>)
    requires StartsWith(data, front + tail) && Fits(tail)
    ensures StartsWith(data, front)
    decreases |tail|
  {
    hide StartsWith, Pow2;
    if tail == [] {
      assert front + tail == front;
    } else {
      var n := |tail| - 1;
      assert front + tail == (front + tail[..n]) + [tail[n]];
      LastReads(data, front + tail[..n], tail[n]);
      FrontReads(data, front, tail[..n]);
    }
  }

  // ---- The config ---------------------------------------------------------------------

  function IndexOf(rates: seq<uint32>, rate: uint32): (i: nat)
    ensures i <= |rates| && (i < |rates| ==> rates[i] == rate) && forall k :: 0 <= k < i ==> rates[k] != rate
  {
    if rates == [] || rates[0] == rate then 0 else 1 + IndexOf(rates[1..], rate)
  }

  // Types from 31 on have an escape; the subtraction is that of a byte.
  function TypeFields(objType: byte): seq<Field> {
    if objType < Escape then [Entry(objType, 5)] else [Entry(Escape, 5), Entry((objType as int - 32) % 0x100, 6)]
  }

  function RateFields(rate: uint32): seq<Field> {
    var i := IndexOf(SampleRates(), rate);
    if i < 16 then [Entry(i, 4)] else [Entry(15, 4), Entry(rate, 24)]
  }

  function TailFields(objType: byte, shortFrame: bool): seq<Field> {
    var frame := Entry(if shortFrame then 1 else 0, 1);
    if objType == LowDelay then [frame, Entry(0, 1), Entry(0, 1), Entry(0, 2)]
    else if objType == EnhancedLowDelay then [frame, Entry(0, 3), Entry(0, 1), Entry(0, 4), Entry(0, 2)]
    else []
  }

  function ConfigFields(objType: byte, rate: uint32, channels: byte, shortFrame: bool): seq<Field> {
    TypeFields(objType) + RateFields(rate) + [Entry(channels, 4)] + TailFields(objType, shortFrame)
  }

  ghost predicate Wrote(wr: Writer, fields: seq<Field>)
    reads wr
  {
    wr.Valid() && wr.value == Value(fields) && wr.count == Width(fields)
  }

  // One field after those already written; a single bit is a field of one bit.
  method Put(wr: Writer, v: uint32, n: byte, ghost done: seq<Field>)
    requires Wrote(wr, done) && n <= 32
    modifies wr
    ensures Wrote(wr, done + [Entry(v, n)])
  {
    hide Pow2, Low, Value, Width;
    Snoc(done, Entry(v, n));
    wr.WriteBits(v, n);
  }

  // The loop over the table of rates.
  method FindRate(rates: seq<uint32>, rate: uint32) returns (i: nat)
    ensures i == IndexOf(rates, rate)
  {
    i := 0;
    while i < |rates|
      invariant i <= |rates| && forall k :: 0 <= k < i ==> rates[k] != rate
    {
      if rates[i] == rate {
        return;
      }
      i := i + 1;
    }
  }

  method PutRate(wr: Writer, rate: uint32, ghost done: seq<Field>)
    requires Wrote(wr, done)
    modifies wr
    ensures Wrote(wr, done + RateFields(rate))
  {
    hide Wrote, Entry, IndexOf;
    var i := FindRate(SampleRates(), rate);
    if i < 16 {
      Put(wr, i, 4, done);
    } else {
      Put(wr, 15, 4, done);
      Put(wr, rate, 24, done + [Entry(15, 4)]);
      assert done + [Entry(15, 4)] + [Entry(rate, 24)] == done + [Entry(15, 4), Entry(rate, 24)];
    }
  }

  method PutTail(wr: Writer, objType: byte, shortFrame: bool, ghost done: seq<Field>)
    requires Wrote(wr, done)
    modifies wr
    ensures Wrote(wr, done + TailFields(objType, shortFrame))
  {
    hide Wrote, Entry;
    var frame := if shortFrame then 1 else 0;
    ghost var a, b := done + [Entry(frame, 1)], if objType == LowDelay then Entry(0, 1) else Entry(0, 3);
    ghost var c, d := Entry(0, 1), Entry(0, 4);
    if objType == LowDelay {
      Put(wr, frame, 1, done);
      Put(wr, 0, 1, a);
      Put(wr, 0, 1, a + [b]);
      Put(wr, 0, 2, a + [b] + [c]);
      assert a + [b] + [c] + [Entry(0, 2)] == done + [Entry(frame, 1), b, c, Entry(0, 2)];
    } else if objType == EnhancedLowDelay {
      Put(wr, frame, 1, done);
      Put(wr, 0, 3, a);
      Put(wr, 0, 1, a + [b]);
      Put(wr, 0, 4, a + [b] + [c]);
      Put(wr, 0, 2, a + [b] + [c] + [d]);
      assert a + [b] + [c] + [d] + [Entry(0, 2)] == done + [Entry(frame, 1), b, c, d, Entry(0, 2)];
    } else {
      assert done + [] == done;
    }
  }

  method EncodeConfig(objType: byte, rate: uint32, channels: byte, shortFrame: bool) returns (conf: Data)
    ensures StartsWith(conf, ConfigFields(objType, rate, channels, shortFrame))
    ensures 8 * |conf| < Width(ConfigFields(objType, rate, channels, shortFrame)) + 8
  {
    hide StartsWith, Entry, RateFields, TailFields, Pow2;
    var wr := new Writer();
    ghost var done: seq<Field> := [];
    if objType < Escape {
      Put(wr, objType, 5, done);
    } else {
      Put(wr, Escape, 5, done);
      Put(wr, (objType as int - 32) % 0x100, 6, [Entry(Escape, 5)]);
      assert [Entry(Escape, 5)] + [Entry((objType as int - 32) % 0x100, 6)] == TypeFields(objType);
    }
    done := TypeFields(objType);
    hide Value, Width;
    PutRate(wr, rate, done);
    done := done + RateFields(rate);
    Put(wr, channels, 4, done);
    done := done + [Entry(channels, 4)];
    PutTail(wr, objType, shortFrame, done);
    done := done + TailFields(objType, shortFrame);
    conf := wr.buf;
    HeldReads(wr.buf, wr.value, wr.bits, done);
  }

  // What the writer holds is what a reader finds.
  lemma HeldReads(buf: Data, value: nat, bits: nat, fields: seq<Field>)
    requires Holds(buf, value, bits) && value == Value(fields) && 8 * |buf| == Width(fields) + bits
    ensures StartsWith(buf, fields)
  {
    hide Num, Value, Width, Be;
    assert buf + [] == buf;
    NumOfBe(buf, []);
    NumSplit(buf, 0, Width(fields), bits);
    hide Pow2;
    Unique(Num(buf, 0, Width(fields)), Num(buf, Width(fields), bits), value, 0, Pow2(bits));
  }

  // ---- Round trip ----------------------------------------------------------------------

  lemma LowIsRest(v: nat, n: nat, p: nat)
    requires p == Pow2(n)
    ensures Low(v, n) == v % p
  {
    var q := LowIs(v, n);
    hide Low, Pow2;
    Unique(v / p, v % p, q, Low(v, n), p);
  }

  lemma OneField(data: Data, front: seq<Field>, v: nat, n: nat, p: nat)
    requires p == Pow2(n) && StartsWith(data, front + [Entry(v, n)])
    ensures StartsWith(data, front) && Num(data, Width(front), n) == v % p && Width(front + [Entry(v, n)]) == Width(front) + n
  {
    hide StartsWith, Num, Pow2, Low, Value, Width;
    Snoc(front, Entry(v, n));
    LastReads(data, front, Entry(v, n));
    LowIsRest(v, n, p);
  }

  lemma ShortTypeReads(data: Data, objType: byte)
    requires objType < Escape && StartsWith(data, [Entry(objType, 5)])
    ensures Num(data, 0, 5) == objType && Width([Entry(objType, 5)]) == 5
  {
    hide StartsWith, Num, Pow2, Entry, Width, Value, Low;
    var none: seq<Field> := [];
    Pow2Values();
    WidthOfNone();
    assert none + [Entry(objType, 5)] == [Entry(objType, 5)];
    OneField(data, none, objType, 5, 0x20);
  }

  lemma WidthOfNone()
    ensures Width([]) == 0
  {
  }

  lemma LongTypeReads(data: Data, v: byte)
    requires StartsWith(data, [Entry(Escape, 5), Entry(v, 6)])
    ensures Num(data, 0, 5) == 31 && Num(data, 5, 6) == v % 0x40 && Width([Entry(Escape, 5), Entry(v, 6)]) == 11
  {
    hide StartsWith, Num, Pow2, Entry, Width, Value, Low;
    Pow2Values();
    WidthOfNone();
    assert [Entry(Escape, 5)] + [Entry(v, 6)] == [Entry(Escape, 5), Entry(v, 6)];
    OneField(data, [Entry(Escape, 5)], v, 6, 0x40);
    assert [] + [Entry(Escape, 5)] == [Entry(Escape, 5)];
    OneField(data, [], Escape, 5, 0x20);
  }

  lemma TypeReads(data: Data, objType: byte)
    requires StartsWith(data, TypeFields(objType))
    ensures if objType < Escape then Num(data, 0, 5) == objType && Width(TypeFields(objType)) == 5
            else Num(data, 0, 5) == 31 && Num(data, 5, 6) == (objType as int - 32) % 0x100 % 0x40 && Width(TypeFields(objType)) == 11
  {
    hide StartsWith, Num, Entry, Width;
    if objType < Escape {
      ShortTypeReads(data, objType);
    } else {
      LongTypeReads(data, (objType as int - 32) % 0x100);
    }
  }

  lemma RateReads(data: Data, front: seq<Field>, rate: uint32)
    requires StartsWith(data, front + RateFields(rate))
    ensures StartsWith(data, front)
    ensures var i := IndexOf(SampleRates(), rate);
            if i < 16 then Num(data, Width(front), 4) == i && i != 15 && Width(front + RateFields(rate)) == Width(front) + 4
            else
              && Num(data, Width(front), 4) == 15 && Num(data, Width(front) + 4, 24) == rate % 0x100_0000
              && Width(front + RateFields(rate)) == Width(front) + 28
  {
    hide StartsWith, Num, Pow2, Entry, Width, IndexOf, SampleRates;
    var i := IndexOf(SampleRates(), rate);
    NotTheLast(rate);
    assert Pow2(4) == 0x10 && Pow2(24) == 0x100_0000 by { Pow2Values(); Pow2Add(8, 16); }
    if i < 16 {
      OneField(data, front, i, 4, 0x10);
    } else {
      assert front + RateFields(rate) == (front + [Entry(15, 4)]) + [Entry(rate, 24)];
      OneField(data, front + [Entry(15, 4)], rate, 24, 0x100_0000);
      OneField(data, front, 15, 4, 0x10);
    }
  }

  lemma NotTheLast(rate: uint32)
    ensures IndexOf(SampleRates(), rate) != 15
  {
    hide IndexOf;
    assert SampleRates()[13] == SampleRates()[15];
  }

  lemma TailFits(objType: byte, shortFrame: bool)
    ensures Fits(TailFields(objType, shortFrame))
  {
    hide Low, Pow2;
  }

  // What DecodeConfig makes of an encoded config.
  lemma ConfigReads(data: Data, objType: byte, rate: uint32, channels: byte, shortFrame: bool)
    requires StartsWith(data, ConfigFields(objType, rate, channels, shortFrame))
    ensures var c := ConfigAt(data);
            && c.objType == (if objType < Escape then objType else 32 + (objType as int - 32) % 0x100 % 0x40)
            && c.rate == (if rate in SampleRates() then rate else rate % 0x100_0000) && c.channels == channels % 0x10
  {
    hide StartsWith, Num, Pow2, Entry, Width, TypeFields, RateFields, TailFields, Fits, ConfigAt, SampleRates, IndexOf;
    var kind, front := TypeFields(objType), TypeFields(objType) + RateFields(rate);
    TailFits(objType, shortFrame);
    FrontReads(data, front + [Entry(channels, 4)], TailFields(objType, shortFrame));
    Pow2Values();
    OneField(data, front, channels, 4, 0x10);
    RateReads(data, kind, rate);
    TypeReads(data, objType);
    ConfigIs(data);
    InTable(rate);
  }

  lemma InTable(rate: uint32)
    ensures rate in SampleRates() <==> IndexOf(SampleRates(), rate) < 16
  {
    var rates := SampleRates();
    if rate in rates {
      var k :| 0 <= k < |rates| && rates[k] == rate;
    }
  }

  // Type, rate and channels come back, if and only if the type has a code and the
  // others fit into their fields.
  lemma EncodeThenDecode(data: Data, objType: byte, rate: uint32, channels: byte, shortFrame: bool)
    requires StartsWith(data, ConfigFields(objType, rate, channels, shortFrame))
    ensures var c := ConfigAt(data);
            (c.objType == objType && c.rate == rate && c.channels == channels)
            <==> objType != Escape && objType < 96 && rate < 0x100_0000 && channels < 0x10
  {
    hide StartsWith, ConfigFields, ConfigAt, SampleRates;
    ConfigReads(data, objType, rate, channels, shortFrame);
    RatesAreSmall(rate);
    if objType >= Escape {
      TypeComesBack(objType);
    }
  }

  lemma RatesAreSmall(rate: uint32)
    ensures rate in SampleRates() ==> rate < 0x100_0000
  {
  }

  lemma TypeComesBack(objType: byte)
    requires objType >= Escape
    ensures 32 + (objType as int - 32) % 0x100 % 0x40 == objType <==> objType != Escape && objType < 96
  {
  }

  // ---- ADTSToCodec (adts.go) -----------------------------------------------------------

  // The codec that a header describes: its clock rate, its channels and its config.
  datatype AdtsCodec = AdtsCodec(clockRate: uint32, channels: byte, conf: Data)

  function CodecFields(h: Data): seq<Field> {
    [Entry((Num(h, 16, 2) + 1) % 0x100, 5), Entry(Num(h, 18, 4), 4), Entry(Num(h, 23, 3), 4)]
  }

  lemma HeaderBounds(h: Data)
    ensures Num(h, 16, 2) < 4 && Num(h, 18, 4) < 0x10 && Num(h, 23, 3) < 8
  {
    Pow2Values();
    hide Num;
  }

  function RateOf(h: Data): uint32 {
    HeaderBounds(h);
    SampleRates()[Num(h, 18, 4)]
  }

  method ADTSToCodec(b: Data) returns (r: Option<AdtsCodec>)
    ensures r.Some? <==> IsADTS(b)
    ensures r.Some? ==>
              && r.value.clockRate == RateOf(b) && r.value.channels == Num(b, 23, 3)
              && |r.value.conf| == 2 && StartsWith(r.value.conf, CodecFields(b))
  {
    hide Num, Pow2, Entry, StartsWith, IsADTS, SampleRates, Low;
    if !IsADTS(b) {
      return None;
    }
    HeaderBounds(b);
    var profile, sampleRateIdx, channels := ReadHeader(b);
    var conf := WriteCodec(profile + 1, sampleRateIdx, channels);
    return Some(AdtsCodec(SampleRates()[sampleRateIdx], channels, conf));
  }

  method ReadHeader(b: Data) returns (profile: nat, sampleRateIdx: nat, channels: nat)
    ensures profile == Num(b, 16, 2) && sampleRateIdx == Num(b, 18, 4) && channels == Num(b, 23, 3)
  {
    hide Num, Pow2;
    var rd := new Reader(b);
    SkipSync(rd);
    profile := rd.ReadBits(2);
    sampleRateIdx := rd.ReadBits(4);
    var _ := rd.ReadBit();
    channels := rd.ReadBits(3);
  }

  // Syncword, version, layer and the checksum bit.
  method SkipSync(rd: Reader)
    requires rd.Valid() && rd.at == 0
    modifies rd
    ensures rd.Valid() && rd.at == 16
  {
    hide Num, Pow2;
    var _ := rd.ReadBits(12);
    var _ := rd.ReadBit();
    var _ := rd.ReadBits(2);
    var _ := rd.ReadBit();
  }

  method WriteCodec(objType: byte, sampleRateIdx: byte, channels: byte) returns (conf: Data)
    ensures |conf| == 2 && StartsWith(conf, [Entry(objType, 5), Entry(sampleRateIdx, 4), Entry(channels, 4)])
  {
    hide Pow2, Entry, StartsWith;
    var a, b, c := Entry(objType, 5), Entry(sampleRateIdx, 4), Entry(channels, 4);
    var wr := new Writer();
    Put(wr, objType, 5, []);
    Put(wr, sampleRateIdx, 4, [a]);
    Put(wr, channels, 4, [a] + [b]);
    conf := wr.buf;
    assert [] + [a] == [a] && [a] + [b] + [c] == [a, b, c];
    ThirteenBits(objType, sampleRateIdx, channels);
    HeldReads(wr.buf, wr.value, wr.bits, [a, b, c]);
  }

  lemma ThirteenBits(x: nat, y: nat, z: nat)
    ensures Width([Entry(x, 5), Entry(y, 4), Entry(z, 4)]) == 13
  {
    var a, b, c := Entry(x, 5), Entry(y, 4), Entry(z, 4);
    assert [] + [a] == [a] && [a] + [b] == [a, b] && [a, b] + [c] == [a, b, c];
    Snoc([], a);
    Snoc([a], b);
    Snoc([a, b], c);
  }

  // From a config to a header and back: the codec that ADTSToCodec makes of the
  // header has a config that decodes to the first one exactly when its type is
  // between 1 and 4 and it has fewer than eight channels. A config with a rate of
  // its own loses the rate.
  lemma ThroughADTS(h: Data, c: Config, conf: Data)
    requires FixedHeader(h, c) && c.freqIdx < 0x10 && (c.freqIdx < 15 ==> c.rate == SampleRates()[c.freqIdx])
    requires |conf| == 2 && StartsWith(conf, CodecFields(h))
    ensures IsADTS(h)
    ensures if c.freqIdx < 15 then RateOf(h) == c.rate && (ConfigAt(conf) == c <==> 1 <= c.objType <= 4 && c.channels < 8)
            else RateOf(h) == 0 && ConfigAt(conf).channels == 0
  {
    hide Num, Pow2, Entry, StartsWith, Low, SampleRates, ConfigAt, IsADTS;
    SyncIsADTS(h, c);
    HeaderTells(h, c);
    HeaderBounds(h);
    CodecReads(conf, Num(h, 16, 2) + 1, Num(h, 18, 4), Num(h, 23, 3));
    ConfigIs(conf);
    NoRates();
    if c.freqIdx == 15 {
      NumPastEnd(conf, 33, 4);
    }
  }

  lemma NoRates()
    ensures SampleRates()[15] == 0
  {
  }

  lemma CodecReads(conf: Data, objType: byte, sampleRateIdx: byte, channels: byte)
    requires objType < 5 && sampleRateIdx < 0x10 && channels < 8
    requires StartsWith(conf, [Entry(objType, 5), Entry(sampleRateIdx, 4), Entry(channels, 4)])
    ensures Num(conf, 0, 5) == objType && Num(conf, 5, 4) == sampleRateIdx && Num(conf, 9, 4) == channels
  {
    hide StartsWith, Num, Pow2, Entry, Width, Value, Low;
    var a, b, c := Entry(objType, 5), Entry(sampleRateIdx, 4), Entry(channels, 4);
    assert [a] + [b] == [a, b] && [a, b] + [c] == [a, b, c];
    NibbleReads(conf, [a, b], channels);
    NibbleReads(conf, [a], sampleRateIdx);
    ShortTypeReads(conf, objType);
  }

  lemma NibbleReads(conf: Data, front: seq<Field>, v: nat)
    requires v < 0x10 && StartsWith(conf, front + [Entry(v, 4)])
    ensures StartsWith(conf, front) && Num(conf, Width(front), 4) == v && Width(front + [Entry(v, 4)]) == Width(front) + 4
  {
    hide StartsWith, Num, Pow2, Entry, Width, Value, Low;
    Pow2Values();
    OneField(conf, front, v, 4, 0x10);
  }

  // The sync word and the layer make a header.
  lemma SyncIsADTS(h: Data, c: Config)
    requires FixedHeader(h, c)
    ensures IsADTS(h)
  {
    PowersForHeader();
    SmallPowers();
    hide Num, Pow2, Put16;
    var v := (h[0] as int) * 0x100 + h[1];
    TwoBytesAre(h, 0, v);
    InTwoBytes(h, 0, 0, 12, v, 0x10, 0x1000);
    InTwoBytes(h, 0, 13, 2, v, 2, 4);
    assert (v / 0x10) == (h[0] as int) * 0x10 + h[1] as int / 0x10;
    assert v / 2 == (h[0] as int) * 0x80 + h[1] as int / 2;
  }

  // ---- The tail of an encoded config -----------------------------------------------------

  // After the channels, a low delay config has the frame length flag and four
  // zero bits, an enhanced one the flag and ten.
  lemma TailReads(data: Data, objType: byte, rate: uint32, channels: byte, shortFrame: bool)
    requires StartsWith(data, ConfigFields(objType, rate, channels, shortFrame))
    ensures var at := (if objType < 31 then 5 else 11) + (if rate in SampleRates() then 4 else 28) + 4;
            var flag := if shortFrame then 1 else 0;
            if objType == 23 then Width(ConfigFields(objType, rate, channels, shortFrame)) == at + 5 && Num(data, at, 1) == flag && Num(data, at + 1, 4) == 0
            else if objType == 39 then Width(ConfigFields(objType, rate, channels, shortFrame)) == at + 11 && Num(data, at, 1) == flag && Num(data, at + 1, 10) == 0
            else Width(ConfigFields(objType, rate, channels, shortFrame)) == at
  {
    hide StartsWith, Num, Pow2, Entry, Width, TypeFields, RateFields, SampleRates;
    var front := TypeFields(objType) + RateFields(rate) + [Entry(channels, 4)];
    FrontWidth(data, objType, rate, channels, shortFrame);
    var frame := if shortFrame then 1 else 0;
    if objType == LowDelay {
      assert front + TailFields(objType, shortFrame) == front + [Entry(frame, 1)] + [Entry(0, 1)] + [Entry(0, 1)] + [Entry(0, 2)];
      FourReads(data, front, frame, 1, 1, 2);
    } else if objType == EnhancedLowDelay {
      assert front + TailFields(objType, shortFrame) == front + [Entry(frame, 1)] + [Entry(0, 3)] + [Entry(0, 1)] + [Entry(0, 4)] + [Entry(0, 2)];
      ZeroField(data, front + [Entry(frame, 1)] + [Entry(0, 3)] + [Entry(0, 1)] + [Entry(0, 4)], 2);
      FourReads(data, front, frame, 3, 1, 4);
      NumSplit(data, Width(front) + 1, 8, 2);
    } else {
      assert front + [] == front;
    }
  }

  // A flag and three fields of zeros.
  lemma FourReads(data: Data, front: seq<Field>, flag: nat, k: nat, m: nat, n: nat)
    requires flag <= 1 && StartsWith(data, front + [Entry(flag, 1)] + [Entry(0, k)] + [Entry(0, m)] + [Entry(0, n)])
    ensures Num(data, Width(front), 1) == flag && Num(data, Width(front) + 1, k + m + n) == 0
    ensures Width(front + [Entry(flag, 1)] + [Entry(0, k)] + [Entry(0, m)] + [Entry(0, n)]) == Width(front) + 1 + k + m + n
  {
    hide StartsWith, Num, Pow2, Entry, Width, Value, Low;
    var a := front + [Entry(flag, 1)];
    ThreeZeros(data, a, k, m, n);
    FlagField(data, front, flag);
  }

  lemma FlagField(data: Data, front: seq<Field>, flag: nat)
    requires flag <= 1 && StartsWith(data, front + [Entry(flag, 1)])
    ensures Num(data, Width(front), 1) == flag && Width(front + [Entry(flag, 1)]) == Width(front) + 1
  {
    assert Pow2(1) == 2;
    hide StartsWith, Num, Pow2, Entry, Width, Value, Low;
    OneField(data, front, flag, 1, 2);
  }

  lemma ThreeZeros(data: Data, front: seq<Field>, k: nat, m: nat, n: nat)
    requires StartsWith(data, front + [Entry(0, k)] + [Entry(0, m)] + [Entry(0, n)])
    ensures StartsWith(data, front) && Num(data, Width(front), k + m + n) == 0
    ensures Width(front + [Entry(0, k)] + [Entry(0, m)] + [Entry(0, n)]) == Width(front) + k + m + n
  {
    hide StartsWith, Num, Pow2, Entry, Width, Value, Low;
    var b := front + [Entry(0, k)];
    var c := b + [Entry(0, m)];
    ZeroField(data, c, n);
    ZeroField(data, b, m);
    ZeroField(data, front, k);
    MoreZeros(data, Width(front), k, m);
    MoreZeros(data, Width(front), k + m, n);
  }

  lemma MoreZeros(data: Data, at: nat, m: nat, n: nat)
    requires Num(data, at, m) == 0 && Num(data, at + m, n) == 0
    ensures Num(data, at, m + n) == 0
  {
    hide Num;
    NumSplit(data, at, m, n);
  }

  lemma ZeroField(data: Data, front: seq<Field>, n: nat)
    requires StartsWith(data, front + [Entry(0, n)])
    ensures StartsWith(data, front) && Num(data, Width(front), n) == 0 && Width(front + [Entry(0, n)]) == Width(front) + n
  {
    hide StartsWith, Num, Pow2, Entry, Width;
    OneField(data, front, 0, n, Pow2(n));
  }

  lemma FrontWidth(data: Data, objType: byte, rate: uint32, channels: byte, shortFrame: bool)
    requires StartsWith(data, ConfigFields(objType, rate, channels, shortFrame))
    ensures Width(TypeFields(objType) + RateFields(rate) + [Entry(channels, 4)])
            == (if objType < 31 then 5 else 11) + (if rate in SampleRates() then 4 else 28) + 4
  {
    hide StartsWith, Num, Pow2, Entry, Width, TypeFields, RateFields, TailFields, Fits, SampleRates, IndexOf;
    var kind, front := TypeFields(objType), TypeFields(objType) + RateFields(rate);
    TailFits(objType, shortFrame);
    FrontReads(data, front + [Entry(channels, 4)], TailFields(objType, shortFrame));
    Pow2Values();
    OneField(data, front, channels, 4, 0x10);
    RateReads(data, kind, rate);
    TypeReads(data, objType);
    InTable(rate);
  }
}
