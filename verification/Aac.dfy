// pkg/aac: access units in RTP (RFC 3640, AAC-hbr) and in ADTS frames.

module Aac {
  import opened Bytes
  import opened Bits

  const ADTSHeaderSize := 7
  const AUTime := 1024

  // ---- ADTS headers (adts.go) ------------------------------------------------------

  // b[1] & 0xF6 == 0xF0.
  predicate IsADTS(b: Data) {
    |b| >= ADTSHeaderSize && b[0] == 0xFF && b[1] / 0x10 == 0xF && b[1] / 2 % 4 == 0
  }

  // b[1] & 1 == 0: a checksum follows the header.
  predicate HasCRC(b: Data)
    requires |b| >= 2
  {
    b[1] % 2 == 0
  }

  function ReadADTSSize(b: Data): (size: uint16)
    requires |b| >= 6
    ensures size < 0x2000
  {
    (b[3] as int) % 4 * 0x800 + (b[4] as int) * 8 + b[5] / 0x20
  }

  // x | y, bit by bit.
  function Or(x: nat, y: nat): nat {
    if x == 0 then y else if y == 0 then x
    else 2 * Or(x / 2, y / 2) + (if x % 2 == 1 || y % 2 == 1 then 1 else 0)
  }

  lemma {:induction false} OrDisjoint(x: nat, y: nat, k: nat)
    requires y < Pow2(k)
    ensures Or(x * Pow2(k), y) == x * Pow2(k) + y
  {
    if k == 0 {
      assert y == 0 && x * 1 == x;
    } else {
      Double(x, Pow2(k - 1));
      OrDisjoint(x, y / 2, k - 1);
      assert x * Pow2(k) / 2 == x * Pow2(k - 1) && x * Pow2(k) % 2 == 0;
    }
  }

  lemma {:induction false} OrSymmetric(x: nat, y: nat)
    ensures Or(x, y) == Or(y, x)
  {
    if x != 0 && y != 0 { OrSymmetric(x / 2, y / 2); }
  }

  lemma {:induction false} OrBound(x: nat, y: nat, k: nat)
    requires x < Pow2(k) && y < Pow2(k)
    ensures Or(x, y) < Pow2(k)
  {
    if k > 0 && x != 0 && y != 0 { OrBound(x / 2, y / 2, k - 1); }
  }

  function OrByte(x: byte, y: byte): byte {
    Pow2Values();
    OrBound(x, y, 8);
    Or(x, y)
  }

  // WriteADTSSize(b[at:], size).
  function WithADTSSize(b: Data, at: nat, size: uint16): (r: Data)
    requires at + 6 <= |b|
    ensures |r| == |b|
  {
    b[at + 3 := OrByte(b[at + 3], size / 0x800)][at + 4 := size / 8 % 0x100][at + 5 := OrByte(b[at + 5], size % 8 * 0x20)]
  }

  // A header without the size: the layer and the checksum bit are fixed, and
  // the size field is zero.
  predicate Template(t: Data) {
    |t| == ADTSHeaderSize && IsADTS(t) && t[3] % 4 == 0 && t[4] == 0 && t[5] < 0x20
  }

  // The header of a frame of a given size.
  function Header(t: Data, size: uint16): (h: Data)
    requires Template(t)
    ensures |h| == ADTSHeaderSize
  {
    WithADTSSize(t, 0, size)
  }

  // The bits of the size go where the template has none.
  lemma HeaderBits(t: Data, hi: nat, lo: nat)
    requires Template(t) && hi < 4 && lo < 8
    ensures Or(t[3], hi) == t[3] + hi && Or(t[5], lo * 0x20) == t[5] + lo * 0x20
  {
    Pow2Values();
    OrDisjoint(t[3] / 4, hi, 2);
    OrDisjoint(lo, t[5], 5);
    OrSymmetric(t[5], lo * 0x20);
    hide Or, Pow2;
  }

  lemma HeaderSize(t: Data, size: uint16, rest: Data)
    requires Template(t) && size < 0x2000
    ensures var f := Header(t, size) + rest; IsADTS(f) && ReadADTSSize(f) == size
  {
    hide Header, Template;
    HeaderIs(t, size);
    SizeDigits(size);
    DigitsBack(t[3], size / 0x800, t[5], size % 8);
  }

  lemma HeaderIs(t: Data, size: uint16)
    requires Template(t) && size < 0x2000
    ensures IsADTS(t) && t[3] % 4 == 0 && t[5] < 0x20
    ensures var h := Header(t, size);
            && h[0] == t[0] && h[1] == t[1] && h[3] == t[3] + size / 0x800 && h[4] == size / 8 % 0x100 && h[5] == t[5] + size % 8 * 0x20
  {
    hide Or;
    SizeDigits(size);
    HeaderBits(t, size / 0x800, size % 8);
  }

  lemma DigitsBack(a: byte, hi: nat, b: byte, lo: nat)
    requires a % 4 == 0 && hi < 4 && b < 0x20 && lo < 8
    ensures (a + hi) % 4 == hi && (b + lo * 0x20) / 0x20 == lo
  {
  }

  lemma SizeDigits(size: uint16)
    requires size < 0x2000
    ensures size / 0x800 * 0x800 + size / 8 % 0x100 * 8 + size % 8 == size && size / 0x800 < 4
  {
  }

  // ---- The template of a stream (DecodeConfig, CodecToADTS) ---------------------------

  datatype Config = Config(objType: byte, freqIdx: byte, channels: byte, rate: uint32)

  // The last three stand for no rate at all.
  function SampleRates(): (r: seq<uint32>)
    ensures |r| == 16
  {
    [96000, 88200, 64000, 48000, 44100, 32000, 24000, 22050, 16000, 12000, 11025, 8000, 7350, 0, 0, 0]
  }

  // Rates of three families, each a half of the one three before it, and 7350.
  lemma RatesAreHalves()
    ensures var r := SampleRates();
            && r[0] == 96000 && r[1] == 88200 && r[2] == 64000 && r[12] == 7350 && r[13] == 0 && r[14] == 0 && r[15] == 0
            && forall i :: 3 <= i < 12 ==> 2 * r[i] == r[i - 3]
  {
    var r := SampleRates();
    forall i | 3 <= i < 12 ensures 2 * r[i] == r[i - 3] {
      assert i == 3 || i == 4 || i == 5 || i == 6 || i == 7 || i == 8 || i == 9 || i == 10 || i == 11;
    }
  }

  // Profile and frequency come from the audio config; the size field is left
  // zero and the buffer fullness is all ones.
  function TemplateOf(c: Config): Data {
    var profile, freq, channels := (c.objType + 255) % 0x100 % 4, c.freqIdx % 0x10, c.channels % 8;
    [0xFF, 0xF1, profile * 0x40 + freq * 4 + channels / 4, channels % 4 * 0x40, 0, 0x1F, 0xFC]
  }

  lemma TemplateOfIsTemplate(c: Config)
    ensures Template(TemplateOf(c))
  {
  }

  function ConfigAt(conf: Data): Config {
    Pow2Values();
    var short, long := Num(conf, 0, 5), 32 + Num(conf, 5, 6);
    var objType := if short == 31 then long else short;
    var a := if short == 31 then 11 else 5;
    var freq := Num(conf, a, 4);
    var b := if freq == 15 then a + 28 else a + 4;
    var rate := if freq == 15 then Num(conf, a + 4, 24) else SampleRates()[freq];
    Config(objType, freq, Num(conf, b, 4), rate)
  }

  lemma FieldBounds(conf: Data)
    ensures Num(conf, 0, 5) < 0x20 && forall at :: Num(conf, at, 4) < 0x10 && Num(conf, at, 6) < 0x40 && Num(conf, at, 24) < 0x100_0000
  {
    Pow2Values();
    Pow2Add(8, 16);
    hide Num;
  }

  lemma ConfigIs(conf: Data)
    ensures var long := Num(conf, 0, 5) == 31;
            var a := if long then 11 else 5;
            var explicit := Num(conf, a, 4) == 15;
            var c := ConfigAt(conf);
            && c.objType == (if long then 32 + Num(conf, 5, 6) else Num(conf, 0, 5)) && c.freqIdx == Num(conf, a, 4)
            && c.channels == Num(conf, if explicit then a + 28 else a + 4, 4)
            && c.rate == if explicit then Num(conf, a + 4, 24) else SampleRates()[c.freqIdx]
  {
    FieldBounds(conf);
    hide Num;
  }

  method DecodeConfig(conf: Data) returns (c: Config)
    ensures c == ConfigAt(conf)
  {
    hide Num, ConfigAt, SampleRates;
    FieldBounds(conf);
    ConfigIs(conf);
    hide Pow2;
    var rd := new Reader(conf);
    var objType := rd.ReadBits(5);
    if objType == 31 {
      var more := rd.ReadBits(6);
      objType := 32 + more;
    }
    var freqIdx := rd.ReadBits(4);
    var rate: uint32;
    if freqIdx == 15 {
      rate := rd.ReadBits(24);
    } else {
      rate := SampleRates()[freqIdx];
    }
    var channels := rd.ReadBits(4);
    c := Config(objType, freqIdx, channels, rate);
  }

  // The audio config is a parameter; reading it out of the SDP line is not
  // part of this model.
  method CodecToADTS(conf: Data) returns (adts: Data)
    ensures adts == TemplateOf(ConfigAt(conf))
    ensures |adts| == ADTSHeaderSize && HeaderOf(adts, ConfigAt(conf), 0) && !HasCRC(adts)
  {
    hide Pow2, Low, Be, HeaderOf, TemplateOf, HeaderStart, HasCRC;
    var c := DecodeConfig(conf);
    var profile: byte := (c.objType + 255) % 0x100;
    var wr := new Writer();
    WriteStart(wr, profile, c.freqIdx, c.channels);
    WriteEnd(wr);
    adts := wr.buf;
    assert Be(adts) == wr.value by { PowersForHeader(); }
    BeOfTemplate(c);
    TemplateHasFields(c);
    BeInjective(adts, TemplateOf(c));
  }

  lemma TemplateHasFields(c: Config)
    ensures |TemplateOf(c)| == ADTSHeaderSize && HeaderOf(TemplateOf(c), c, 0) && !HasCRC(TemplateOf(c))
  {
    HeaderOfBytes(TemplateOf(c), c, 0);
    hide HeaderOf;
  }

  // The fields up to the channels.
  function HeaderStart(profile: byte, freq: byte, channels: byte): nat {
    ((0xFFF1 * 4 + profile % 4) * 0x10 + freq % 0x10) * 2 * 8 + channels % 8
  }

  method WriteStart(wr: Writer, profile: byte, freq: byte, channels: byte)
    requires wr.Valid() && wr.value == 0 && wr.count == 0
    modifies wr
    ensures wr.Valid() && wr.value == HeaderStart(profile, freq, channels) && wr.count == 26
  {
    Fields(profile, freq, channels);
    PowersForHeader();
    hide Pow2, Low;
    wr.WriteAllBits(1, 12);
    wr.WriteBit(0);
    wr.WriteBits(0, 2);
    wr.WriteBit(1);
    wr.WriteBits(profile, 2);
    wr.WriteBits(freq, 4);
    wr.WriteBit(0);
    wr.WriteBits(channels, 3);
  }

  method WriteEnd(wr: Writer)
    requires wr.Valid() && wr.count == 26
    modifies wr
    ensures wr.Valid() && wr.value == (old(wr.value) * 0x10 * 0x2000 * 0x800 + 0x7FF) * 4 && wr.count == 56
  {
    Fields(0, 0, 0);
    PowersForHeader();
    hide Pow2, Low;
    wr.WriteBit(0);
    wr.WriteBit(0);
    wr.WriteBit(0);
    wr.WriteBit(0);
    wr.WriteBits(0, 13);
    wr.WriteAllBits(1, 11);
    wr.WriteBits(0, 2);
  }

  lemma PowersForHeader()
    ensures Pow2(0) == 1 && Pow2(2) == 4 && Pow2(3) == 8 && Pow2(4) == 0x10
    ensures Pow2(11) == 0x800 && Pow2(12) == 0x1000 && Pow2(13) == 0x2000
  {
    Pow2Values();
    assert Pow2(11) == 2 * Pow2(10);
  }

  lemma Fields(profile: byte, freq: byte, channels: byte)
    ensures Low(profile, 2) == profile % 4 && Low(freq, 4) == freq % 0x10 && Low(channels, 3) == channels % 8
    ensures Low(0, 2) == 0 && Low(0, 13) == 0
  {
    LowSmall(profile);
    LowSmall(freq);
    LowSmall(channels);
    LowZero(13);
  }

  lemma LowSmall(v: nat)
    ensures Low(v, 2) == v % 4 && Low(v, 3) == v % 8 && Low(v, 4) == v % 0x10
  {
    LowTwo(v);
    LowThree(v);
    LowThree(v / 2);
    LowStep(v, 4);
    Mod16(v);
  }

  lemma LowThree(v: nat)
    ensures Low(v, 3) == v % 8
  {
    LowTwo(v / 2);
    LowStep(v, 3);
    Mod8(v);
  }

  lemma Mod8(v: nat)
    ensures v % 8 == 2 * (v / 2 % 4) + v % 2
  {
  }

  lemma Mod16(v: nat)
    ensures v % 0x10 == 2 * (v / 2 % 8) + v % 2
  {
  }

  lemma LowTwo(v: nat)
    ensures Low(v, 2) == v % 4
  {
    assert Low(v / 2, 1) == 2 * Low(v / 4, 0) + v / 2 % 2;
  }

  lemma LowStep(v: nat, n: nat)
    requires n > 0
    ensures Low(v, n) == 2 * Low(v / 2, n - 1) + v % 2
  {
  }

  lemma {:induction false} LowZero(n: nat)
    ensures Low(0, n) == 0
  {
    if n > 0 { LowZero(n - 1); }
  }

  // The template as one number of 56 bits.
  lemma BeOfTemplate(c: Config)
    ensures Be(TemplateOf(c)) == (HeaderStart((c.objType + 255) % 0x100, c.freqIdx, c.channels) * 0x10 * 0x2000 * 0x800 + 0x7FF) * 4
  {
    BeSeven(TemplateOf(c));
  }

  function Digit(v: nat, b: byte): nat {
    v * 0x100 + b
  }

  lemma BeSeven(t: Data)
    requires |t| == 7
    ensures Be(t) == Digit(Digit(Digit(Digit(Digit(Digit(t[0], t[1]), t[2]), t[3]), t[4]), t[5]), t[6])
  {
    BeAt(t, 1); BeAt(t, 2); BeAt(t, 3); BeAt(t, 4); BeAt(t, 5); BeAt(t, 6); BeAt(t, 7);
    assert t[..7] == t && t[..0] == [];
    assert Be([]) == 0;
  }

  lemma BeAt(t: Data, i: nat)
    requires 0 < i <= |t|
    ensures Be(t[..i]) == Digit(Be(t[..i - 1]), t[i - 1])
  {
    assert t[..i] == t[..i - 1] + [t[i - 1]];
    BeSnoc(t[..i - 1], t[i - 1]);
  }

  // ---- The fields of a header (ISO/IEC 13818-7, section 6.2) --------------------------------

  // Syncword, MPEG-4, layer, no checksum, profile, frequency, private bit,
  // channels: the fields that ADTSToCodec reads.
  predicate FixedHeader(h: Data, c: Config) {
    && |h| >= ADTSHeaderSize && Num(h, 0, 12) == 0xFFF && Num(h, 12, 1) == 0 && Num(h, 13, 2) == 0 && Num(h, 15, 1) == 1
    && Num(h, 16, 2) == (c.objType - 1) % 4 && Num(h, 18, 4) == c.freqIdx % 0x10 && Num(h, 22, 1) == 0 && Num(h, 23, 3) == c.channels % 8
  }

  // With four bits of origin and copyright, the frame length, a buffer fullness of
  // all ones, and one raw data block.
  predicate HeaderOf(h: Data, c: Config, size: nat) {
    && FixedHeader(h, c) && Num(h, 26, 4) == 0 && Num(h, 30, 13) == size && Num(h, 43, 11) == 0x7FF && Num(h, 54, 2) == 0
  }

  lemma SyncFields(h: Data, c: Config)
    requires |h| >= ADTSHeaderSize && h[0] == 0xFF && h[1] == 0xF1
    ensures Num(h, 0, 12) == 0xFFF && Num(h, 12, 1) == 0 && Num(h, 13, 2) == 0 && Num(h, 15, 1) == 1
  {
    PowersForHeader();
    SmallPowers();
    hide Num, Pow2;
    assert h[0..2] == Put16(0xFFF1);
    InTwoBytes(h, 0, 0, 12, 0xFFF1, 0x10, 0x1000);
    InTwoBytes(h, 0, 12, 1, 0xFFF1, 8, 2);
    InTwoBytes(h, 0, 13, 2, 0xFFF1, 2, 4);
    InTwoBytes(h, 0, 15, 1, 0xFFF1, 1, 2);
  }

  lemma CodecFields(h: Data, profile: nat, freq: nat, channels: nat, low: nat)
    requires |h| >= ADTSHeaderSize && profile < 4 && freq < 0x10 && channels < 8 && low < 0x40
    requires h[2] == profile * 0x40 + freq * 4 + channels / 4 && h[3] == channels % 4 * 0x40 + low
    ensures Num(h, 16, 2) == profile && Num(h, 18, 4) == freq && Num(h, 22, 1) == 0 && Num(h, 23, 3) == channels
    ensures low < 4 ==> Num(h, 26, 4) == 0
  {
    PowersForHeader();
    SmallPowers();
    hide Num, Pow2, Put16;
    InByte(h, 2, 0, 2, 0x40, 4);
    InByte(h, 2, 2, 4, 4, 0x10);
    InByte(h, 2, 6, 1, 2, 2);
    InByte(h, 3, 2, 4, 4, 0x10);
    var v := (h[2] as int) * 0x100 + h[3];
    TwoBytesAre(h, 2, v);
    InTwoBytes(h, 2, 7, 3, v, 0x40, 8);
    ChannelBits(profile, freq, channels, low);
  }

  lemma ChannelBits(profile: nat, freq: nat, channels: nat, low: nat)
    requires profile < 4 && freq < 0x10 && channels < 8 && low < 0x40
    ensures var a, b := profile * 0x40 + freq * 4 + channels / 4, channels % 4 * 0x40 + low;
            && a / 0x40 % 4 == profile && a / 4 % 0x10 == freq && a / 2 % 2 == 0 && (a * 0x100 + b) / 0x40 % 8 == channels
            && (low < 4 ==> b / 4 % 0x10 == 0)
  {
    var hi, lo := channels / 4, channels % 4;
    FirstByteBits(profile, freq, hi);
    var a := profile * 0x40 + freq * 4 + hi;
    assert (a * 0x100 + lo * 0x40 + low) / 0x40 == a * 4 + lo;
    assert a * 4 + lo == (profile * 0x20 + freq * 2) * 8 + channels;
  }

  lemma FirstByteBits(profile: nat, freq: nat, hi: nat)
    requires profile < 4 && freq < 0x10 && hi < 2
    ensures var a := profile * 0x40 + freq * 4 + hi; a / 0x40 % 4 == profile && a / 4 % 0x10 == freq && a / 2 % 2 == 0
  {
    var a := profile * 0x40 + freq * 4 + hi;
    assert a / 4 == profile * 0x10 + freq && a / 2 == (profile * 0x10 + freq) * 2;
  }

  lemma TwoBytesAre(h: Data, p: nat, v: nat)
    requires p + 2 <= |h| && v == (h[p] as int) * 0x100 + h[p + 1]
    ensures v < 0x1_0000 && h[p..p + 2] == Put16(v)
  {
  }

  // The frame length is what ReadADTSSize reads.
  lemma LengthIsSize(h: Data)
    requires |h| >= 6
    ensures Num(h, 30, 13) == ReadADTSSize(h)
  {
    PowersForHeader();
    SmallPowers();
    hide Num, Pow2;
    NumSplit(h, 30, 2, 11);
    NumSplit(h, 32, 8, 3);
    InByte(h, 3, 6, 2, 1, 4);
    ByteIs(h, 4, 32);
    InByte(h, 5, 0, 3, 0x20, 8);
  }

  lemma EndFields(h: Data, low: nat)
    requires |h| >= ADTSHeaderSize && low < 8 && h[5] == low * 0x20 + 0x1F && h[6] == 0xFC
    ensures Num(h, 43, 11) == 0x7FF && Num(h, 54, 2) == 0
  {
    PowersForHeader();
    SmallPowers();
    hide Num, Pow2, Put16;
    var v := (h[5] as int) * 0x100 + h[6];
    TwoBytesAre(h, 5, v);
    InTwoBytes(h, 5, 3, 11, v, 4, 0x800);
    InTwoBytes(h, 5, 14, 2, v, 1, 4);
  }

  lemma HeaderOfBytes(h: Data, c: Config, size: nat)
    requires |h| >= ADTSHeaderSize && size < 0x2000
    requires var t := TemplateOf(c);
             && h[0] == t[0] && h[1] == t[1] && h[2] == t[2] && h[3] == t[3] + size / 0x800 && h[4] == size / 8 % 0x100
             && h[5] == t[5] + size % 8 * 0x20 && h[6] == t[6]
    ensures HeaderOf(h, c, size) && !HasCRC(h)
  {
    hide Num;
    SizeDigits(size);
    SyncFields(h, c);
    CodecFields(h, (c.objType + 255) % 0x100 % 4, c.freqIdx % 0x10, c.channels % 8, size / 0x800);
    assert (c.objType + 255) % 0x100 % 4 == (c.objType - 1) % 4;
    LengthIsSize(h);
    EndFields(h, size % 8);
  }

  // The fields give back the type, the frequency and the channels of the config
  // exactly when they fit.
  lemma HeaderTells(h: Data, c: Config)
    requires FixedHeader(h, c) && c.freqIdx < 0x10
    ensures Num(h, 18, 4) == c.freqIdx
    ensures Num(h, 16, 2) + 1 == c.objType && Num(h, 23, 3) == c.channels <==> 1 <= c.objType <= 4 && c.channels < 8
  {
    hide Num;
  }

  // The fields determine the seven bytes.
  lemma SameHeader(a: Data, b: Data, c: Config, size: nat)
    requires |a| == |b| == ADTSHeaderSize && HeaderOf(a, c, size) && HeaderOf(b, c, size)
    ensures a == b
  {
    hide Num, Pow2;
    Agree(a, b, 0, 12);
    Agree(a, b, 12, 1);
    Agree(a, b, 13, 2);
    Agree(a, b, 15, 1);
    Agree(a, b, 16, 2);
    Agree(a, b, 18, 4);
    Agree(a, b, 22, 1);
    Agree(a, b, 23, 3);
    Agree(a, b, 26, 4);
    Agree(a, b, 30, 13);
    Agree(a, b, 43, 11);
    Agree(a, b, 54, 2);
    NumOfBe(a, []);
    NumOfBe(b, []);
    assert a + [] == a && b + [] == b;
    BeInjective(a, b);
  }

  lemma Agree(a: Data, b: Data, m: nat, n: nat)
    requires (m > 0 ==> Num(a, 0, m) == Num(b, 0, m)) && Num(a, m, n) == Num(b, m, n)
    ensures Num(a, 0, m + n) == Num(b, 0, m + n)
  {
    NumSplit(a, 0, m, n);
    NumSplit(b, 0, m, n);
    hide Pow2;
  }

  // A frame has the fields of its header, with its size; without a size that fits,
  // it still has those that ADTSToCodec reads.
  lemma FrameHeader(t: Data, c: Config, size: uint16, unit: Data)
    requires |t| == ADTSHeaderSize && HeaderOf(t, c, 0)
    ensures Template(t)
    ensures var f := Header(t, size) + unit; FixedHeader(f, c) && !HasCRC(f) && (size < 0x2000 ==> HeaderOf(f, c, size))
  {
    hide HeaderOf, FixedHeader, Header, Template;
    TemplateHasFields(c);
    SameHeader(t, TemplateOf(c), c, 0);
    TemplateOfIsTemplate(c);
    var f := Header(t, size) + unit;
    AnySize(t, c, size);
    CodecStart(f, c, size / 0x800);
    if size < 0x2000 {
      HeaderIs(t, size);
      assert f[2] == t[2] && f[6] == t[6] by { OtherBytes(t, size); }
      HeaderOfBytes(f, c, size);
    }
  }

  lemma OtherBytes(t: Data, size: uint16)
    requires Template(t)
    ensures var h := Header(t, size); h[0] == t[0] && h[1] == t[1] && h[2] == t[2] && h[6] == t[6]
  {
    hide Or;
  }

  lemma AnySize(t: Data, c: Config, size: uint16)
    requires Template(t) && t == TemplateOf(c)
    ensures var h := Header(t, size); h[0] == 0xFF && h[1] == 0xF1 && h[2] == t[2] && h[3] == t[3] + size / 0x800
  {
    var x: nat := c.channels % 8 % 4;
    Pow2Values();
    OrDisjoint(x, size / 0x800, 6);
    hide Or, Pow2;
  }

  lemma CodecStart(f: Data, c: Config, low: nat)
    requires |f| >= ADTSHeaderSize && low < 0x20
    requires var t := TemplateOf(c); f[0] == 0xFF && f[1] == 0xF1 && f[2] == t[2] && f[3] == t[3] + low
    ensures FixedHeader(f, c) && !HasCRC(f)
  {
    hide Num;
    SyncFields(f, c);
    CodecFields(f, (c.objType + 255) % 0x100 % 4, c.freqIdx % 0x10, c.channels % 8, low);
    assert (c.objType + 255) % 0x100 % 4 == (c.objType - 1) % 4;
  }

  // ---- AU headers (RFC 3640, section 3.3.6) ----------------------------------------------

  // One header of 16 bits for each unit: 13 bits of size, three of index.
  function AuHeaders(aus: seq<Data>): Data
    decreases |aus|
  {
    if aus == [] then []
    else AuHeaders(aus[..|aus| - 1]) + AuHeader(|aus[|aus| - 1]|)
  }

  function AuHeader(size: nat): (h: Data)
    ensures |h| == 2
  {
    Put16(size * 8 % 0x1_0000)
  }

  lemma SizeInHeader(size: nat, rest: Data)
    requires size < 0x2000
    ensures Get16(AuHeader(size) + rest) / 8 == size
  {
    Get16Put16(size * 8, rest);
  }

  // The i-th header has the size of the i-th unit in thirteen bits and an index of
  // zero in three.
  lemma {:induction false} HeaderFields(aus: seq<Data>, i: nat, rest: Data)
    requires i < |aus| && |aus[i]| < 0x2000
    ensures var b := AuHeaders(aus) + rest;
            Num(b, 16 * i, 13) == |aus[i]| && Num(b, 16 * i + 13, 3) == 0
    decreases |aus|
  {
    hide Num, Pow2, AuHeader;
    var n := |aus| - 1;
    AuHeadersLength(aus[..n]);
    assert AuHeaders(aus) + rest == AuHeaders(aus[..n]) + (AuHeader(|aus[n]|) + rest);
    if i < n {
      HeaderFields(aus[..n], i, AuHeader(|aus[n]|) + rest);
    } else {
      var b := AuHeaders(aus) + rest;
      PowersForHeader();
      SmallPowers();
      assert b[2 * n..2 * n + 2] == AuHeader(|aus[n]|);
      HeaderInTwo(b, 2 * n, |aus[n]|);
    }
  }

  lemma HeaderInTwo(b: Data, p: nat, size: nat)
    requires p + 2 <= |b| && size < 0x2000 && b[p..p + 2] == AuHeader(size)
    ensures Num(b, 8 * p, 13) == size && Num(b, 8 * p + 13, 3) == 0
  {
    hide Num, Pow2, Put16;
    PowersForHeader();
    SmallPowers();
    InTwoBytes(b, p, 0, 13, size * 8, 8, 0x2000);
    InTwoBytes(b, p, 13, 3, size * 8, 1, 8);
  }

  // An RTP payload of several units.
  function MultiAu(aus: seq<Data>): Data {
    Put16(|aus| * 16 % 0x1_0000) + AuHeaders(aus) + Concat(aus)
  }

  // What fits: the lengths of the header section and of every unit.
  predicate Sized(aus: seq<Data>, max: nat) {
    0 < |aus| < 0x1000 && forall i :: 0 <= i < |aus| ==> 0 < |aus[i]| <= max
  }

  lemma {:induction false} AuHeadersFront(au: Data, aus: seq<Data>)
    ensures AuHeaders([au] + aus) == AuHeader(|au|) + AuHeaders(aus)
    decreases |aus|
  {
    hide AuHeader;
    var all := [au] + aus;
    if aus == [] {
      assert all[..0] == [] && all[0] == au;
    } else {
      assert all[..|all| - 1] == [au] + aus[..|aus| - 1] && all[|all| - 1] == aus[|aus| - 1];
      AuHeadersFront(au, aus[..|aus| - 1]);
    }
  }

  lemma {:induction false} AuHeadersLength(aus: seq<Data>)
    ensures |AuHeaders(aus)| == 2 * |aus|
    decreases |aus|
  {
    if aus != [] { AuHeadersLength(aus[..|aus| - 1]); }
  }

  // ---- RTPToADTS ---------------------------------------------------------------------------

  // The unit in a frame of its own, unless it is one already.
  function Framed(adts: Data, unit: Data): Data
    requires Template(adts)
  {
    if IsADTS(unit) then unit else Header(adts, (ADTSHeaderSize + |unit|) % 0x1_0000) + unit
  }

  // The units that the headers announce. None where the source reads past
  // the end of a slice.
  function UnitsOf(headers: Data, units: Data): Option<seq<Data>>
    decreases |headers|
  {
    if headers == [] then Some([])
    else if |headers| < 2 then None
    else
      var size := Get16(headers) / 8;
      if size > |units| then None
      else
        var rest := UnitsOf(headers[2..], units[size..]);
        if rest.None? then None else Some([units[..size]] + rest.value)
  }

  function HeadersSize(src: Data): nat
    requires |src| >= 2
  {
    Get16(src) / 8
  }

  // The units of a whole payload.
  function Units(src: Data): Option<seq<Data>> {
    if |src| < 2 || |src| < 2 + HeadersSize(src) then None
    else UnitsOf(src[2..2 + HeadersSize(src)], src[2 + HeadersSize(src)..])
  }

  function Frames(adts: Data, aus: seq<Data>): seq<Data>
    requires Template(adts)
  {
    if aus == [] then [] else [Framed(adts, aus[0])] + Frames(adts, aus[1..])
  }

  // The closure of RTPToADTS, on the payload of a packet.
  method RTPToADTS(adts: Data, src: Data) returns (dst: Data)
    requires Template(adts) && Units(src).Some?
    ensures dst == Concat(Frames(adts, Units(src).value))
  {
    hide Get16, Framed;
    dst := [];
    var headersSize := HeadersSize(src);
    var headers, units := src[2..2 + headersSize], src[2 + headersSize..];
    ghost var done: seq<Data> := [];
    ghost var all := Units(src).value;
    assert all == done + all;
    while |headers| > 0
      invariant UnitsOf(headers, units).Some? && all == done + UnitsOf(headers, units).value
      invariant dst == Concat(Frames(adts, done))
      decreases |headers|
    {
      var unitSize := Get16(headers) / 8;
      headers := headers[2..];
      var unit := units[..unitSize];
      units := units[unitSize..];
      var framed := Frame(adts, unit);
      FramesSnoc(adts, done, unit);
      ConcatLast(Frames(adts, done), framed);
      dst := dst + framed;
      done := done + [unit];
      assert all == done + UnitsOf(headers, units).value;
    }
    assert done + [] == done;
  }

  method Frame(adts: Data, unit: Data) returns (frame: Data)
    requires Template(adts)
    ensures frame == Framed(adts, unit)
  {
    hide WithADTSSize;
    if !IsADTS(unit) {
      return WithADTSSize(adts, 0, (ADTSHeaderSize + |unit|) % 0x1_0000) + unit;
    }
    return unit;
  }

  lemma {:induction false} FramesSnoc(adts: Data, aus: seq<Data>, au: Data)
    requires Template(adts)
    ensures Frames(adts, aus + [au]) == Frames(adts, aus) + [Framed(adts, au)]
    decreases |aus|
  {
    hide Framed;
    if aus == [] {
      assert aus + [au] == [au] && [au][1..] == [];
    } else {
      assert (aus + [au])[0] == aus[0] && (aus + [au])[1..] == aus[1..] + [au];
      FramesSnoc(adts, aus[1..], au);
    }
  }

  // The units of a payload are those it was made of.
  lemma {:induction false} UnitsOfMulti(aus: seq<Data>)
    requires forall i :: 0 <= i < |aus| ==> |aus[i]| < 0x2000
    ensures UnitsOf(AuHeaders(aus), Concat(aus)) == Some(aus)
    decreases |aus|
  {
    if aus != [] {
      assert [aus[0]] + aus[1..] == aus;
      AuHeadersFront(aus[0], aus[1..]);
      UnitsOfMulti(aus[1..]);
      UnitsStep(aus[0], AuHeaders(aus[1..]), Concat(aus[1..]));
    }
  }

  lemma UnitsStep(au: Data, headers: Data, units: Data)
    requires |au| < 0x2000
    ensures UnitsOf(AuHeader(|au|) + headers, au + units) ==
            var rest := UnitsOf(headers, units); if rest.None? then None else Some([au] + rest.value)
  {
    SizeInHeader(|au|, headers);
    hide AuHeader, Get16;
    assert (AuHeader(|au|) + headers)[2..] == headers;
    assert (au + units)[..|au|] == au && (au + units)[|au|..] == units;
  }

  lemma UnitsOfPayload(aus: seq<Data>)
    requires |aus| < 0x1000 && forall i :: 0 <= i < |aus| ==> |aus[i]| < 0x2000
    ensures Units(MultiAu(aus)) == Some(aus)
  {
    var p, h, u := MultiAu(aus), AuHeaders(aus), Concat(aus);
    AuHeadersLength(aus);
    assert p == Put16(|aus| * 16) + (h + u);
    Get16Put16(|aus| * 16, h + u);
    hide Put16, Get16, AuHeaders, Concat;
    assert p[2..2 + |h|] == h && p[2 + |h|..] == u;
    UnitsOfMulti(aus);
  }

  // ---- ADTStoRTP ----------------------------------------------------------------------------

  // The AU headers of the frames from position i on. None where the source
  // does not stop, at a frame of size zero.
  function FrameHeaders(src: Data, i: nat): Option<Data>
    decreases |src| - i
  {
    if i + ADTSHeaderSize >= |src| then Some([])
    else
      var size := ReadADTSSize(src[i..]);
      if size == 0 then None
      else
        var rest := FrameHeaders(src, i + size);
        if rest.None? then None else Some([size / 0x20, size * 8 % 0x100] + rest.value)
  }

  method ADTStoRTP(src: Data) returns (dst: Data)
    requires FrameHeaders(src, 0).Some?
    ensures var headers := FrameHeaders(src, 0).value;
            dst == Put16(|headers| % 0x1_0000 * 8 % 0x1_0000) + headers + src
  {
    hide ReadADTSSize, Put16;
    dst := [0, 0];
    var i, n := 0, |src| - ADTSHeaderSize;
    ghost var all := FrameHeaders(src, 0).value;
    while i < n
      invariant FrameHeaders(src, i).Some?
      invariant |dst| >= 2 && all == dst[2..] + FrameHeaders(src, i).value
      decreases n - i
    {
      var auSize := ReadADTSSize(src[i..]);
      ghost var before := dst;
      dst := dst + [auSize / 0x20, auSize * 8 % 0x100];
      assert dst[2..] == before[2..] + [auSize / 0x20, auSize * 8 % 0x100];
      i := i + auSize;
    }
    var hdrSize := (|dst| - 2) % 0x1_0000;
    assert all == dst[2..] && |dst| - 2 == |all|;
    dst := Put16(hdrSize * 8 % 0x1_0000) + dst[2..] + src;
  }

  // Frames are measured by their own headers.
  ghost predicate Framing(frames: seq<Data>) {
    forall i :: 0 <= i < |frames| ==>
      IsADTS(frames[i]) && |frames[i]| > ADTSHeaderSize && ReadADTSSize(frames[i]) == |frames[i]|
  }

  lemma {:induction false} FrameHeadersOf(src: Data, i: nat, frames: seq<Data>)
    requires i <= |src| && src[i..] == Concat(frames) && Framing(frames)
    ensures FrameHeaders(src, i) == Some(AuHeaders(frames))
    decreases |frames|
  {
    hide ReadADTSSize, IsADTS, AuHeaders, AuHeader;
    if frames == [] {
      NoHeaders();
    } else {
      var f, rest := frames[0], Concat(frames[1..]);
      assert src[i..] == f + rest;
      SizeOfPrefix(f, rest);
      SizeIsSmall(f);
      assert src[i + |f|..] == rest by { assert src[i..][|f|..] == rest; }
      FrameHeadersOf(src, i + |f|, frames[1..]);
      assert [f] + frames[1..] == frames;
      AuHeadersFront(f, frames[1..]);
      HeaderBytes(|f|);
    }
  }

  lemma NoHeaders()
    ensures AuHeaders([]) == []
  {
  }

  lemma SizeIsSmall(f: Data)
    requires |f| >= 6
    ensures ReadADTSSize(f) < 0x2000
  {
  }

  lemma SizeOfPrefix(f: Data, rest: Data)
    requires |f| >= 6
    ensures ReadADTSSize(f + rest) == ReadADTSSize(f)
  {
  }

  lemma HeaderBytes(size: nat)
    requires size < 0x2000
    ensures AuHeader(size) == [size / 0x20, size * 8 % 0x100]
  {
  }

  // Frames with room for their sizes become a payload of several units.
  lemma FramesToRtp(frames: seq<Data>)
    requires Framing(frames) && |frames| < 0x1000
    ensures FrameHeaders(Concat(frames), 0) == Some(AuHeaders(frames))
    ensures Put16(|AuHeaders(frames)| % 0x1_0000 * 8 % 0x1_0000) + AuHeaders(frames) + Concat(frames) == MultiAu(frames)
  {
    hide Put16, AuHeaders, Concat, FrameHeaders;
    assert Concat(frames)[0..] == Concat(frames);
    FrameHeadersOf(Concat(frames), 0, frames);
    AuHeadersLength(frames);
  }

  // ---- RTPDepay -------------------------------------------------------------------------------

  datatype Packet = Packet(timestamp: uint32, payload: Data)

  // The timestamp n units later.
  function Later(timestamp: uint32, n: nat): uint32 {
    (timestamp + AUTime * n) % 0x1_0000_0000
  }

  lemma LaterLater(timestamp: uint32, m: nat, n: nat)
    ensures Later(Later(timestamp, m), n) == Later(timestamp, m + n)
    ensures Later(timestamp, 0) == timestamp
  {
  }

  // The unit without a frame around it.
  function Bare(unit: Data): Data {
    if IsADTS(unit) then unit[ADTSHeaderSize..] else unit
  }

  // The units in turn; the rest is dropped when one is cut short or the
  // headers end in the middle of one.
  function DepayUnits(timestamp: uint32, headers: Data, units: Data): seq<Packet>
    decreases |headers|
  {
    if |headers| < 2 || Get16(headers) / 8 > |units| then []
    else
      var size, next := Get16(headers) / 8, Later(timestamp, 1);
      [Packet(next, Bare(units[..size]))] + DepayUnits(next, headers[2..], units[size..])
  }

  function Depay(timestamp: uint32, payload: Data): seq<Packet>
    requires |payload| >= 2
  {
    var n := HeadersSize(payload);
    if |payload| < 2 + n then
      if IsADTS(payload) then [Packet(timestamp, payload[ADTSHeaderSize..])] else []
    else DepayUnits(timestamp, payload[2..2 + n], payload[2 + n..])
  }

  // The timestamp that is kept for the next packet.
  function After(timestamp: uint32, payload: Data): uint32
    requires |payload| >= 2
  {
    var n := HeadersSize(payload);
    if |payload| < 2 + n then timestamp
    else Later(timestamp, |DepayUnits(timestamp, payload[2..2 + n], payload[2 + n..])|)
  }

  class Depacketizer {
    var timestamp: uint32

    constructor ()
      ensures timestamp == 0
    {
      timestamp := 0;
    }

    // A payload of fewer than two bytes panics.
    method Handle(payload: Data) returns (packets: seq<Packet>)
      requires |payload| >= 2
      modifies this
      ensures packets == Depay(old(timestamp), payload) && timestamp == After(old(timestamp), payload)
    {
      hide Get16, Bare, IsADTS, Later;
      LaterLater(timestamp, 0, 0);
      packets := [];
      var headersSize := HeadersSize(payload);
      if |payload| < 2 + headersSize {
        if IsADTS(payload) {
          Longer(payload);
          packets := packets + [Packet(timestamp, payload[ADTSHeaderSize..])];
        }
        return;
      }
      var headers, units := payload[2..2 + headersSize], payload[2 + headersSize..];
      ghost var all, from := DepayUnits(timestamp, headers, units), timestamp;
      while |headers| >= 2
        invariant all == packets + DepayUnits(timestamp, headers, units)
        invariant timestamp == Later(from, |packets|)
        decreases |headers|
      {
        var unitSize := Get16(headers) / 8;
        if |units| < unitSize {
          return;
        }
        var unit := units[..unitSize];
        headers := headers[2..];
        units := units[unitSize..];
        LaterLater(from, |packets|, 1);
        timestamp := Later(timestamp, 1);
        packets := packets + [Packet(timestamp, Bare(unit))];
      }
    }
  }

  lemma Longer(b: Data)
    requires IsADTS(b)
    ensures |b| >= ADTSHeaderSize
  {
  }

  // Packets of the units, 1024 ticks apart.
  function Timed(timestamp: uint32, aus: seq<Data>): seq<Packet>
    decreases |aus|
  {
    if aus == [] then []
    else
      var next := Later(timestamp, 1);
      [Packet(next, aus[0])] + Timed(next, aus[1..])
  }

  lemma {:induction false} TimedAt(timestamp: uint32, aus: seq<Data>, i: nat)
    requires i < |aus|
    ensures |Timed(timestamp, aus)| == |aus|
    ensures Timed(timestamp, aus)[i] == Packet(Later(timestamp, i + 1), aus[i])
    ensures Later(timestamp, i + 1) == (timestamp + 1024 * (i + 1)) % 0x1_0000_0000
    decreases |aus|
  {
    var next := Later(timestamp, 1);
    LaterLater(timestamp, 1, i);
    hide Later;
    if |aus| > 1 {
      TimedAt(next, aus[1..], if i > 0 then i - 1 else 0);
    }
  }

  function Bares(units: seq<Data>): seq<Data> {
    if units == [] then [] else [Bare(units[0])] + Bares(units[1..])
  }

  lemma {:induction false} DepayOfUnits(timestamp: uint32, units: seq<Data>)
    requires forall i :: 0 <= i < |units| ==> |units[i]| < 0x2000
    ensures DepayUnits(timestamp, AuHeaders(units), Concat(units)) == Timed(timestamp, Bares(units))
    decreases |units|
  {
    if units != [] {
      var unit, next := units[0], Later(timestamp, 1);
      hide AuHeader, Bare, Later, DepayUnits, AuHeaders;
      assert [unit] + units[1..] == units;
      AuHeadersFront(unit, units[1..]);
      DepayStep(timestamp, unit, AuHeaders(units[1..]), Concat(units[1..]), next);
      DepayOfUnits(next, units[1..]);
      assert Bares(units)[1..] == Bares(units[1..]);
    } else {
      assert AuHeaders(units) == [];
    }
  }

  lemma DepayStep(timestamp: uint32, unit: Data, headers: Data, units: Data, next: uint32)
    requires |unit| < 0x2000 && next == Later(timestamp, 1)
    ensures DepayUnits(timestamp, AuHeader(|unit|) + headers, unit + units) ==
            [Packet(next, Bare(unit))] + DepayUnits(next, headers, units)
  {
    SizeInHeader(|unit|, headers);
    hide AuHeader, Get16, Bare;
    assert (AuHeader(|unit|) + headers)[2..] == headers;
    assert (unit + units)[..|unit|] == unit && (unit + units)[|unit|..] == units;
  }

  // RTPDepay recovers the units of a payload, bare.
  lemma DepayOfPayload(timestamp: uint32, units: seq<Data>)
    requires |units| < 0x1000 && forall i :: 0 <= i < |units| ==> |units[i]| < 0x2000
    ensures |MultiAu(units)| >= 2 && Depay(timestamp, MultiAu(units)) == Timed(timestamp, Bares(units))
  {
    var p, h, u := MultiAu(units), AuHeaders(units), Concat(units);
    AuHeadersLength(units);
    assert p == Put16(|units| * 16) + (h + u);
    Get16Put16(|units| * 16, h + u);
    DepayOfUnits(timestamp, units);
    hide Put16, Get16, AuHeaders, Concat, DepayUnits, Timed;
    assert p[2..2 + |h|] == h && p[2 + |h|..] == u;
  }

  // ---- Round trips --------------------------------------------------------------------------------

  // The units that are not taken for frames.
  ghost predicate Raw(aus: seq<Data>) {
    forall i :: 0 <= i < |aus| ==> !IsADTS(aus[i])
  }

  // One frame: measured by its header, and the unit inside.
  ghost predicate FrameOf(frame: Data, au: Data) {
    IsADTS(frame) && |frame| > ADTSHeaderSize && ReadADTSSize(frame) == |frame| && Bare(frame) == au
  }

  lemma FramedRaw(adts: Data, au: Data)
    requires Template(adts) && !IsADTS(au) && 0 < |au| <= 8184
    ensures FrameOf(Framed(adts, au), au)
  {
    hide Header, IsADTS, ReadADTSSize, Template;
    HeaderSize(adts, ADTSHeaderSize + |au|, au);
    var frame := Header(adts, ADTSHeaderSize + |au|) + au;
    assert frame[ADTSHeaderSize..] == au;
  }

  lemma {:induction false} FramesOfRaw(adts: Data, aus: seq<Data>)
    requires Template(adts) && Raw(aus) && forall i :: 0 <= i < |aus| ==> 0 < |aus[i]| <= 8184
    ensures |Frames(adts, aus)| == |aus|
    ensures forall i :: 0 <= i < |aus| ==> FrameOf(Frames(adts, aus)[i], aus[i])
    decreases |aus|
  {
    if aus != [] {
      FramedRaw(adts, aus[0]);
      FramesOfRaw(adts, aus[1..]);
      hide Template, Framed, FrameOf, IsADTS;
      var frames, rest := Frames(adts, aus), Frames(adts, aus[1..]);
      forall i | 0 <= i < |aus| ensures FrameOf(frames[i], aus[i]) {
        if i > 0 { assert frames[i] == rest[i - 1] && aus[i] == aus[1..][i - 1]; }
      }
    }
  }

  lemma {:induction false} FramesAreFraming(frames: seq<Data>, aus: seq<Data>)
    requires |frames| == |aus| && forall i :: 0 <= i < |aus| ==> FrameOf(frames[i], aus[i])
    ensures Framing(frames) && Bares(frames) == aus
    decreases |aus|
  {
    if aus != [] {
      assert FrameOf(frames[0], aus[0]);
      hide IsADTS, ReadADTSSize;
      FramesAreFraming(frames[1..], aus[1..]);
      assert [aus[0]] + aus[1..] == aus;
    }
  }

  // A payload of several units, taken to ADTS by RTPToADTS, back by ADTStoRTP
  // and apart by RTPDepay, is the units that it was made of, in order, with
  // timestamps 1024 apart.
  lemma ThereAndBack(adts: Data, aus: seq<Data>, timestamp: uint32)
    requires Template(adts) && Sized(aus, 8184) && Raw(aus)
    ensures Units(MultiAu(aus)) == Some(aus)
    ensures var frames := Frames(adts, aus);
            && FrameHeaders(Concat(frames), 0) == Some(AuHeaders(frames))
            && MultiAu(frames) == Put16(|AuHeaders(frames)| % 0x1_0000 * 8 % 0x1_0000) + AuHeaders(frames) + Concat(frames)
            && |MultiAu(frames)| >= 2
            && Depay(timestamp, MultiAu(frames)) == Timed(timestamp, aus)
  {
    hide Template, IsADTS, MultiAu, AuHeaders, Concat, Depay, Timed, Units, FrameHeaders, Put16, ReadADTSSize, Frames, Bares;
    UnitsOfPayload(aus);
    FramesOfRaw(adts, aus);
    var frames := Frames(adts, aus);
    FramesAreFraming(frames, aus);
    FramesToRtp(frames);
    SizesOfFrames(frames);
    DepayOfPayload(timestamp, frames);
  }

  lemma SizesOfFrames(frames: seq<Data>)
    requires Framing(frames)
    ensures forall i :: 0 <= i < |frames| ==> |frames[i]| < 0x2000
  {
    hide IsADTS;
  }

  // ---- RTPPay -----------------------------------------------------------------------------------------

  // The payload of one unit; the length wraps at 16 bits, the size at 13.
  function PayOne(au: Data): Data
    requires |au| < 0x1_0000 - 4
  {
    [0, 16] + AuHeader(|au|) + au
  }

  class Packetizer {
    var seqNum: uint16
    var ts: uint32

    constructor ()
      ensures seqNum == 0 && ts == 0
    {
      seqNum, ts := 0, 0;
    }

    // The units it was written for: one access unit of a length that fits.
    method Handle(au: Data) returns (number: uint16, packet: Packet)
      requires |au| < 0x1_0000 - 4
      modifies this
      ensures number == old(seqNum) && packet == Packet(old(ts), PayOne(au))
      ensures seqNum == (old(seqNum) + 1) % 0x1_0000 && ts == Later(old(ts), 1)
    {
      hide AuHeader;
      number, packet := seqNum, Packet(ts, [0, 16] + AuHeader(|au|) + au);
      seqNum := (seqNum + 1) % 0x1_0000;
      ts := Later(ts, 1);
    }
  }

  // RTPDepay after RTPPay is the identity exactly on units whose size fits
  // in 13 bits and that do not look like a frame.
  lemma PayRoundTrip(timestamp: uint32, au: Data)
    requires |au| < 0x1_0000 - 4
    ensures Depay(timestamp, PayOne(au)) == [Packet(Later(timestamp, 1), au)] <==> |au| < 0x2000 && !IsADTS(au)
  {
    var p, size := PayOne(au), |au| % 0x2000;
    PaySize(|au|);
    assert p == Put16(16) + (AuHeader(size) + au);
    Get16Put16(16, AuHeader(size) + au);
    assert p[2..4] == AuHeader(size) + [] && p[4..] == au;
    SizeInHeader(size, []);
    var next := Later(timestamp, 1);
    hide Put16, Get16, AuHeader, IsADTS;
    assert DepayUnits(next, p[2..4][2..], au[size..]) == [];
    assert Depay(timestamp, p) == [Packet(next, Bare(au[..size]))];
    if |au| < 0x2000 {
      assert au[..size] == au;
      if IsADTS(au) { Longer(au); }
    }
  }

  lemma PaySize(n: nat)
    requires n < 0x1_0000
    ensures AuHeader(n) == AuHeader(n % 0x2000)
    ensures n >= 0x2000 ==> n % 0x2000 < n
  {
    var size := n % 0x2000;
    assert n * 8 == n / 0x2000 * 0x1_0000 + size * 8;
    assert n * 8 % 0x1_0000 == size * 8 == size * 8 % 0x1_0000;
    hide Put16;
  }
}
