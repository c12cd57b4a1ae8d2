// Sequence parameter sets written after clauses 7.3.2.1.1 and E.1.1 of ITU-T H.264,
// and what DecodeSPS and FixPixFmt of pkg/h264/sps.go make of them.

module SpsPrint {
  import opened Bytes
  import opened Bits
  import opened Sps

  // ---- The syntax tables ---------------------------------------------------------------

  // What a set holds besides the fields of the struct: offset_for_ref_frame, and
  // for each scaling list, if it is present, the scales that are coded.
  datatype More = More(offsets: seq<int>, lists: seq<Option<seq<nat>>>)

  // u(1), u(n), ue(v) and se(v) of clause 7.2.
  function Flag(b: nat): seq<nat> {
    [b]
  }

  function U(n: nat, v: nat): (s: seq<nat>)
    ensures |s| == n
  {
    BitsOf(v, n)
  }

  function UE(v: nat): seq<nat> {
    UeCode(v)
  }

  function SE(v: int): seq<nat> {
    UeCode(SeNumber(v))
  }

  function When(c: bool, code: seq<nat>): seq<nat> {
    if c then code else []
  }

  // The profiles with a chroma format of their own.
  predicate WithChroma(profile_idc: nat) {
    || profile_idc == 100 || profile_idc == 110 || profile_idc == 122 || profile_idc == 244 || profile_idc == 44
    || profile_idc == 83 || profile_idc == 86 || profile_idc == 118 || profile_idc == 128 || profile_idc == 138
    || profile_idc == 139 || profile_idc == 134 || profile_idc == 135
  }

  // The NAL unit header, profile, constraint flags, level and identifier.
  function HeadBits(h: Head): seq<nat> {
    U(8, h.nal) + (U(8, h.profile_idc) + (U(8, h.profile_iop) + (U(8, h.level_idc) + UE(h.id))))
  }

  function ChromaBits(c: Chroma): seq<nat> {
    UE(c.format_idc) + (When(c.format_idc == 3, Flag(c.separate_colour_plane)) + (UE(c.bit_depth_luma)
    + (UE(c.bit_depth_chroma) + (Flag(c.qpprime) + Flag(c.scaling_matrix_present)))))
  }

  // delta_scale, which takes one scale to the next modulo 256; clause 7.4.2.1.1.1
  // has it between -128 and 127.
  function Delta(last: nat, next: nat): int {
    if next - last > 127 then next - last - 256 else if next - last < -128 then next - last + 256 else next - last
  }

  // A list of n scales: those that are coded, and a scale of zero after them when
  // they are fewer.
  function ListBits(last: nat, scales: seq<nat>, n: nat): seq<nat>
    decreases |scales|
  {
    if scales == [] then When(n > 0, SE(Delta(last, 0)))
    else SE(Delta(last, scales[0])) + ListBits(scales[0], scales[1..], if n > 0 then n - 1 else 0)
  }

  // The first six lists have sixteen scales, the others 64.
  function ListsBits(lists: seq<Option<seq<nat>>>, i: nat): seq<nat>
    decreases |lists| - i
  {
    if i >= |lists| then []
    else if lists[i] == None then Flag(0) + ListsBits(lists, i + 1)
    else Flag(1) + (ListBits(8, lists[i].value, if i < 6 then 16 else 64) + ListsBits(lists, i + 1))
  }

  function OffsetsBits(offsets: seq<int>): seq<nat> {
    if offsets == [] then [] else SE(offsets[0]) + OffsetsBits(offsets[1..])
  }

  function PocBits(p: Poc, offsets: seq<int>): seq<nat> {
    UE(p.log2_max_frame_num) + (UE(p.cnt_type)
    + if p.cnt_type == 0 then UE(p.log2_max_lsb)
      else if p.cnt_type == 1 then
        Flag(p.always_zero) + (SE(p.non_ref_pic) + (SE(p.top_to_bottom) + (UE(p.cycle) + OffsetsBits(offsets))))
      else [])
  }

  function FrameBits(f: Frame): seq<nat> {
    UE(f.num_ref_frames) + (Flag(f.gaps_allowed) + (UE(f.width_in_mbs) + (UE(f.height_in_map_units)
    + (Flag(f.mbs_only) + (When(f.mbs_only == 0, Flag(f.mb_adaptive)) + Flag(f.direct_8x8))))))
  }

  function CropBits(c: Crop): seq<nat> {
    Flag(c.flag) + When(c.flag == 1, UE(c.left) + (UE(c.right) + (UE(c.top) + UE(c.bottom))))
  }

  // An aspect ratio of 255 is Extended_SAR.
  function AspectBits(a: Aspect): seq<nat> {
    Flag(a.present)
    + (When(a.present == 1, U(8, a.idc) + When(a.idc == 255, U(16, a.sar_width) + U(16, a.sar_height)))
    + (Flag(a.overscan_present) + When(a.overscan_present == 1, Flag(a.overscan_appropriate))))
  }

  // Colour primaries, transfer characteristics and matrix coefficients.
  function ColourBits(t: Tail): seq<nat> {
    Flag(t.colour_present)
    + When(t.colour_present == 1, U(8, t.colour / 0x1_0000) + (U(8, t.colour / 0x100 % 0x100) + U(8, t.colour % 0x100)))
  }

  function LocBits(t: Tail): seq<nat> {
    Flag(t.loc_present) + When(t.loc_present == 1, UE(t.loc_top) + UE(t.loc_bottom))
  }

  function TimingBits(t: Tail): seq<nat> {
    Flag(t.timing_present) + When(t.timing_present == 1, U(32, t.units_in_tick) + (U(32, t.time_scale) + Flag(t.fixed_rate)))
  }

  // Up to the video_full_range_flag, and from there to the frame rate.
  function BeforeFlag(s: SPS, x: More): seq<nat> {
    HeadBits(s.head)
    + (When(WithChroma(s.head.profile_idc), ChromaBits(s.chroma) + When(s.chroma.scaling_matrix_present == 1, ListsBits(x.lists, 0)))
    + (PocBits(s.poc, x.offsets) + (FrameBits(s.frame) + (CropBits(s.crop) + (Flag(s.vui_present)
    + When(s.vui_present == 1, AspectBits(s.aspect) + (Flag(s.signal_present) + When(s.signal_present == 1, U(3, s.video_format)))))))))
  }

  function AfterFlag(s: SPS): seq<nat> {
    When(s.vui_present == 1, When(s.signal_present == 1, ColourBits(s.tail)) + (LocBits(s.tail) + TimingBits(s.tail)))
  }

  function SetBits(s: SPS, x: More): seq<nat> {
    BeforeFlag(s, x) + (When(s.vui_present == 1 && s.signal_present == 1, Flag(s.video_full_range_flag)) + AfterFlag(s))
  }

  // ---- Sets ----------------------------------------------------------------------------------

  predicate IsFlag(b: nat) {
    b <= 1
  }

  // Every code number below 2^32 - 1, and every signed number above -2^31.
  predicate IsUe(v: nat) {
    v < 0xFFFF_FFFF
  }

  predicate IsSe(v: int) {
    -0x8000_0000 < v < 0x8000_0000
  }

  // Fields that are not written are zero.
  predicate IsChroma(c: Chroma, lists: seq<Option<seq<nat>>>) {
    && IsUe(c.format_idc) && IsFlag(c.separate_colour_plane) && (c.format_idc != 3 ==> c.separate_colour_plane == 0)
    && IsUe(c.bit_depth_luma) && IsUe(c.bit_depth_chroma) && IsFlag(c.qpprime) && IsFlag(c.scaling_matrix_present)
    && |lists| == (if c.scaling_matrix_present == 0 then 0 else if c.format_idc == 3 then 12 else 8)
    && forall i :: 0 <= i < |lists| && lists[i].Some? ==> IsList(lists[i].value, if i < 6 then 16 else 64)
  }

  predicate IsList(scales: seq<nat>, n: nat) {
    |scales| <= n && forall j :: 0 <= j < |scales| ==> 0 < scales[j] < 0x100
  }

  predicate IsPoc(p: Poc, offsets: seq<int>) {
    && IsUe(p.log2_max_frame_num) && IsUe(p.cnt_type) && IsUe(p.log2_max_lsb) && (p.cnt_type != 0 ==> p.log2_max_lsb == 0)
    && IsFlag(p.always_zero) && IsSe(p.non_ref_pic) && IsSe(p.top_to_bottom) && IsUe(p.cycle)
    && (p.cnt_type != 1 ==> p.always_zero == 0 && p.non_ref_pic == 0 && p.top_to_bottom == 0 && p.cycle == 0)
    && |offsets| == p.cycle && forall i :: 0 <= i < |offsets| ==> IsSe(offsets[i])
  }

  predicate IsFrame(f: Frame) {
    && IsUe(f.num_ref_frames) && IsFlag(f.gaps_allowed) && IsUe(f.width_in_mbs) && IsUe(f.height_in_map_units)
    && IsFlag(f.mbs_only) && IsFlag(f.mb_adaptive) && (f.mbs_only == 1 ==> f.mb_adaptive == 0) && IsFlag(f.direct_8x8)
  }

  predicate IsCrop(c: Crop) {
    && IsFlag(c.flag) && IsUe(c.left) && IsUe(c.right) && IsUe(c.top) && IsUe(c.bottom)
    && (c.flag == 0 ==> c.left == 0 && c.right == 0 && c.top == 0 && c.bottom == 0)
  }

  predicate IsAspect(a: Aspect) {
    && IsFlag(a.present) && (a.present == 0 ==> a.idc == 0) && (a.idc != 255 ==> a.sar_width == 0 && a.sar_height == 0)
    && IsFlag(a.overscan_present) && IsFlag(a.overscan_appropriate) && (a.overscan_present == 0 ==> a.overscan_appropriate == 0)
  }

  predicate IsTail(t: Tail, signal: nat) {
    && IsFlag(t.colour_present) && t.colour < 0x100_0000 && (signal == 0 ==> t.colour_present == 0) && (t.colour_present == 0 ==> t.colour == 0)
    && IsFlag(t.loc_present) && IsUe(t.loc_top) && IsUe(t.loc_bottom) && (t.loc_present == 0 ==> t.loc_top == 0 && t.loc_bottom == 0)
    && IsFlag(t.timing_present) && IsFlag(t.fixed_rate)
    && (t.timing_present == 0 ==> t.units_in_tick == 0 && t.time_scale == 0 && t.fixed_rate == 0)
  }

  predicate IsVui(s: SPS) {
    && IsFlag(s.vui_present) && IsAspect(s.aspect) && IsFlag(s.signal_present) && s.video_format < 8 && IsFlag(s.video_full_range_flag)
    && (s.signal_present == 0 ==> s.video_format == 0 && s.video_full_range_flag == 0) && IsTail(s.tail, s.signal_present)
    && (s.vui_present == 0 ==> s.aspect == Aspect(0, 0, 0, 0, 0, 0) && s.signal_present == 0 && s.tail == Tail(0, 0, 0, 0, 0, 0, 0, 0, 0))
  }

  predicate IsSet(s: SPS, x: More) {
    && s.head.nal % 0x20 == 7 && IsUe(s.head.id)
    && (if WithChroma(s.head.profile_idc) then IsChroma(s.chroma, x.lists) else s.chroma == Chroma(0, 0, 0, 0, 0, 0) && x.lists == [])
    && IsPoc(s.poc, x.offsets) && IsFrame(s.frame) && IsCrop(s.crop) && IsVui(s)
  }

  // ---- Reading codes ----------------------------------------------------------------------------

  lemma Split(d: Data, at: nat, a: seq<nat>, b: seq<nat>)
    requires HasBits(d, at, a + b)
    ensures HasBits(d, at, a) && HasBits(d, at + |a|, b)
  {
    hide BitAt;
    forall i | 0 <= i < |a| ensures BitAt(d, at + i) == a[i] {
      assert (a + b)[i] == a[i];
    }
    forall i | 0 <= i < |b| ensures BitAt(d, at + |a| + i) == b[i] {
      assert at + |a| + i == at + (|a| + i) && (a + b)[|a| + i] == b[i];
    }
  }

  lemma TakeFlag(d: Data, at: nat, b: nat, rest: seq<nat>)
    requires HasBits(d, at, Flag(b) + rest)
    ensures BitAt(d, at) == b && HasBits(d, at + 1, rest)
  {
    hide BitAt;
    Split(d, at, Flag(b), rest);
    LastFlag(d, at, b);
  }

  lemma LastFlag(d: Data, at: nat, b: nat)
    requires HasBits(d, at, Flag(b))
    ensures BitAt(d, at) == b
  {
    hide BitAt;
    assert at + 0 == at && Flag(b)[0] == b;
  }

  lemma TakeU(d: Data, at: nat, n: nat, v: nat, rest: seq<nat>)
    requires v < Pow2(n) && HasBits(d, at, U(n, v) + rest)
    ensures Num(d, at, n) == v && HasBits(d, at + n, rest)
  {
    hide BitAt, Num, Pow2, BitsOf;
    Split(d, at, U(n, v), rest);
    NumBitsOf(d, at, v, n);
  }

  lemma LastU(d: Data, at: nat, n: nat, v: nat)
    requires v < Pow2(n) && HasBits(d, at, U(n, v))
    ensures Num(d, at, n) == v
  {
    hide BitAt, Num, Pow2, BitsOf;
    NumBitsOf(d, at, v, n);
  }

  lemma TakeUe(d: Data, at: nat, v: nat, rest: seq<nat>)
    requires IsUe(v) && HasBits(d, at, UE(v) + rest)
    ensures Ue(d, at) == v && UeEnd(d, at) == at + |UE(v)| && HasBits(d, UeEnd(d, at), rest)
  {
    hide HasBits, Ue, UeEnd, UeCode;
    Split(d, at, UE(v), rest);
    UeInvertsCode(d, at, v);
  }

  lemma LastUe(d: Data, at: nat, v: nat)
    requires IsUe(v) && HasBits(d, at, UE(v))
    ensures Ue(d, at) == v && UeEnd(d, at) == at + |UE(v)|
  {
    UeInvertsCode(d, at, v);
  }

  lemma TakeSe(d: Data, at: nat, v: int, rest: seq<nat>)
    requires IsSe(v) && HasBits(d, at, SE(v) + rest)
    ensures Se(d, at) == v && UeEnd(d, at) == at + |SE(v)| && HasBits(d, UeEnd(d, at), rest)
  {
    hide HasBits, Ue, UeEnd, UeCode, SeNumber;
    Split(d, at, SE(v), rest);
    SeInvertsCode(d, at, v);
  }

  lemma LastSe(d: Data, at: nat, v: int)
    requires IsSe(v) && HasBits(d, at, SE(v))
    ensures Se(d, at) == v && UeEnd(d, at) == at + |SE(v)|
  {
    SeInvertsCode(d, at, v);
  }

  // ---- Reading sections ---------------------------------------------------------------------------

  lemma HeadReads(d: Data, h: Head)
    requires IsUe(h.id) && HasBits(d, 0, HeadBits(h))
    ensures HeadAt(d) == h && HeadEnd(d) == |HeadBits(h)|
  {
    hide HasBits, Ue, UeEnd, UE, U, Num, Pow2;
    Pow2Values();
    TakeU(d, 0, 8, h.nal, U(8, h.profile_idc) + (U(8, h.profile_iop) + (U(8, h.level_idc) + UE(h.id))));
    TakeU(d, 8, 8, h.profile_idc, U(8, h.profile_iop) + (U(8, h.level_idc) + UE(h.id)));
    TakeU(d, 16, 8, h.profile_iop, U(8, h.level_idc) + UE(h.id));
    TakeU(d, 24, 8, h.level_idc, UE(h.id));
    LastUe(d, 32, h.id);
  }

  lemma ChromaReads(d: Data, at: nat, c: Chroma, lists: seq<Option<seq<nat>>>)
    requires IsChroma(c, lists) && HasBits(d, at, ChromaBits(c))
    ensures ChromaAt(d, at) == c && ChromaEnd(d, at) == at + |ChromaBits(c)|
  {
    hide HasBits, Ue, UeEnd, UE, BitAt, Flag;
    FlagSize();
    var last := Flag(c.qpprime) + Flag(c.scaling_matrix_present);
    var depths := UE(c.bit_depth_luma) + (UE(c.bit_depth_chroma) + last);
    var plane := When(c.format_idc == 3, Flag(c.separate_colour_plane));
    TakeUe(d, at, c.format_idc, plane + depths);
    var a := UeEnd(d, at);
    if c.format_idc == 3 {
      TakeFlag(d, a, c.separate_colour_plane, depths);
    } else {
      assert plane + depths == depths;
    }
    var b := if c.format_idc == 3 then a + 1 else a;
    TakeUe(d, b, c.bit_depth_luma, UE(c.bit_depth_chroma) + last);
    TakeUe(d, UeEnd(d, b), c.bit_depth_chroma, last);
    var e := UeEnd(d, UeEnd(d, b));
    TakeFlag(d, e, c.qpprime, Flag(c.scaling_matrix_present));
    LastFlag(d, e + 1, c.scaling_matrix_present);
  }

  lemma FlagSize()
    ensures forall b :: |Flag(b)| == 1
  {
  }

  // A scale that was coded comes back.
  lemma DeltaIs(last: nat, next: nat)
    requires last < 0x100 && next < 0x100
    ensures IsSe(Delta(last, next)) && Rem(Int32(last + Delta(last, next) + 256), 256) == next
  {
  }

  lemma ListBitsNext(last: nat, scales: seq<nat>, n: nat)
    requires scales != [] && n > 0
    ensures ListBits(last, scales, n) == SE(Delta(last, scales[0])) + ListBits(scales[0], scales[1..], n - 1)
  {
  }

  lemma {:induction false} StoppedList(d: Data, at: nat, last: int, j: nat, n: nat)
    requires j <= n
    ensures ScalingListEnd(d, at, last, 0, j, n) == at
    decreases n - j
  {
    if j < n {
      StoppedList(d, at, last, j + 1, n);
    }
  }

  lemma ListStep(d: Data, at: nat, last: nat, next: nat, j: nat, n: nat)
    requires j < n && last < 0x100 && next < 0x100 && Se(d, at) == Delta(last, next)
    ensures forall k: int :: k != 0 ==> ScalingListEnd(d, at, last, k, j, n) == ScalingListEnd(d, UeEnd(d, at), if next != 0 then next else last, next, j + 1, n)
  {
    hide Se, UeEnd, Rem, Int32, Delta;
    DeltaIs(last, next);
  }

  lemma {:induction false} ListReads(d: Data, at: nat, last: nat, scales: seq<nat>, j: nat, n: nat)
    requires j <= n && 0 < last < 0x100 && IsList(scales, n - j) && HasBits(d, at, ListBits(last, scales, n - j))
    ensures forall k: int :: k != 0 ==> ScalingListEnd(d, at, last, k, j, n) == at + |ListBits(last, scales, n - j)|
    decreases |scales|
  {
    hide HasBits, SE, Se, UeEnd, Delta;
    if scales == [] {
      if j < n {
        DeltaIs(last, 0);
        LastSe(d, at, Delta(last, 0));
        ListStep(d, at, last, 0, j, n);
        StoppedList(d, UeEnd(d, at), last, j + 1, n);
      }
    } else {
      var next := scales[0];
      ListBitsNext(last, scales, n - j);
      DeltaIs(last, next);
      TakeSe(d, at, Delta(last, next), ListBits(next, scales[1..], n - j - 1));
      ListStep(d, at, last, next, j, n);
      ListReads(d, UeEnd(d, at), next, scales[1..], j + 1, n);
    }
  }

  lemma {:induction false} ListsRead(d: Data, at: nat, lists: seq<Option<seq<nat>>>, i: nat)
    requires i <= |lists| && forall k :: 0 <= k < |lists| && lists[k].Some? ==> IsList(lists[k].value, if k < 6 then 16 else 64)
    requires HasBits(d, at, ListsBits(lists, i))
    ensures ListsEnd(d, at, i, |lists|) == at + |ListsBits(lists, i)|
    ensures NoLists(d, at, |lists| - i) <==> forall k :: i <= k < |lists| ==> lists[k] == None
    decreases |lists| - i
  {
    hide HasBits, BitAt, ScalingListEnd, ListBits, Flag, IsList;
    FlagSize();
    if i < |lists| {
      if lists[i] == None {
        TakeFlag(d, at, 0, ListsBits(lists, i + 1));
        ListsRead(d, at + 1, lists, i + 1);
      } else {
        var n := if i < 6 then 16 else 64;
        var bits := ListBits(8, lists[i].value, n);
        TakeFlag(d, at, 1, bits + ListsBits(lists, i + 1));
        Split(d, at + 1, bits, ListsBits(lists, i + 1));
        ListReads(d, at + 1, 8, lists[i].value, 0, n);
        ListsRead(d, at + 1 + |bits|, lists, i + 1);
      }
    }
  }

  lemma {:induction false} OffsetsRead(d: Data, at: nat, offsets: seq<int>)
    requires (forall i :: 0 <= i < |offsets| ==> IsSe(offsets[i])) && HasBits(d, at, OffsetsBits(offsets))
    ensures SkipSe(d, at, |offsets|) == at + |OffsetsBits(offsets)|
    decreases |offsets|
  {
    hide HasBits, UeEnd, SE, OffsetsBits, SkipSe;
    OffsetsNext(d, at, offsets);
    if offsets != [] {
      var rest := offsets[1..];
      TakeSe(d, at, offsets[0], OffsetsBits(rest));
      OffsetsRead(d, UeEnd(d, at), rest);
    }
  }

  lemma OffsetsNext(d: Data, at: nat, offsets: seq<int>)
    ensures OffsetsBits(offsets) == if offsets == [] then [] else SE(offsets[0]) + OffsetsBits(offsets[1..])
    ensures SkipSe(d, at, |offsets|) == if offsets == [] then at else SkipSe(d, UeEnd(d, at), |offsets| - 1)
  {
  }

  lemma PocReads(d: Data, at: nat, p: Poc, offsets: seq<int>)
    requires IsPoc(p, offsets) && HasBits(d, at, PocBits(p, offsets))
    ensures PocAt(d, at) == p && PocEnd(d, at) == at + |PocBits(p, offsets)|
  {
    hide HasBits, Ue, UeEnd, Se, UE, SE, BitAt, Flag, OffsetsBits, SkipSe;
    FlagSize();
    var cycle := UE(p.cycle) + OffsetsBits(offsets);
    var one := Flag(p.always_zero) + (SE(p.non_ref_pic) + (SE(p.top_to_bottom) + cycle));
    var rest := if p.cnt_type == 0 then UE(p.log2_max_lsb) else if p.cnt_type == 1 then one else [];
    TakeUe(d, at, p.log2_max_frame_num, UE(p.cnt_type) + rest);
    TakeUe(d, UeEnd(d, at), p.cnt_type, rest);
    var b := UeEnd(d, UeEnd(d, at));
    if p.cnt_type == 0 {
      LastUe(d, b, p.log2_max_lsb);
    } else if p.cnt_type == 1 {
      TakeFlag(d, b, p.always_zero, SE(p.non_ref_pic) + (SE(p.top_to_bottom) + cycle));
      TakeSe(d, b + 1, p.non_ref_pic, SE(p.top_to_bottom) + cycle);
      TakeSe(d, UeEnd(d, b + 1), p.top_to_bottom, cycle);
      var e := UeEnd(d, UeEnd(d, b + 1));
      TakeUe(d, e, p.cycle, OffsetsBits(offsets));
      OffsetsRead(d, UeEnd(d, e), offsets);
    }
  }

  lemma FrameReads(d: Data, at: nat, f: Frame)
    requires IsFrame(f) && HasBits(d, at, FrameBits(f))
    ensures FrameAt(d, at) == f && FrameEnd(d, at) == at + |FrameBits(f)|
  {
    hide HasBits, Ue, UeEnd, UE, BitAt, Flag;
    FlagSize();
    var last := When(f.mbs_only == 0, Flag(f.mb_adaptive)) + Flag(f.direct_8x8);
    var size := UE(f.width_in_mbs) + (UE(f.height_in_map_units) + (Flag(f.mbs_only) + last));
    TakeUe(d, at, f.num_ref_frames, Flag(f.gaps_allowed) + size);
    TakeFlag(d, UeEnd(d, at), f.gaps_allowed, size);
    var a := UeEnd(d, at) + 1;
    TakeUe(d, a, f.width_in_mbs, UE(f.height_in_map_units) + (Flag(f.mbs_only) + last));
    TakeUe(d, UeEnd(d, a), f.height_in_map_units, Flag(f.mbs_only) + last);
    var c := UeEnd(d, UeEnd(d, a));
    TakeFlag(d, c, f.mbs_only, last);
    if f.mbs_only == 0 {
      TakeFlag(d, c + 1, f.mb_adaptive, Flag(f.direct_8x8));
      LastFlag(d, c + 2, f.direct_8x8);
    } else {
      assert last == Flag(f.direct_8x8);
      LastFlag(d, c + 1, f.direct_8x8);
    }
  }

  lemma CropReads(d: Data, at: nat, c: Crop)
    requires IsCrop(c) && HasBits(d, at, CropBits(c))
    ensures CropAt(d, at) == c && CropEnd(d, at) == at + |CropBits(c)|
  {
    hide HasBits, Ue, UeEnd, UE, BitAt, Flag;
    FlagSize();
    TakeFlag(d, at, c.flag, When(c.flag == 1, UE(c.left) + (UE(c.right) + (UE(c.top) + UE(c.bottom)))));
    if c.flag == 1 {
      TakeUe(d, at + 1, c.left, UE(c.right) + (UE(c.top) + UE(c.bottom)));
      var a := UeEnd(d, at + 1);
      TakeUe(d, a, c.right, UE(c.top) + UE(c.bottom));
      TakeUe(d, UeEnd(d, a), c.top, UE(c.bottom));
      LastUe(d, UeEnd(d, UeEnd(d, a)), c.bottom);
    }
  }

  lemma AspectReads(d: Data, at: nat, a: Aspect)
    requires IsAspect(a) && HasBits(d, at, AspectBits(a))
    ensures AspectAt(d, at) == a && AspectEnd(d, at) == at + |AspectBits(a)|
  {
    hide HasBits, Num, U, BitAt, Flag, Pow2;
    FlagSize();
    Pow2Values();
    var overscan := Flag(a.overscan_present) + When(a.overscan_present == 1, Flag(a.overscan_appropriate));
    var sar := U(16, a.sar_width) + U(16, a.sar_height);
    var idc := U(8, a.idc) + When(a.idc == 255, sar);
    TakeFlag(d, at, a.present, When(a.present == 1, idc) + overscan);
    var o := at + 1 + |When(a.present == 1, idc)|;
    Split(d, at + 1, When(a.present == 1, idc), overscan);
    if a.present == 1 {
      TakeU(d, at + 1, 8, a.idc, When(a.idc == 255, sar));
      if a.idc == 255 {
        TakeU(d, at + 9, 16, a.sar_width, U(16, a.sar_height));
        LastU(d, at + 25, 16, a.sar_height);
      }
    }
    assert o == OverscanAt(d, at);
    TakeFlag(d, o, a.overscan_present, When(a.overscan_present == 1, Flag(a.overscan_appropriate)));
    if a.overscan_present == 1 {
      LastFlag(d, o + 1, a.overscan_appropriate);
    }
  }

  lemma ColourReads(d: Data, at: nat, t: Tail)
    requires IsTail(t, 1) && HasBits(d, at, ColourBits(t))
    ensures BitAt(d, at) == t.colour_present && (t.colour_present == 1 ==> Num(d, at + 1, 24) == t.colour)
    ensures ColourEnd(d, at, 1) == at + |ColourBits(t)|
  {
    hide HasBits, Num, U, BitAt, Flag, Pow2;
    FlagSize();
    Pow2Values();
    var a, b, c := t.colour / 0x1_0000, t.colour / 0x100 % 0x100, t.colour % 0x100;
    TakeFlag(d, at, t.colour_present, When(t.colour_present == 1, U(8, a) + (U(8, b) + U(8, c))));
    if t.colour_present == 1 {
      TakeU(d, at + 1, 8, a, U(8, b) + U(8, c));
      TakeU(d, at + 9, 8, b, U(8, c));
      LastU(d, at + 17, 8, c);
      NumSplit(d, at + 1, 16, 8);
      NumSplit(d, at + 1, 8, 8);
    }
  }

  lemma LocReads(d: Data, at: nat, t: Tail, signal: nat)
    requires IsTail(t, signal) && HasBits(d, at, LocBits(t))
    ensures BitAt(d, at) == t.loc_present && (t.loc_present == 1 ==> Ue(d, at + 1) == t.loc_top && Ue(d, UeEnd(d, at + 1)) == t.loc_bottom)
    ensures LocEnd(d, at) == at + |LocBits(t)|
  {
    hide HasBits, Ue, UeEnd, UE, BitAt, Flag;
    FlagSize();
    TakeFlag(d, at, t.loc_present, When(t.loc_present == 1, UE(t.loc_top) + UE(t.loc_bottom)));
    if t.loc_present == 1 {
      TakeUe(d, at + 1, t.loc_top, UE(t.loc_bottom));
      LastUe(d, UeEnd(d, at + 1), t.loc_bottom);
    }
  }

  lemma TimingReads(d: Data, at: nat, t: Tail, signal: nat)
    requires IsTail(t, signal) && HasBits(d, at, TimingBits(t))
    ensures BitAt(d, at) == t.timing_present
    ensures t.timing_present == 1 ==> Num(d, at + 1, 32) == t.units_in_tick && Num(d, at + 33, 32) == t.time_scale && BitAt(d, at + 65) == t.fixed_rate
    ensures |TimingBits(t)| == if t.timing_present == 1 then 66 else 1
  {
    hide HasBits, Num, U, BitAt, Flag, Pow2;
    FlagSize();
    Pow2Values();
    TakeFlag(d, at, t.timing_present, When(t.timing_present == 1, U(32, t.units_in_tick) + (U(32, t.time_scale) + Flag(t.fixed_rate))));
    if t.timing_present == 1 {
      TakeU(d, at + 1, 32, t.units_in_tick, U(32, t.time_scale) + Flag(t.fixed_rate));
      TakeU(d, at + 33, 32, t.time_scale, Flag(t.fixed_rate));
      LastFlag(d, at + 65, t.fixed_rate);
    }
  }

  // ---- Reading a set ---------------------------------------------------------------------------------

  lemma SameProfiles(p: byte)
    ensures WithChroma(p) <==> HighProfile(p)
  {
  }

  function ListsOf(s: SPS, x: More): seq<nat> {
    When(s.chroma.scaling_matrix_present == 1, ListsBits(x.lists, 0))
  }

  function ChromaPart(s: SPS, x: More): seq<nat> {
    When(WithChroma(s.head.profile_idc), ChromaBits(s.chroma) + ListsOf(s, x))
  }

  function VuiPart(s: SPS): seq<nat> {
    When(s.vui_present == 1, AspectBits(s.aspect) + (Flag(s.signal_present) + When(s.signal_present == 1, U(3, s.video_format))))
  }

  predicate SomeList(x: More) {
    exists i :: 0 <= i < |x.lists| && x.lists[i].Some?
  }

  lemma StartReads(d: Data, s: SPS, x: More, rest: seq<nat>)
    requires IsSet(s, x) && HasBits(d, 0, HeadBits(s.head) + (ChromaPart(s, x) + rest))
    ensures HeadAt(d) == s.head && PocStart(d) == |HeadBits(s.head)| + |ChromaPart(s, x)| && HasBits(d, PocStart(d), rest)
    ensures HighProfile(s.head.profile_idc) ==> ChromaAt(d, HeadEnd(d)) == s.chroma
    ensures !HighProfile(s.head.profile_idc) ==> s.chroma == Chroma(0, 0, 0, 0, 0, 0)
    ensures HasScalingList(d) <==> SomeList(x)
  {
    hide HasBits, HeadBits, ChromaBits, HeadAt, HeadEnd, ChromaAt, ChromaEnd, ListsEnd, ListsBits, BitAt, WithChroma, HighProfile,
      IsPoc, IsFrame, IsCrop, IsVui, NoLists;
    SameProfiles(s.head.profile_idc);
    var a := |HeadBits(s.head)|;
    Split(d, 0, HeadBits(s.head), ChromaPart(s, x) + rest);
    HeadReads(d, s.head);
    Split(d, a, ChromaPart(s, x), rest);
    if WithChroma(s.head.profile_idc) {
      Split(d, a, ChromaBits(s.chroma), ListsOf(s, x));
      ChromaReads(d, a, s.chroma, x.lists);
      if s.chroma.scaling_matrix_present == 1 {
        ListsRead(d, a + |ChromaBits(s.chroma)|, x.lists, 0);
      }
    }
  }

  lemma MiddleReads(d: Data, s: SPS, x: More, rest: seq<nat>)
    requires IsSet(s, x) && HasBits(d, PocStart(d), PocBits(s.poc, x.offsets) + (FrameBits(s.frame) + (CropBits(s.crop) + rest)))
    ensures PocAt(d, PocStart(d)) == s.poc && FrameAt(d, FrameStart(d)) == s.frame && CropAt(d, CropStart(d)) == s.crop
    ensures VuiStart(d) == PocStart(d) + |PocBits(s.poc, x.offsets)| + |FrameBits(s.frame)| + |CropBits(s.crop)| && HasBits(d, VuiStart(d), rest)
  {
    hide HasBits, PocStart, PocBits, PocAt, PocEnd, FrameBits, FrameAt, FrameEnd, CropBits, CropAt, CropEnd, WithChroma, IsChroma, IsVui;
    Split(d, PocStart(d), PocBits(s.poc, x.offsets), FrameBits(s.frame) + (CropBits(s.crop) + rest));
    PocReads(d, PocStart(d), s.poc, x.offsets);
    Split(d, FrameStart(d), FrameBits(s.frame), CropBits(s.crop) + rest);
    FrameReads(d, FrameStart(d), s.frame);
    Split(d, CropStart(d), CropBits(s.crop), rest);
    CropReads(d, CropStart(d), s.crop);
  }

  lemma VuiReads(d: Data, s: SPS, rest: seq<nat>)
    requires IsVui(s) && HasBits(d, VuiStart(d), Flag(s.vui_present) + (VuiPart(s) + rest))
    ensures BitAt(d, VuiStart(d)) == s.vui_present
    ensures s.vui_present == 1 ==>
              && AspectAt(d, VuiStart(d) + 1) == s.aspect && BitAt(d, SignalStart(d)) == s.signal_present
              && (s.signal_present == 1 ==> Num(d, SignalStart(d) + 1, 3) == s.video_format)
    ensures var at := VuiStart(d) + 1 + |VuiPart(s)|;
            && HasBits(d, at, rest) && (s.vui_present == 1 ==> at == if s.signal_present == 1 then FlagPos(d) else SignalStart(d) + 1)
  {
    hide HasBits, VuiStart, AspectBits, AspectAt, AspectEnd, U, Num, BitAt, Flag, Pow2;
    FlagSize();
    Pow2Values();
    var format := When(s.signal_present == 1, U(3, s.video_format));
    TakeFlag(d, VuiStart(d), s.vui_present, VuiPart(s) + rest);
    Split(d, VuiStart(d) + 1, VuiPart(s), rest);
    if s.vui_present == 1 {
      Split(d, VuiStart(d) + 1, AspectBits(s.aspect), Flag(s.signal_present) + format);
      AspectReads(d, VuiStart(d) + 1, s.aspect);
      TakeFlag(d, SignalStart(d), s.signal_present, format);
      if s.signal_present == 1 {
        LastU(d, SignalStart(d) + 1, 3, s.video_format);
      }
    }
  }

  lemma TailReads(d: Data, at: nat, s: SPS)
    requires IsVui(s) && s.vui_present == 1 && HasBits(d, at, AfterFlag(s))
    ensures TailAt(d, at, s.signal_present) == s.tail && TailEnd(d, at, s.signal_present) == at + |AfterFlag(s)|
  {
    hide HasBits, ColourBits, LocBits, TimingBits, BitAt, Num, Ue, UeEnd, LocEnd;
    var t, colour := s.tail, When(s.signal_present == 1, ColourBits(s.tail));
    Split(d, at, colour, LocBits(t) + TimingBits(t));
    if s.signal_present == 1 {
      ColourReads(d, at, t);
    }
    var a := ColourEnd(d, at, s.signal_present);
    Split(d, a, LocBits(t), TimingBits(t));
    LocReads(d, a, t, s.signal_present);
    TimingReads(d, LocEnd(d, a), t, s.signal_present);
  }

  // The parts of a set, one after the other.
  lemma Nested(s: SPS, x: More)
    ensures SetBits(s, x) ==
            HeadBits(s.head) + (ChromaPart(s, x) + (PocBits(s.poc, x.offsets) + (FrameBits(s.frame) + (CropBits(s.crop)
            + (Flag(s.vui_present) + (VuiPart(s) + (When(s.vui_present == 1 && s.signal_present == 1, Flag(s.video_full_range_flag)) + AfterFlag(s))))))))
    ensures |BeforeFlag(s, x)| == |HeadBits(s.head)| + |ChromaPart(s, x)| + |PocBits(s.poc, x.offsets)| + |FrameBits(s.frame)| + |CropBits(s.crop)| + 1 + |VuiPart(s)|
  {
    hide HeadBits, ChromaBits, ListsBits, PocBits, FrameBits, CropBits, AspectBits, U, AfterFlag, WithChroma;
    var a, b, c, e, f, g, h := HeadBits(s.head), ChromaPart(s, x), PocBits(s.poc, x.offsets), FrameBits(s.frame), CropBits(s.crop), Flag(s.vui_present), VuiPart(s);
    var rest := When(s.vui_present == 1 && s.signal_present == 1, Flag(s.video_full_range_flag)) + AfterFlag(s);
    assert BeforeFlag(s, x) == a + (b + (c + (e + (f + (g + h)))));
    Joined(a, b, c, e, f, g, h, rest);
  }

  lemma Joined(a: seq<nat>, b: seq<nat>, c: seq<nat>, e: seq<nat>, f: seq<nat>, g: seq<nat>, h: seq<nat>, rest: seq<nat>)
    ensures (a + (b + (c + (e + (f + (g + h)))))) + rest == a + (b + (c + (e + (f + (g + (h + rest))))))
  {
    assert g + (h + rest) == (g + h) + rest;
    assert f + ((g + h) + rest) == (f + (g + h)) + rest;
    assert e + ((f + (g + h)) + rest) == (e + (f + (g + h))) + rest;
    assert c + ((e + (f + (g + h))) + rest) == (c + (e + (f + (g + h)))) + rest;
    assert b + ((c + (e + (f + (g + h)))) + rest) == (b + (c + (e + (f + (g + h))))) + rest;
  }

  // DecodeSPS inverts the syntax: a unit that starts with the bits of a set is
  // decoded to it, whatever follows.
  lemma SetReads(d: Data, s: SPS, x: More)
    requires IsSet(s, x) && HasBits(d, 0, SetBits(s, x))
    ensures Decoded(d) == Some(s)
    ensures HasScalingList(d) <==> SomeList(x)
    ensures s.vui_present == 1 && s.signal_present == 1 ==> HasFlag(d) && FlagPos(d) == |BeforeFlag(s, x)| && BitAt(d, FlagPos(d)) == s.video_full_range_flag
    ensures s.vui_present == 0 || s.signal_present == 0 ==> !HasFlag(d)
  {
    hide HasBits, HeadBits, ChromaPart, PocBits, FrameBits, CropBits, VuiPart, AfterFlag, BeforeFlag, Flag, HeadAt, ChromaAt, HeadEnd, HighProfile,
      PocStart, PocAt, FrameStart, FrameAt, CropStart, CropAt, VuiStart, AspectAt, SignalStart, TailAt, TailEnd, BitAt, Num, IsChroma, IsPoc, IsFrame, IsCrop,
      HasScalingList, SomeList, WithChroma, SetBits;
    var full := s.vui_present == 1 && s.signal_present == 1;
    var last := When(full, Flag(s.video_full_range_flag)) + AfterFlag(s);
    var vui := Flag(s.vui_present) + (VuiPart(s) + last);
    Nested(s, x);
    StartReads(d, s, x, PocBits(s.poc, x.offsets) + (FrameBits(s.frame) + (CropBits(s.crop) + vui)));
    MiddleReads(d, s, x, vui);
    VuiReads(d, s, last);
    var at := VuiStart(d) + 1 + |VuiPart(s)|;
    assert at == |BeforeFlag(s, x)|;
    if full {
      TakeFlag(d, at, s.video_full_range_flag, AfterFlag(s));
      TailReads(d, at + 1, s);
      Inside(d, at + 1, AfterFlag(s));
    } else if s.vui_present == 1 {
      assert last == AfterFlag(s);
      TailReads(d, at, s);
      Inside(d, at, AfterFlag(s));
    } else {
      Inside(d, at, last);
    }
  }

  lemma Inside(d: Data, at: nat, code: seq<nat>)
    requires HasBits(d, at, code)
    ensures at + |code| <= 8 * |d|
  {
  }

  // ---- What FixPixFmt makes of it -----------------------------------------------------------------------

  // FixPixFmt writes the set with a full range flag of zero in place of the one
  // that was there, and leaves the bits after it; with a scaling list it leaves
  // everything.
  lemma SetFixed(d: Data, s: SPS, x: More)
    requires IsSet(s, x) && HasBits(d, 0, SetBits(s, x))
    ensures SomeList(x) ==> Fixed(d) == d
    ensures !SomeList(x) ==>
              && IsSet(s.(video_full_range_flag := 0), x) && |SetBits(s.(video_full_range_flag := 0), x)| == |SetBits(s, x)|
              && HasBits(Fixed(d), 0, SetBits(s.(video_full_range_flag := 0), x))
              && forall k :: k >= |SetBits(s, x)| ==> BitAt(Fixed(d), k) == BitAt(d, k)
  {
    hide HasBits, BeforeFlag, AfterFlag, BitAt, HasScalingList, HasFlag, FlagPos, ClearBit, SetBits, SomeList, IsSet;
    SetReads(d, s, x);
    if !SomeList(x) {
      StillSet(s, x);
      var full := s.vui_present == 1 && s.signal_present == 1 && s.video_full_range_flag == 1;
      if full {
        var q := |BeforeFlag(s, x)|;
        SetBitInside(d, q);
        ClearBitIsLocal(d, q);
        OneBitLess(d, Fixed(d), s, x);
      } else {
        assert Fixed(d) == d;
        assert s.(video_full_range_flag := 0) == s by { NoFlag(s, x); }
      }
    }
  }

  lemma NoFlag(s: SPS, x: More)
    requires IsSet(s, x)
    ensures s.video_full_range_flag == 0 || (s.vui_present == 1 && s.signal_present == 1 && s.video_full_range_flag == 1)
  {
    hide IsChroma, IsPoc, IsFrame, IsCrop, IsAspect, IsTail, WithChroma;
  }

  lemma StillSet(s: SPS, x: More)
    requires IsSet(s, x)
    ensures var t := s.(video_full_range_flag := 0); IsSet(t, x) && BeforeFlag(t, x) == BeforeFlag(s, x) && AfterFlag(t) == AfterFlag(s)
    ensures |SetBits(s.(video_full_range_flag := 0), x)| == |SetBits(s, x)|
  {
    hide IsChroma, IsPoc, IsFrame, IsCrop, IsAspect, IsTail, WithChroma, HeadBits, ChromaBits, ListsBits, PocBits, FrameBits, CropBits, AspectBits, U,
      ColourBits, LocBits, TimingBits;
  }

  lemma OneBitLess(d: Data, e: Data, s: SPS, x: More)
    requires IsSet(s, x) && s.vui_present == 1 && s.signal_present == 1 && HasBits(d, 0, SetBits(s, x))
    requires SameBut(d, e, |BeforeFlag(s, x)|) && BitAt(e, |BeforeFlag(s, x)|) == 0
    ensures HasBits(e, 0, SetBits(s.(video_full_range_flag := 0), x))
    ensures |BeforeFlag(s, x)| < |SetBits(s, x)|
  {
    hide BeforeFlag, AfterFlag, BitAt, IsSet;
    StillSet(s, x);
    var a, b, q := SetBits(s, x), SetBits(s.(video_full_range_flag := 0), x), |BeforeFlag(s, x)|;
    assert a == BeforeFlag(s, x) + ([s.video_full_range_flag] + AfterFlag(s)) && b == BeforeFlag(s, x) + ([0] + AfterFlag(s));
    forall i | 0 <= i < |b| ensures BitAt(e, 0 + i) == b[i] {
      assert BitAt(d, 0 + i) == a[i];
      assert i != q ==> a[i] == b[i];
    }
  }

  // ---- Bytes ----------------------------------------------------------------------------------------------

  predicate AllBits(bits: seq<nat>) {
    forall i :: 0 <= i < |bits| ==> bits[i] <= 1
  }

  // The bits in bytes, with zeros at the end of the last.
  function Pack(bits: seq<nat>): Data
    requires AllBits(bits)
    decreases |bits|
  {
    if bits == [] then [] else [ByteOf(bits)] + Pack(if |bits| > 8 then bits[8..] else [])
  }

  function BitOf(bits: seq<nat>, i: nat): (b: nat)
    requires AllBits(bits)
    ensures b <= 1
  {
    if i < |bits| then bits[i] else 0
  }

  // The number in the first n bits.
  function Value(bits: seq<nat>, n: nat): (v: nat)
    requires AllBits(bits)
    ensures v < Pow2(n)
  {
    if n == 0 then 0 else 2 * Value(bits, n - 1) + BitOf(bits, n - 1)
  }

  function ByteOf(bits: seq<nat>): byte
    requires AllBits(bits)
  {
    Pow2Values();
    Value(bits, 8)
  }

  lemma {:induction false} ValueShr(bits: seq<nat>, n: nat, k: nat)
    requires AllBits(bits) && k <= n
    ensures Shr(Value(bits, n), k) == Value(bits, n - k)
  {
    if k > 0 {
      ValueShr(bits, n, k - 1);
    }
  }

  lemma BitOfByte(bits: seq<nat>, j: nat)
    requires AllBits(bits) && j < 8
    ensures Shr(ByteOf(bits), 7 - j) % 2 == BitOf(bits, j)
  {
    hide BitOf;
    ValueShr(bits, 8, 7 - j);
    assert Value(bits, j + 1) == 2 * Value(bits, j) + BitOf(bits, j);
  }

  lemma {:induction false} PackHas(bits: seq<nat>, i: nat)
    requires AllBits(bits)
    ensures BitAt(Pack(bits), i) == BitOf(bits, i)
    decreases |bits|
  {
    hide ByteOf, Shr;
    if bits == [] {
      ShrZero(7 - i % 8);
    } else {
      var rest := if |bits| > 8 then bits[8..] else [];
      if i < 8 {
        BitOfByte(bits, i);
      } else {
        PackHas(rest, i - 8);
        assert BitOf(rest, i - 8) == BitOf(bits, i) && ByteAt(Pack(bits), i / 8) == ByteAt(Pack(rest), (i - 8) / 8);
      }
    }
  }

  lemma {:induction false} PackSize(bits: seq<nat>)
    requires AllBits(bits)
    ensures |Pack(bits)| == (|bits| + 7) / 8
    decreases |bits|
  {
    if |bits| > 8 {
      PackSize(bits[8..]);
    }
  }

  lemma Packed(bits: seq<nat>)
    requires AllBits(bits)
    ensures HasBits(Pack(bits), 0, bits)
  {
    hide BitAt, Pack;
    PackSize(bits);
    forall i | 0 <= i < |bits| ensures BitAt(Pack(bits), 0 + i) == bits[i] {
      PackHas(bits, i);
    }
  }

  // Bytes with the same bits are the same.
  lemma SameBytes(d: Data, e: Data)
    requires |d| == |e| && forall k :: 0 <= k < 8 * |d| ==> BitAt(d, k) == BitAt(e, k)
    ensures d == e
  {
    hide BitAt, Num;
    forall i | 0 <= i < |d| ensures d[i] == e[i] {
      NumByte(d, i);
      NumByte(e, i);
      NumAgree(d, e, 8 * i, 8);
    }
  }

  // The rest is packed alike after as many bits.
  lemma SameRest(a: seq<nat>, b: seq<nat>, rest: seq<nat>, f: Data)
    requires AllBits(a + rest) && AllBits(b + rest) && |a| == |b| && |f| == |Pack(a + rest)| && HasBits(f, 0, b)
    requires forall k :: k >= |a| ==> BitAt(f, k) == BitAt(Pack(a + rest), k)
    ensures f == Pack(b + rest)
  {
    hide BitAt, Pack;
    PackSize(a + rest);
    PackSize(b + rest);
    forall k | 0 <= k < 8 * |f| ensures BitAt(f, k) == BitAt(Pack(b + rest), k) {
      PackHas(a + rest, k);
      PackHas(b + rest, k);
      if k < |a| {
        assert BitAt(f, 0 + k) == b[k];
      }
    }
    SameBytes(f, Pack(b + rest));
  }

  // The codes are bits, so a set can be written.
  lemma CodesAreBits(v: nat, n: nat)
    ensures AllBits(U(n, v)) && AllBits(UE(v))
  {
  }

  lemma Join(a: seq<nat>, b: seq<nat>)
    requires AllBits(a) && AllBits(b)
    ensures AllBits(a + b)
  {
  }

  lemma {:induction false} ListIsBits(last: nat, scales: seq<nat>, n: nat)
    ensures AllBits(ListBits(last, scales, n))
    decreases |scales|
  {
    hide UeCode, Delta, SeNumber;
    CodesAreBits(SeNumber(Delta(last, if scales == [] then 0 else scales[0])), 0);
    if scales != [] {
      ListIsBits(scales[0], scales[1..], if n > 0 then n - 1 else 0);
    }
  }

  lemma {:induction false} ListsAreBits(lists: seq<Option<seq<nat>>>, i: nat)
    ensures AllBits(ListsBits(lists, i))
    decreases |lists| - i
  {
    hide ListBits;
    if i < |lists| {
      ListsAreBits(lists, i + 1);
      if lists[i].Some? {
        ListIsBits(8, lists[i].value, if i < 6 then 16 else 64);
      }
    }
  }

  lemma {:induction false} OffsetsAreBits(offsets: seq<int>)
    ensures AllBits(OffsetsBits(offsets))
    decreases |offsets|
  {
    hide UeCode, SeNumber;
    if offsets != [] {
      CodesAreBits(SeNumber(offsets[0]), 0);
      OffsetsAreBits(offsets[1..]);
    }
  }

  lemma HeadIsBits(h: Head)
    ensures AllBits(HeadBits(h))
  {
    hide BitsOf, UeCode;
    CodesAreBits(h.nal, 8);
    CodesAreBits(h.profile_idc, 8);
    CodesAreBits(h.profile_iop, 8);
    CodesAreBits(h.level_idc, 8);
    CodesAreBits(h.id, 8);
  }

  lemma ChromaIsBits(s: SPS, x: More)
    requires IsChroma(s.chroma, x.lists)
    ensures AllBits(ChromaBits(s.chroma) + ListsOf(s, x))
  {
    hide BitsOf, UeCode, ListsBits;
    var c := s.chroma;
    CodesAreBits(c.format_idc, 0);
    CodesAreBits(c.bit_depth_luma, 0);
    CodesAreBits(c.bit_depth_chroma, 0);
    ListsAreBits(x.lists, 0);
  }

  lemma PocIsBits(p: Poc, offsets: seq<int>)
    requires IsPoc(p, offsets)
    ensures AllBits(PocBits(p, offsets))
  {
    hide BitsOf, UeCode, SeNumber, OffsetsBits;
    CodesAreBits(p.log2_max_frame_num, 0);
    CodesAreBits(p.cnt_type, 0);
    CodesAreBits(p.log2_max_lsb, 0);
    CodesAreBits(SeNumber(p.non_ref_pic), 0);
    CodesAreBits(SeNumber(p.top_to_bottom), 0);
    CodesAreBits(p.cycle, 0);
    OffsetsAreBits(offsets);
  }

  lemma FrameIsBits(f: Frame, c: Crop)
    requires IsFrame(f) && IsCrop(c)
    ensures AllBits(FrameBits(f)) && AllBits(CropBits(c))
  {
    hide BitsOf, UeCode;
    CodesAreBits(f.num_ref_frames, 0);
    CodesAreBits(f.width_in_mbs, 0);
    CodesAreBits(f.height_in_map_units, 0);
    CodesAreBits(c.left, 0);
    CodesAreBits(c.right, 0);
    CodesAreBits(c.top, 0);
    CodesAreBits(c.bottom, 0);
  }

  lemma VuiIsBits(s: SPS)
    requires IsVui(s)
    ensures AllBits(VuiPart(s))
  {
    hide AllBits, AspectBits, U, IsTail, IsAspect;
    NoBits();
    AspectIsBits(s.aspect);
    CodesAreBits(s.video_format, 3);
    OneBit(s.signal_present);
    Join(Flag(s.signal_present), When(s.signal_present == 1, U(3, s.video_format)));
    Join(AspectBits(s.aspect), Flag(s.signal_present) + When(s.signal_present == 1, U(3, s.video_format)));
  }

  lemma AspectIsBits(a: Aspect)
    requires IsAspect(a)
    ensures AllBits(AspectBits(a))
  {
    hide BitsOf;
    CodesAreBits(a.idc, 8);
    CodesAreBits(a.sar_width, 16);
    CodesAreBits(a.sar_height, 16);
  }

  lemma TailIsBits(s: SPS)
    requires IsVui(s)
    ensures AllBits(AfterFlag(s))
  {
    hide AllBits, ColourBits, LocBits, TimingBits, IsAspect;
    NoBits();
    ColourIsBits(s.tail, s.signal_present);
    TimingIsBits(s.tail, s.signal_present);
    Join(LocBits(s.tail), TimingBits(s.tail));
    Join(When(s.signal_present == 1, ColourBits(s.tail)), LocBits(s.tail) + TimingBits(s.tail));
  }

  lemma ColourIsBits(t: Tail, signal: nat)
    requires IsTail(t, signal)
    ensures AllBits(ColourBits(t))
  {
    hide BitsOf, UeCode;
    CodesAreBits(t.colour / 0x1_0000, 8);
    CodesAreBits(t.colour / 0x100 % 0x100, 8);
    CodesAreBits(t.colour % 0x100, 8);
  }

  lemma TimingIsBits(t: Tail, signal: nat)
    requires IsTail(t, signal)
    ensures AllBits(LocBits(t)) && AllBits(TimingBits(t))
  {
    hide BitsOf, UeCode;
    CodesAreBits(t.loc_top, 0);
    CodesAreBits(t.loc_bottom, 0);
    CodesAreBits(t.units_in_tick, 32);
    CodesAreBits(t.time_scale, 32);
  }

  lemma SetIsBits(s: SPS, x: More)
    requires IsSet(s, x)
    ensures AllBits(SetBits(s, x))
  {
    hide HeadBits, ChromaBits, ListsBits, ListsOf, PocBits, FrameBits, CropBits, VuiPart, AfterFlag, WithChroma, SetBits, AllBits;
    var last := When(s.vui_present == 1 && s.signal_present == 1, Flag(s.video_full_range_flag)) + AfterFlag(s);
    Nested(s, x);
    HeadIsBits(s.head);
    NoBits();
    if WithChroma(s.head.profile_idc) {
      ChromaIsBits(s, x);
    }
    PocIsBits(s.poc, x.offsets);
    FrameIsBits(s.frame, s.crop);
    VuiIsBits(s);
    TailIsBits(s);
    OneBit(s.vui_present);
    OneBit(s.video_full_range_flag);
    Join(When(s.vui_present == 1 && s.signal_present == 1, Flag(s.video_full_range_flag)), AfterFlag(s));
    Join(VuiPart(s), last);
    Join(Flag(s.vui_present), VuiPart(s) + last);
    var vui := Flag(s.vui_present) + (VuiPart(s) + last);
    Join(CropBits(s.crop), vui);
    Join(FrameBits(s.frame), CropBits(s.crop) + vui);
    Join(PocBits(s.poc, x.offsets), FrameBits(s.frame) + (CropBits(s.crop) + vui));
    var rest := PocBits(s.poc, x.offsets) + (FrameBits(s.frame) + (CropBits(s.crop) + vui));
    Join(ChromaPart(s, x), rest);
    Join(HeadBits(s.head), ChromaPart(s, x) + rest);
  }

  lemma NoBits()
    ensures AllBits([])
  {
  }

  lemma OneBit(b: nat)
    requires IsFlag(b)
    ensures AllBits(Flag(b))
  {
  }

  // A set as a NAL unit: its bits, then any others, such as the rest of the VUI
  // and the trailing bits.
  function Print(s: SPS, x: More, rest: seq<nat>): Data
    requires IsSet(s, x) && AllBits(rest)
  {
    SetIsBits(s, x);
    Join(SetBits(s, x), rest);
    Pack(SetBits(s, x) + rest)
  }

  // Decoding what was printed gives the set.
  lemma PrintDecodes(s: SPS, x: More, rest: seq<nat>)
    requires IsSet(s, x) && AllBits(rest)
    ensures Decoded(Print(s, x, rest)) == Some(s)
    ensures HasScalingList(Print(s, x, rest)) <==> SomeList(x)
  {
    hide Decoded, HasScalingList, SetBits, IsSet, Pack, HasBits, SomeList;
    SetIsBits(s, x);
    Join(SetBits(s, x), rest);
    Packed(SetBits(s, x) + rest);
    Split(Print(s, x, rest), 0, SetBits(s, x), rest);
    SetReads(Print(s, x, rest), s, x);
  }

  // Fixing it gives the print of the set without the full range flag, unless a
  // scaling list is present.
  lemma PrintFixed(s: SPS, x: More, rest: seq<nat>)
    requires IsSet(s, x) && AllBits(rest)
    ensures IsSet(s.(video_full_range_flag := 0), x)
    ensures Fixed(Print(s, x, rest)) == Print(if SomeList(x) then s else s.(video_full_range_flag := 0), x, rest)
  {
    hide Fixed, SetBits, IsSet, Pack, HasBits, SomeList, BitAt;
    var t := s.(video_full_range_flag := 0);
    var d := Print(s, x, rest);
    SetIsBits(s, x);
    Join(SetBits(s, x), rest);
    Packed(SetBits(s, x) + rest);
    Split(d, 0, SetBits(s, x), rest);
    StillSet(s, x);
    SetFixed(d, s, x);
    if !SomeList(x) {
      SetIsBits(t, x);
      Join(SetBits(t, x), rest);
      SameRest(SetBits(s, x), SetBits(t, x), rest, Fixed(d));
    }
  }
}
