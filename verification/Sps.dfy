// pkg/h264/sps.go: DecodeSPS reads an H.264 sequence parameter set, and
// FixPixFmt walks the same syntax to clear one bit of it in place.
//
// The functions Head .. Tail describe the syntax section by section: what a
// section holds at a position of the bit string, and where it ends. The methods
// follow the Go code and are proved against them.

module Sps {
  import opened Bytes
  import opened Bits

  // The fields of the Go struct SPS, grouped by section of the syntax.
  datatype Head = Head(nal: byte, profile_idc: byte, profile_iop: byte, level_idc: byte, id: uint32)
  datatype Chroma = Chroma(format_idc: uint32, separate_colour_plane: nat, bit_depth_luma: uint32,
                           bit_depth_chroma: uint32, qpprime: nat, scaling_matrix_present: nat)
  datatype Poc = Poc(log2_max_frame_num: uint32, cnt_type: uint32, log2_max_lsb: uint32,
                     always_zero: nat, non_ref_pic: int, top_to_bottom: int, cycle: uint32)
  datatype Frame = Frame(num_ref_frames: uint32, gaps_allowed: nat, width_in_mbs: uint32,
                         height_in_map_units: uint32, mbs_only: nat, mb_adaptive: nat, direct_8x8: nat)
  datatype Crop = Crop(flag: nat, left: uint32, right: uint32, top: uint32, bottom: uint32)
  datatype Aspect = Aspect(present: nat, idc: byte, sar_width: uint16, sar_height: uint16,
                           overscan_present: nat, overscan_appropriate: nat)
  datatype Tail = Tail(colour_present: nat, colour: uint32, loc_present: nat, loc_top: uint32, loc_bottom: uint32,
                       timing_present: nat, units_in_tick: uint32, time_scale: uint32, fixed_rate: nat)
  datatype SPS = SPS(head: Head, chroma: Chroma, poc: Poc, frame: Frame, crop: Crop,
                     vui_present: nat, aspect: Aspect,
                     signal_present: nat, video_format: nat, video_full_range_flag: nat, tail: Tail)

  const NALUTypeSPS := 7

  // ---- Syntax ------------------------------------------------------------------

  function HeadAt(d: Data): Head {
    Num8Bound(d, 0);
    Head(Num8(d, 0), Num8(d, 8), Num8(d, 16), Num8(d, 24), Ue(d, 32))
  }

  function HeadEnd(d: Data): nat {
    UeEnd(d, 32)
  }

  function Num8(d: Data, at: nat): byte {
    Num8Bound(d, at);
    Num(d, at, 8)
  }

  lemma Num8Bound(d: Data, at: nat)
    ensures Num(d, at, 8) < 0x100 && Num(d, at, 16) < 0x1_0000 && Num(d, at, 24) < 0x1_0000_0000
    ensures Num(d, at, 32) < 0x1_0000_0000
  {
    Pow2Values();
    Pow2Monotone(24, 32);
  }

  predicate HighProfile(profile: byte) {
    profile in [100, 110, 122, 244, 44, 83, 86, 118, 128, 138, 139, 134, 135]
  }

  // Up to and including seq_scaling_matrix_present_flag.
  function ChromaAt(d: Data, at: nat): Chroma {
    var format, a := Ue(d, at), UeEnd(d, at);
    var b := if format == 3 then a + 1 else a;
    var c := UeEnd(d, b);
    var e := UeEnd(d, c);
    Chroma(format, if format == 3 then BitAt(d, a) else 0, Ue(d, b), Ue(d, c), BitAt(d, e), BitAt(d, e + 1))
  }

  function ChromaEnd(d: Data, at: nat): (end: nat)
    ensures at <= end
  {
    var a := UeEnd(d, at);
    var b := if Ue(d, at) == 3 then a + 1 else a;
    UeEnd(d, UeEnd(d, b)) + 2
  }

  function Lists(chroma: Chroma): nat {
    if chroma.format_idc == 3 then 12 else 8
  }

  // Go's % truncates toward zero.
  function Rem(a: int, b: int): int
    requires b > 0
  {
    if a >= 0 then a % b else -((-a) % b)
  }

  // scaling_list from entry j of n on.
  function ScalingListEnd(d: Data, at: nat, last: int, next: int, j: nat, n: nat): (end: nat)
    requires j <= n
    ensures at <= end
    decreases n - j
  {
    if j == n then at
    else if next == 0 then ScalingListEnd(d, at, last, next, j + 1, n)
    else
      var next' := Rem(Int32(last + Se(d, at) + 256), 256);
      ScalingListEnd(d, UeEnd(d, at), if next' != 0 then next' else last, next', j + 1, n)
  }

  // The scaling lists from number i of n on, each behind a present flag.
  function ListsEnd(d: Data, at: nat, i: nat, n: nat): (end: nat)
    requires i <= n
    ensures at <= end
    decreases n - i
  {
    if i == n then at
    else if BitAt(d, at) == 0 then ListsEnd(d, at + 1, i + 1, n)
    else ListsEnd(d, ScalingListEnd(d, at + 1, 8, 8, 0, if i < 6 then 16 else 64), i + 1, n)
  }

  predicate NoLists(d: Data, at: nat, n: nat) {
    forall k :: at <= k < at + n ==> BitAt(d, k) == 0
  }

  // n signed codes, skipped.
  function SkipSe(d: Data, at: nat, n: nat): (end: nat)
    ensures at <= end
    decreases n
  {
    if n == 0 then at else SkipSe(d, UeEnd(d, at), n - 1)
  }

  function PocAt(d: Data, at: nat): Poc {
    var a := UeEnd(d, at);
    var kind, b := Ue(d, a), UeEnd(d, a);
    var c := UeEnd(d, b + 1);
    var e := UeEnd(d, c);
    if kind == 0 then Poc(Ue(d, at), kind, Ue(d, b), 0, 0, 0, 0)
    else if kind == 1 then Poc(Ue(d, at), kind, 0, BitAt(d, b), Se(d, b + 1), Se(d, c), Ue(d, e))
    else Poc(Ue(d, at), kind, 0, 0, 0, 0, 0)
  }

  function PocEnd(d: Data, at: nat): (end: nat)
    ensures at <= end
  {
    var a := UeEnd(d, at);
    var kind, b := Ue(d, a), UeEnd(d, a);
    if kind == 0 then UeEnd(d, b)
    else if kind == 1 then
      var e := UeEnd(d, UeEnd(d, b + 1));
      SkipSe(d, UeEnd(d, e), Ue(d, e))
    else b
  }

  function FrameAt(d: Data, at: nat): Frame {
    var a := UeEnd(d, at) + 1;
    var b := UeEnd(d, a);
    var c := UeEnd(d, b);
    var only := BitAt(d, c);
    Frame(Ue(d, at), BitAt(d, a - 1), Ue(d, a), Ue(d, b), only,
          if only == 0 then BitAt(d, c + 1) else 0,
          if only == 0 then BitAt(d, c + 2) else BitAt(d, c + 1))
  }

  function FrameEnd(d: Data, at: nat): (end: nat)
    ensures at <= end
  {
    var c := UeEnd(d, UeEnd(d, UeEnd(d, at) + 1));
    if BitAt(d, c) == 0 then c + 3 else c + 2
  }

  function CropAt(d: Data, at: nat): Crop {
    var a := UeEnd(d, at + 1);
    var b := UeEnd(d, a);
    var c := UeEnd(d, b);
    if BitAt(d, at) == 0 then Crop(0, 0, 0, 0, 0)
    else Crop(1, Ue(d, at + 1), Ue(d, a), Ue(d, b), Ue(d, c))
  }

  function CropEnd(d: Data, at: nat): (end: nat)
    ensures at < end
  {
    if BitAt(d, at) == 0 then at + 1
    else UeEnd(d, UeEnd(d, UeEnd(d, UeEnd(d, at + 1))))
  }

  // The aspect ratio and overscan fields of the VUI.
  function AspectAt(d: Data, at: nat): Aspect {
    Num8Bound(d, at + 9);
    Num8Bound(d, at + 25);
    var present := BitAt(d, at);
    var idc := if present == 0 then 0 else Num8(d, at + 1);
    var a := OverscanAt(d, at);
    Aspect(present, idc,
           if idc == 255 then Num(d, at + 9, 16) else 0,
           if idc == 255 then Num(d, at + 25, 16) else 0,
           BitAt(d, a), if BitAt(d, a) == 0 then 0 else BitAt(d, a + 1))
  }

  function OverscanAt(d: Data, at: nat): (a: nat)
    ensures at < a
  {
    if BitAt(d, at) == 0 then at + 1 else if Num8(d, at + 1) == 255 then at + 41 else at + 9
  }

  function AspectEnd(d: Data, at: nat): (end: nat)
    ensures at < end
  {
    var a := OverscanAt(d, at);
    if BitAt(d, a) == 0 then a + 1 else a + 2
  }

  // The colour description, which only follows a full range flag.
  function ColourEnd(d: Data, at: nat, signal: nat): (end: nat)
    ensures at <= end
  {
    if signal == 0 then at else if BitAt(d, at) == 0 then at + 1 else at + 25
  }

  function LocEnd(d: Data, at: nat): (end: nat)
    ensures at < end
  {
    if BitAt(d, at) == 0 then at + 1 else UeEnd(d, UeEnd(d, at + 1))
  }

  function TailAt(d: Data, at: nat, signal: nat): Tail {
    Num8Bound(d, at + 1);
    var colour := if signal == 0 then 0 else BitAt(d, at);
    var a := ColourEnd(d, at, signal);
    var loc := BitAt(d, a);
    var b := LocEnd(d, a);
    var timing := BitAt(d, b);
    Num8Bound(d, b + 1);
    Num8Bound(d, b + 33);
    Tail(colour, if colour == 0 then 0 else Num(d, at + 1, 24),
         loc, if loc == 0 then 0 else Ue(d, a + 1), if loc == 0 then 0 else Ue(d, UeEnd(d, a + 1)),
         timing, if timing == 0 then 0 else Num(d, b + 1, 32), if timing == 0 then 0 else Num(d, b + 33, 32),
         if timing == 0 then 0 else BitAt(d, b + 65))
  }

  function TailEnd(d: Data, at: nat, signal: nat): (end: nat)
    ensures at <= end
  {
    var b := LocEnd(d, ColourEnd(d, at, signal));
    if BitAt(d, b) == 0 then b + 1 else b + 66
  }

  // ---- The whole set -------------------------------------------------------------

  // Where the scaling lists start, when the profile has a chroma section.
  function ListsStart(d: Data): nat {
    ChromaEnd(d, HeadEnd(d))
  }

  predicate HasMatrix(d: Data) {
    HighProfile(HeadAt(d).profile_idc) && ChromaAt(d, HeadEnd(d)).scaling_matrix_present != 0
  }

  function ListCount(d: Data): nat {
    Lists(ChromaAt(d, HeadEnd(d)))
  }

  // Some scaling list is present.
  predicate HasScalingList(d: Data) {
    HasMatrix(d) && !NoLists(d, ListsStart(d), ListCount(d))
  }

  function PocStart(d: Data): (at: nat) {
    if !HighProfile(HeadAt(d).profile_idc) then HeadEnd(d)
    else if !HasMatrix(d) then ListsStart(d)
    else ListsEnd(d, ListsStart(d), 0, ListCount(d))
  }

  function FrameStart(d: Data): nat { PocEnd(d, PocStart(d)) }
  function CropStart(d: Data): nat { FrameEnd(d, FrameStart(d)) }
  function VuiStart(d: Data): nat { CropEnd(d, CropStart(d)) }
  function SignalStart(d: Data): nat { AspectEnd(d, VuiStart(d) + 1) }

  // The video_full_range_flag is part of this set.
  predicate HasFlag(d: Data) {
    BitAt(d, VuiStart(d)) != 0 && BitAt(d, SignalStart(d)) != 0
  }

  // Where it is: after the signal flag and three bits of video format.
  function FlagPos(d: Data): nat { SignalStart(d) + 4 }

  function TailStart(d: Data): nat {
    if HasFlag(d) then FlagPos(d) + 1 else SignalStart(d) + 1
  }

  function Parsed(d: Data): SPS {
    var head := HeadAt(d);
    var chroma := if HighProfile(head.profile_idc) then ChromaAt(d, HeadEnd(d)) else Chroma(0, 0, 0, 0, 0, 0);
    var poc, frame, crop := PocAt(d, PocStart(d)), FrameAt(d, FrameStart(d)), CropAt(d, CropStart(d));
    if BitAt(d, VuiStart(d)) == 0 then
      SPS(head, chroma, poc, frame, crop, 0, Aspect(0, 0, 0, 0, 0, 0), 0, 0, 0, NoTail)
    else
      var signal := BitAt(d, SignalStart(d));
      SPS(head, chroma, poc, frame, crop, 1, AspectAt(d, VuiStart(d) + 1), signal,
          if signal == 0 then 0 else Num(d, SignalStart(d) + 1, 3),
          if signal == 0 then 0 else BitAt(d, FlagPos(d)),
          TailAt(d, TailStart(d), signal))
  }

  const NoTail := Tail(0, 0, 0, 0, 0, 0, 0, 0, 0)

  function ParsedEnd(d: Data): nat {
    if BitAt(d, VuiStart(d)) == 0 then VuiStart(d) + 1
    else TailEnd(d, TailStart(d), BitAt(d, SignalStart(d)))
  }

  // What DecodeSPS returns: nil unless the NAL unit is of the right type and
  // the reader never went past its end.
  function Decoded(d: Data): Option<SPS> {
    if HeadAt(d).nal % 0x20 != NALUTypeSPS || ParsedEnd(d) > 8 * |d| then None
    else Some(Parsed(d))
  }

  function ClearBit(d: Data, q: nat): (e: Data)
    requires q < 8 * |d|
    ensures |e| == |d|
  {
    var x := d[q / 8];
    d[q / 8 := Cleared(x, 7 - q % 8)]
  }

  // x &^ (1 << j).
  function Cleared(x: byte, j: nat): (y: byte)
    ensures y <= x
  {
    if Shr(x, j) % 2 == 1 then ClearedBelow(x, j); x - Pow2(j) else x
  }

  lemma {:induction false} ClearedBelow(x: nat, j: nat)
    requires Shr(x, j) > 0
    ensures Pow2(j) <= x
  {
    if j > 0 {
      ShrComm(x, j - 1);
      ClearedBelow(x / 2, j - 1);
    }
  }

  // What FixPixFmt makes of a set.
  function Fixed(d: Data): (e: Data)
    ensures |e| == |d|
  {
    if !HasScalingList(d) && HasFlag(d) && BitAt(d, FlagPos(d)) == 1 then
      SetBitInside(d, FlagPos(d));
      ClearBit(d, FlagPos(d))
    else d
  }

  lemma SetBitInside(d: Data, q: nat)
    requires BitAt(d, q) == 1
    ensures q < 8 * |d|
  {
    if q >= 8 * |d| { ShrZero(7 - q % 8); }
  }

  // ---- Changing one bit ----------------------------------------------------------

  // d and e differ in bit q at most.
  ghost predicate SameBut(d: Data, e: Data, q: nat) {
    |d| == |e| && forall k :: k != q ==> BitAt(d, k) == BitAt(e, k)
  }

  // A field from at to end does not touch bit q.
  predicate Outside(q: nat, at: nat, end: nat) {
    end <= q || q < at
  }

  // The low bits of a number below a cleared one keep, that one goes.
  lemma {:induction false} ShrCleared(x: nat, j: nat, i: nat)
    requires Shr(x, j) % 2 == 1 && i <= j
    ensures Pow2(j) <= x
    ensures Shr(x - Pow2(j), i) == Shr(x, i) - Pow2(j - i)
  {
    ClearedBelow(x, j);
    if i > 0 { ShrCleared(x, j, i - 1); }
  }

  lemma {:induction false} ShrClearedAbove(x: nat, j: nat, i: nat)
    requires Shr(x, j) % 2 == 1 && i > j
    ensures Pow2(j) <= x
    ensures Shr(x - Pow2(j), i) == Shr(x, i)
  {
    ShrCleared(x, j, j);
    if i > j + 1 { ShrClearedAbove(x, j, i - 1); }
  }

  lemma ClearedBits(x: byte, j: nat, i: nat)
    ensures Shr(Cleared(x, j), i) % 2 == (if i == j then 0 else Shr(x, i) % 2)
  {
    if Shr(x, j) % 2 == 1 {
      if i <= j { ShrCleared(x, j, i); } else { ShrClearedAbove(x, j, i); }
    }
  }

  lemma ClearBitIsLocal(d: Data, q: nat)
    requires q < 8 * |d|
    ensures SameBut(d, ClearBit(d, q), q)
    ensures BitAt(ClearBit(d, q), q) == 0
  {
    var e := ClearBit(d, q);
    forall k: nat ensures BitAt(e, k) == (if k == q then 0 else BitAt(d, k)) {
      if k / 8 == q / 8 {
        ClearedBits(d[q / 8], 7 - q % 8, 7 - k % 8);
      }
    }
  }

  lemma NumLocal(d: Data, e: Data, q: nat, at: nat, n: nat)
    requires SameBut(d, e, q) && Outside(q, at, at + n)
    ensures Num(e, at, n) == Num(d, at, n)
  {
    NumAgree(d, e, at, n);
  }

  lemma {:induction false} ZerosLocal(d: Data, e: Data, q: nat, at: nat, size: nat)
    requires SameBut(d, e, q) && size <= 32
    requires var z := LeadingZeros(d, at, size); Outside(q, at, SuffixStart(at, z) - size)
    ensures LeadingZeros(e, at, size) == LeadingZeros(d, at, size)
    decreases 32 - size
  {
    if size < 32 && BitAt(d, at) == 0 && at + 1 <= 8 * |d| {
      ZerosLocal(d, e, q, at + 1, size + 1);
    }
  }

  lemma UeLocal(d: Data, e: Data, q: nat, at: nat)
    requires SameBut(d, e, q) && Outside(q, at, UeEnd(d, at))
    ensures Ue(e, at) == Ue(d, at) && UeEnd(e, at) == UeEnd(d, at)
  {
    ZerosLocal(d, e, q, at, 0);
    var size := LeadingZeros(d, at, 0);
    NumLocal(d, e, q, SuffixStart(at, size), size);
  }

  // The same of every code and field at once.
  lemma AllLocal(d: Data, e: Data, q: nat)
    requires SameBut(d, e, q)
    ensures forall at: nat {:trigger Ue(e, at)} {:trigger UeEnd(e, at)} ::
              Outside(q, at, UeEnd(d, at)) ==> Ue(e, at) == Ue(d, at) && UeEnd(e, at) == UeEnd(d, at)
    ensures forall at: nat, n: nat {:trigger Num(e, at, n)} ::
              Outside(q, at, at + n) ==> Num(e, at, n) == Num(d, at, n)
  {
    forall at: nat | Outside(q, at, UeEnd(d, at)) ensures Ue(e, at) == Ue(d, at) && UeEnd(e, at) == UeEnd(d, at) {
      UeLocal(d, e, q, at);
    }
    forall at: nat, n: nat | Outside(q, at, at + n) ensures Num(e, at, n) == Num(d, at, n) {
      NumLocal(d, e, q, at, n);
    }
  }

  lemma HeadLocal(d: Data, e: Data, q: nat)
    requires SameBut(d, e, q) && HeadEnd(d) <= q
    ensures HeadAt(e) == HeadAt(d) && HeadEnd(e) == HeadEnd(d)
  {
    AllLocal(d, e, q);
  }

  lemma ChromaLocal(d: Data, e: Data, q: nat, at: nat)
    requires SameBut(d, e, q) && Outside(q, at, ChromaEnd(d, at))
    ensures ChromaAt(e, at) == ChromaAt(d, at) && ChromaEnd(e, at) == ChromaEnd(d, at)
  {
    hide Ue, UeEnd, Num, BitAt;
    AllLocal(d, e, q);
  }

  lemma {:induction false} SkipLocal(d: Data, e: Data, q: nat, at: nat, n: nat)
    requires SameBut(d, e, q) && Outside(q, at, SkipSe(d, at, n))
    ensures SkipSe(e, at, n) == SkipSe(d, at, n)
    decreases n
  {
    if n > 0 {
      UeLocal(d, e, q, at);
      SkipLocal(d, e, q, UeEnd(d, at), n - 1);
    }
  }

  lemma PocLocal(d: Data, e: Data, q: nat, at: nat)
    requires SameBut(d, e, q) && Outside(q, at, PocEnd(d, at))
    ensures PocAt(e, at) == PocAt(d, at) && PocEnd(e, at) == PocEnd(d, at)
  {
    hide Ue, UeEnd, Num, BitAt;
    AllLocal(d, e, q);
    var b := UeEnd(d, UeEnd(d, at));
    var n := UeEnd(d, UeEnd(d, b + 1));
    if Ue(d, UeEnd(d, at)) == 1 {
      SkipLocal(d, e, q, UeEnd(d, n), Ue(d, n));
    }
  }

  lemma FrameLocal(d: Data, e: Data, q: nat, at: nat)
    requires SameBut(d, e, q) && Outside(q, at, FrameEnd(d, at))
    ensures FrameAt(e, at) == FrameAt(d, at) && FrameEnd(e, at) == FrameEnd(d, at)
  {
    hide Ue, UeEnd, Num, BitAt;
    AllLocal(d, e, q);
  }

  lemma CropLocal(d: Data, e: Data, q: nat, at: nat)
    requires SameBut(d, e, q) && Outside(q, at, CropEnd(d, at))
    ensures CropAt(e, at) == CropAt(d, at) && CropEnd(e, at) == CropEnd(d, at)
  {
    hide Ue, UeEnd, Num, BitAt;
    AllLocal(d, e, q);
  }

  lemma AspectLocal(d: Data, e: Data, q: nat, at: nat)
    requires SameBut(d, e, q) && Outside(q, at, AspectEnd(d, at))
    ensures AspectAt(e, at) == AspectAt(d, at) && AspectEnd(e, at) == AspectEnd(d, at)
  {
    hide Ue, UeEnd, Num, BitAt;
    AllLocal(d, e, q);
  }

  lemma TailLocal(d: Data, e: Data, q: nat, at: nat, signal: nat)
    requires SameBut(d, e, q) && Outside(q, at, TailEnd(d, at, signal))
    ensures TailAt(e, at, signal) == TailAt(d, at, signal) && TailEnd(e, at, signal) == TailEnd(d, at, signal)
  {
    hide Ue, UeEnd, Num, BitAt;
    AllLocal(d, e, q);
  }

  lemma {:induction false} NoListsEnd(d: Data, at: nat, i: nat, n: nat)
    requires i <= n && NoLists(d, at, n - i)
    ensures ListsEnd(d, at, i, n) == at + (n - i)
    decreases n - i
  {
    if i < n { NoListsEnd(d, at + 1, i + 1, n); }
  }

  lemma NoListsLocal(d: Data, e: Data, q: nat, at: nat, n: nat)
    requires SameBut(d, e, q) && NoLists(d, at, n) && ListsEnd(d, at, 0, n) <= q
    ensures NoLists(e, at, n) && ListsEnd(e, at, 0, n) == ListsEnd(d, at, 0, n)
  {
    hide BitAt;
    NoListsEnd(d, at, 0, n);
    NoListsEnd(e, at, 0, n);
  }

  // The flag comes after all that decides where it is.
  lemma SectionsInOrder(d: Data)
    ensures HeadEnd(d) <= PocStart(d) <= FrameStart(d) <= CropStart(d) < VuiStart(d) < SignalStart(d) < FlagPos(d)
    ensures HighProfile(HeadAt(d).profile_idc) ==> HeadEnd(d) <= ListsStart(d) <= PocStart(d)
  {
    hide UeEnd, ChromaEnd, ListsEnd, PocEnd, FrameEnd, CropEnd, AspectEnd;
  }

  // A change in the flag or later leaves everything up to the scaling lists.
  lemma StartLocal(d: Data, e: Data, q: nat)
    requires SameBut(d, e, q) && !HasScalingList(d) && PocStart(d) <= q
    ensures HeadAt(e) == HeadAt(d) && HeadEnd(e) == HeadEnd(d) && PocStart(e) == PocStart(d)
    ensures HighProfile(HeadAt(d).profile_idc) ==> ChromaAt(e, HeadEnd(d)) == ChromaAt(d, HeadEnd(d))
    ensures !HasScalingList(e)
  {
    hide HighProfile, HeadAt, HeadEnd, ChromaAt, ChromaEnd, BitAt, ListsEnd, Lists, NoLists, SameBut;
    SectionsInOrder(d);
    HeadLocal(d, e, q);
    if HighProfile(HeadAt(d).profile_idc) {
      ChromaLocal(d, e, q, HeadEnd(d));
      if HasMatrix(d) {
        NoListsLocal(d, e, q, ListsStart(d), ListCount(d));
      }
    }
  }

  lemma MiddleLocal(d: Data, e: Data, q: nat)
    requires SameBut(d, e, q) && !HasScalingList(d) && SignalStart(d) < q
    ensures PocAt(e, PocStart(d)) == PocAt(d, PocStart(d)) && FrameStart(e) == FrameStart(d)
    ensures FrameAt(e, FrameStart(d)) == FrameAt(d, FrameStart(d)) && CropStart(e) == CropStart(d)
    ensures CropAt(e, CropStart(d)) == CropAt(d, CropStart(d)) && VuiStart(e) == VuiStart(d)
    ensures AspectAt(e, VuiStart(d) + 1) == AspectAt(d, VuiStart(d) + 1) && SignalStart(e) == SignalStart(d)
    ensures HasFlag(e) == HasFlag(d)
  {
    hide HasScalingList, HighProfile, HeadAt, HeadEnd, ChromaAt, PocStart, PocAt, PocEnd, FrameAt, FrameEnd, CropAt, CropEnd, AspectAt, AspectEnd, BitAt;
    SectionsInOrder(d);
    StartLocal(d, e, q);
    PocLocal(d, e, q, PocStart(d));
    FrameLocal(d, e, q, FrameStart(d));
    CropLocal(d, e, q, CropStart(d));
    AspectLocal(d, e, q, VuiStart(d) + 1);
  }

  // ---- What FixPixFmt keeps -------------------------------------------------------

  // Whatever the bytes are, valid or not, FixPixFmt changes one bit at most,
  // and only from one to zero.
  lemma FixedChangesOneBit(d: Data)
    ensures exists q: nat :: SameBut(d, Fixed(d), q) && (Fixed(d) != d ==> BitAt(d, q) == 1 && BitAt(Fixed(d), q) == 0)
  {
    var q := FlagPos(d);
    hide BitAt, FlagPos, HasFlag, HasScalingList, ClearBit;
    if Fixed(d) == d {
      assert SameBut(d, Fixed(d), q);
    } else {
      SetBitInside(d, q);
      ClearBitIsLocal(d, q);
      assert SameBut(d, Fixed(d), q);
    }
  }

  // A set with a scaling list is left as it is.
  lemma FixedSkipsScalingLists(d: Data)
    requires HasScalingList(d)
    ensures Fixed(d) == d
  {
  }

  // Otherwise the two parsers walk in lockstep: what DecodeSPS accepted it
  // still accepts, and reads every field as before, with a full range flag of 0.
  lemma FixedDecodes(d: Data)
    requires Decoded(d).Some? && !HasScalingList(d)
    ensures Decoded(Fixed(d)) == Some(Decoded(d).value.(video_full_range_flag := 0))
  {
    hide HasScalingList, HeadAt, Parsed, ParsedEnd, HasFlag, FlagPos, BitAt;
    if HasFlag(d) && BitAt(d, FlagPos(d)) == 1 {
      FlagClearedDecodes(d);
    } else {
      FlagParsed(d);
    }
  }

  lemma FlagParsed(d: Data)
    ensures Parsed(d).video_full_range_flag == if HasFlag(d) then BitAt(d, FlagPos(d)) else 0
    ensures BitAt(d, FlagPos(d)) <= 1
  {
    hide HeadAt, HeadEnd, HighProfile, ChromaAt, PocAt, PocStart, FrameStart, FrameAt, CropStart, CropAt,
      VuiStart, AspectAt, SignalStart, TailAt, Num;
  }

  lemma FlagClearedDecodes(d: Data)
    requires Decoded(d).Some? && !HasScalingList(d) && HasFlag(d) && BitAt(d, FlagPos(d)) == 1
    ensures Decoded(Fixed(d)) == Some(Decoded(d).value.(video_full_range_flag := 0))
  {
    var q, e := FlagPos(d), Fixed(d);
    hide HasScalingList, HighProfile, HeadAt, HeadEnd, ChromaAt, PocAt, PocStart, FrameStart, FrameAt, CropStart, CropAt,
      VuiStart, AspectAt, SignalStart, TailAt, TailEnd, BitAt, Num, ClearBit;
    SetBitInside(d, q);
    ClearBitIsLocal(d, q);
    SectionsInOrder(d);
    StartLocal(d, e, q);
    MiddleLocal(d, e, q);
    NumLocal(d, e, q, SignalStart(d) + 1, 3);
    TailLocal(d, e, q, TailStart(d), BitAt(d, SignalStart(d)));
    assert BitAt(e, SignalStart(d)) == BitAt(d, SignalStart(d));
    assert BitAt(e, VuiStart(d)) == BitAt(d, VuiStart(d));
  }

  // Fixing twice is fixing once, for all bytes.
  lemma FixedIsIdempotent(d: Data)
    ensures Fixed(Fixed(d)) == Fixed(d)
  {
    hide HasScalingList, HasFlag, PocStart, SignalStart, BitAt, ClearBit;
    if !HasScalingList(d) && HasFlag(d) && BitAt(d, FlagPos(d)) == 1 {
      var q := FlagPos(d);
      SetBitInside(d, q);
      ClearBitIsLocal(d, q);
      SectionsInOrder(d);
      StartLocal(d, Fixed(d), q);
      MiddleLocal(d, Fixed(d), q);
    }
  }

  // ---- Pixel format ----------------------------------------------------------------

  function PixFmt(s: SPS): string {
    if s.chroma.bit_depth_luma != 0 then ""
    else match s.chroma.format_idc
      case 1 => if s.video_full_range_flag == 1 then "yuvj420p" else "yuv420p"
      case 2 => "yuv422p"
      case 3 => "yuv444p"
      case _ => ""
  }

  // The purpose of it: yuvj420p becomes yuv420p and no other format changes.
  lemma FixedPixFmt(d: Data)
    requires Decoded(d).Some? && !HasScalingList(d)
    ensures Decoded(Fixed(d)).Some?
    ensures var old_, new_ := PixFmt(Decoded(d).value), PixFmt(Decoded(Fixed(d)).value);
            new_ == if old_ == "yuvj420p" then "yuv420p" else old_
  {
    hide Decoded, HasScalingList, Fixed;
    FixedDecodes(d);
  }

  // ---- DecodeSPS --------------------------------------------------------------------

  // The Go function is one long body; here each section of it is a method.
  method DecodeSPS(sps: Data) returns (s: Option<SPS>)
    ensures s == Decoded(sps)
  {
    hide HighProfile, Ue, UeEnd, Num, BitAt, ChromaAt, ChromaEnd, ListsEnd, PocAt, PocEnd, FrameAt, FrameEnd,
      CropAt, CropEnd, AspectAt, AspectEnd, TailAt, TailEnd;
    var r := new Reader(sps);
    var head := DecodeHead(r);
    if head.nal % 0x20 != NALUTypeSPS {
      return None;
    }
    var chroma := Chroma(0, 0, 0, 0, 0, 0);
    if HighProfile(head.profile_idc) {
      chroma := DecodeChroma(r);
      if chroma.scaling_matrix_present != 0 {
        SkipScalingLists(r, Lists(chroma));
      }
    }
    assert r.at == PocStart(sps);
    var poc := DecodePoc(r);
    var frame := DecodeFrame(r);
    var crop := DecodeCrop(r);
    assert r.at == VuiStart(sps);
    hide HeadAt, HeadEnd, PocStart, FrameStart, CropStart, VuiStart;
    var vui := r.ReadBit();
    var aspect, signal, format, full, tail := Aspect(0, 0, 0, 0, 0, 0), 0, 0, 0, NoTail;
    if vui != 0 {
      aspect, signal, format, full, tail := DecodeVui(r);
    }
    assert r.at == ParsedEnd(sps);
    if r.EOF {
      return None;
    }
    return Some(SPS(head, chroma, poc, frame, crop, vui, aspect, signal, format, full, tail));
  }

  method DecodeVui(r: Reader) returns (aspect: Aspect, signal: nat, format: nat, full: nat, tail: Tail)
    requires r.Valid() && r.at == VuiStart(r.buf) + 1 && BitAt(r.buf, VuiStart(r.buf)) != 0
    modifies r
    ensures r.Valid() && r.at == ParsedEnd(r.buf)
    ensures var d := r.buf;
            && aspect == AspectAt(d, VuiStart(d) + 1) && signal == BitAt(d, SignalStart(d))
            && format == (if signal == 0 then 0 else Num(d, SignalStart(d) + 1, 3))
            && full == (if signal == 0 then 0 else BitAt(d, FlagPos(d)))
            && tail == TailAt(d, TailStart(d), signal)
  {
    hide VuiStart, AspectAt, AspectEnd, TailAt, TailEnd, BitAt, Num;
    aspect := DecodeAspect(r);
    signal := r.ReadBit();
    format, full := 0, 0;
    if signal != 0 {
      format := r.ReadBits(3);
      full := r.ReadBit();
    }
    tail := DecodeTail(r, signal);
  }

  method DecodeHead(r: Reader) returns (head: Head)
    requires r.Valid() && r.at == 0
    modifies r
    ensures r.Valid() && head == HeadAt(r.buf) && r.at == HeadEnd(r.buf)
  {
    hide Ue, UeEnd, Num;
    var nal := r.ReadByte();
    var profile := r.ReadByte();
    var iop := r.ReadByte();
    var level := r.ReadByte();
    var id := r.ReadUEGolomb();
    return Head(nal, profile, iop, level, id);
  }

  method DecodeChroma(r: Reader) returns (chroma: Chroma)
    requires r.Valid()
    modifies r
    ensures r.Valid() && chroma == ChromaAt(r.buf, old(r.at)) && r.at == ChromaEnd(r.buf, old(r.at))
  {
    hide Ue, UeEnd, BitAt;
    var format := r.ReadUEGolomb();
    var separate := 0;
    if format == 3 {
      separate := r.ReadBit();
    }
    var luma := r.ReadUEGolomb();
    var depth := r.ReadUEGolomb();
    var qpprime := r.ReadBit();
    var matrix := r.ReadBit();
    return Chroma(format, separate, luma, depth, qpprime, matrix);
  }

  method SkipScalingLists(r: Reader, n: nat)
    requires r.Valid()
    modifies r
    ensures r.Valid() && r.at == ListsEnd(r.buf, old(r.at), 0, n)
  {
    hide BitAt, ScalingListEnd;
    ghost var end := ListsEnd(r.buf, r.at, 0, n);
    var i := 0;
    while i < n
      invariant i <= n && r.Valid()
      invariant ListsEnd(r.buf, r.at, i, n) == end
    {
      var present := r.ReadBit();
      if present != 0 {
        ScalingList(r, if i < 6 then 16 else 64);
      }
      i := i + 1;
    }
  }

  method ScalingList(r: Reader, size: nat)
    requires r.Valid()
    modifies r
    ensures r.Valid() && r.at == ScalingListEnd(r.buf, old(r.at), 8, 8, 0, size)
  {
    hide Se, UeEnd, Int32, Rem;
    ghost var end := ScalingListEnd(r.buf, r.at, 8, 8, 0, size);
    var last, next := 8, 8;
    var j := 0;
    while j < size
      invariant j <= size && r.Valid()
      invariant ScalingListEnd(r.buf, r.at, last, next, j, size) == end
    {
      if next != 0 {
        var delta := r.ReadSEGolomb();
        next := Rem(Int32(last + delta + 256), 256);
      }
      if next != 0 {
        last := next;
      }
      j := j + 1;
    }
  }

  method DecodePoc(r: Reader) returns (poc: Poc)
    requires r.Valid()
    modifies r
    ensures r.Valid() && poc == PocAt(r.buf, old(r.at)) && r.at == PocEnd(r.buf, old(r.at))
  {
    hide Ue, UeEnd, Se, BitAt, SkipSe;
    var frameNum := r.ReadUEGolomb();
    var kind := r.ReadUEGolomb();
    poc := Poc(frameNum, kind, 0, 0, 0, 0, 0);
    if kind == 0 {
      var lsb := r.ReadUEGolomb();
      poc := poc.(log2_max_lsb := lsb);
    } else if kind == 1 {
      var zero := r.ReadBit();
      var nonRef := r.ReadSEGolomb();
      var topToBottom := r.ReadSEGolomb();
      var cycle := r.ReadUEGolomb();
      poc := Poc(frameNum, kind, 0, zero, nonRef, topToBottom, cycle);
      SkipOffsets(r, cycle);
    }
  }

  method SkipOffsets(r: Reader, n: nat)
    requires r.Valid()
    modifies r
    ensures r.Valid() && r.at == SkipSe(r.buf, old(r.at), n)
  {
    hide Se, UeEnd;
    ghost var end := SkipSe(r.buf, r.at, n);
    var i := 0;
    while i < n
      invariant i <= n && r.Valid()
      invariant SkipSe(r.buf, r.at, n - i) == end
    {
      var _ := r.ReadSEGolomb();
      i := i + 1;
    }
  }

  method DecodeFrame(r: Reader) returns (frame: Frame)
    requires r.Valid()
    modifies r
    ensures r.Valid() && frame == FrameAt(r.buf, old(r.at)) && r.at == FrameEnd(r.buf, old(r.at))
  {
    hide Ue, UeEnd, BitAt;
    var refs := r.ReadUEGolomb();
    var gaps := r.ReadBit();
    var width := r.ReadUEGolomb();
    var height := r.ReadUEGolomb();
    var only := r.ReadBit();
    var adaptive := 0;
    if only == 0 {
      adaptive := r.ReadBit();
    }
    var direct := r.ReadBit();
    return Frame(refs, gaps, width, height, only, adaptive, direct);
  }

  method DecodeCrop(r: Reader) returns (crop: Crop)
    requires r.Valid()
    modifies r
    ensures r.Valid() && crop == CropAt(r.buf, old(r.at)) && r.at == CropEnd(r.buf, old(r.at))
  {
    BitIsBit(r.buf, r.at);
    hide Ue, UeEnd, BitAt;
    var flag := r.ReadBit();
    if flag == 0 {
      return Crop(0, 0, 0, 0, 0);
    }
    var left := r.ReadUEGolomb();
    var right := r.ReadUEGolomb();
    var top := r.ReadUEGolomb();
    var bottom := r.ReadUEGolomb();
    return Crop(flag, left, right, top, bottom);
  }

  lemma BitIsBit(d: Data, at: nat)
    ensures BitAt(d, at) == 0 || BitAt(d, at) == 1
  {
  }

  method DecodeAspect(r: Reader) returns (aspect: Aspect)
    requires r.Valid()
    modifies r
    ensures r.Valid() && aspect == AspectAt(r.buf, old(r.at)) && r.at == AspectEnd(r.buf, old(r.at))
  {
    hide Num, BitAt;
    var present := r.ReadBit();
    var idc, width, height: uint16 := 0, 0, 0;
    if present != 0 {
      idc := r.ReadByte();
      if idc == 255 {
        width := r.ReadUint16();
        height := r.ReadUint16();
      }
    }
    var overscan := r.ReadBit();
    var appropriate := 0;
    if overscan != 0 {
      appropriate := r.ReadBit();
    }
    return Aspect(present, idc, width, height, overscan, appropriate);
  }

  method DecodeTail(r: Reader, signal: nat) returns (tail: Tail)
    requires r.Valid()
    modifies r
    ensures r.Valid() && tail == TailAt(r.buf, old(r.at), signal) && r.at == TailEnd(r.buf, old(r.at), signal)
  {
    hide Ue, UeEnd, Num, BitAt, ColourEnd, LocEnd;
    var colourPresent, colour := DecodeColour(r, signal);
    var locPresent, top, bottom := DecodeLoc(r);
    var timing := r.ReadBit();
    var units, scale, fixedRate := 0, 0, 0;
    if timing != 0 {
      units := r.ReadUint32();
      scale := r.ReadUint32();
      fixedRate := r.ReadBit();
    }
    return Tail(colourPresent, colour, locPresent, top, bottom, timing, units, scale, fixedRate);
  }

  method DecodeColour(r: Reader, signal: nat) returns (present: nat, colour: uint32)
    requires r.Valid()
    modifies r
    ensures r.Valid() && r.at == ColourEnd(r.buf, old(r.at), signal)
    ensures present == if signal == 0 then 0 else BitAt(r.buf, old(r.at))
    ensures colour == if present == 0 then 0 else Num(r.buf, old(r.at) + 1, 24)
  {
    hide Num, BitAt;
    present, colour := 0, 0;
    if signal != 0 {
      present := r.ReadBit();
      if present != 0 {
        colour := r.ReadUint24();
      }
    }
  }

  method DecodeLoc(r: Reader) returns (present: nat, top: uint32, bottom: uint32)
    requires r.Valid()
    modifies r
    ensures r.Valid() && r.at == LocEnd(r.buf, old(r.at)) && present == BitAt(r.buf, old(r.at))
    ensures top == if present == 0 then 0 else Ue(r.buf, old(r.at) + 1)
    ensures bottom == if present == 0 then 0 else Ue(r.buf, UeEnd(r.buf, old(r.at) + 1))
  {
    hide Ue, UeEnd, BitAt;
    top, bottom := 0, 0;
    present := r.ReadBit();
    if present != 0 {
      top := r.ReadUEGolomb();
      bottom := r.ReadUEGolomb();
    }
  }

  // ---- FixPixFmt --------------------------------------------------------------------

  method FixPixFmt(sps: array<byte>)
    modifies sps
    ensures sps[..] == Fixed(old(sps[..]))
  {
    hide HasScalingList, PocStart, PocEnd, FrameEnd, CropEnd, HasFlag, FlagPos, BitAt;
    var r := new Reader(sps[..]);
    var skip := FixStart(r);
    if skip {
      return;
    }
    FixPoc(r);
    FixFrame(r);
    FixCrop(r);
    FixVui(sps, r);
  }

  method FixStart(r: Reader) returns (skip: bool)
    requires r.Valid() && r.at == 0
    modifies r
    ensures r.Valid() && skip == HasScalingList(r.buf) && (!skip ==> r.at == PocStart(r.buf))
  {
    hide HighProfile, HeadEnd, ChromaAt, ChromaEnd, ListsEnd, Lists, NoLists;
    var head := DecodeHead(r);
    if HighProfile(head.profile_idc) {
      skip := FixChroma(r);
    } else {
      skip := false;
    }
  }

  method FixVui(sps: array<byte>, r: Reader)
    requires r.Valid() && r.buf == sps[..] && r.at == VuiStart(r.buf)
    modifies r, sps
    ensures var d := old(sps[..]);
            sps[..] == if HasFlag(d) && BitAt(d, FlagPos(d)) == 1 then SetBitInside(d, FlagPos(d)); ClearBit(d, FlagPos(d)) else d
  {
    hide VuiStart, AspectEnd, BitAt, Num, ClearBit;
    var vui := r.ReadBit();
    if vui != 0 {
      FixAspect(r);
      var signal := r.ReadBit();
      if signal != 0 {
        var _ := r.ReadBits(3);
        var full := r.ReadBit();
        if full == 1 {
          ClearLastBit(sps, r, FlagPos(r.buf));
        }
      }
    }
  }

  // sps[pos] &^= 1 << bit, at the bit that was read last.
  method ClearLastBit(sps: array<byte>, r: Reader, ghost q: nat)
    requires r.Valid() && r.buf == sps[..] && r.at == q + 1 && BitAt(r.buf, q) == 1
    modifies sps
    ensures q < 8 * |old(sps[..])| && sps[..] == ClearBit(old(sps[..]), q)
  {
    hide BitAt, Cleared;
    var (pos, bit) := r.Pos();
    PosOfBit(r, q);
    sps[pos] := Cleared(sps[pos], bit);
  }

  // Pos names the byte and the bit that were read last.
  lemma PosOfBit(r: Reader, q: nat)
    requires r.Valid() && r.at == q + 1 && BitAt(r.buf, q) == 1
    ensures q < 8 * |r.buf|
    ensures r.Pos() == (q / 8, 7 - q % 8)
  {
    SetBitInside(r.buf, q);
    hide BitAt;
    assert q == 8 * (r.cell - 1) + (7 - r.bits);
  }

  // True when a scaling list is present.
  method FixChroma(r: Reader) returns (skip: bool)
    requires r.Valid()
    modifies r
    ensures r.Valid()
    ensures var chroma, end := ChromaAt(r.buf, old(r.at)), ChromaEnd(r.buf, old(r.at));
            && skip == (chroma.scaling_matrix_present != 0 && !NoLists(r.buf, end, Lists(chroma)))
            && (!skip ==> r.at == if chroma.scaling_matrix_present != 0 then ListsEnd(r.buf, end, 0, Lists(chroma)) else end)
  {
    hide Ue, UeEnd, BitAt, ListsEnd;
    ghost var from := r.at;
    var n := 8;
    var format := r.ReadUEGolomb();
    if format == 3 {
      var _ := r.ReadBit();
      n := 12;
    }
    var _ := r.ReadUEGolomb();
    var _ := r.ReadUEGolomb();
    var _ := r.ReadBit();
    var matrix := r.ReadBit();
    assert r.at == ChromaEnd(r.buf, from) && matrix == ChromaAt(r.buf, from).scaling_matrix_present;
    if matrix != 0 {
      ghost var start := r.at;
      var i := 0;
      while i < n
        invariant i <= n && r.Valid() && r.at == start + i
        invariant NoLists(r.buf, start, i)
      {
        var present := r.ReadBit();
        if present != 0 {
          assert BitAt(r.buf, start + i) != 0;
          return true;
        }
        i := i + 1;
      }
      NoListsEnd(r.buf, start, 0, n);
    }
    return false;
  }

  method FixPoc(r: Reader)
    requires r.Valid()
    modifies r
    ensures r.Valid() && r.at == PocEnd(r.buf, old(r.at))
  {
    hide Ue, UeEnd, Se, BitAt, SkipSe;
    var _ := r.ReadUEGolomb();
    var kind := r.ReadUEGolomb();
    if kind == 0 {
      var _ := r.ReadUEGolomb();
    } else if kind == 1 {
      var _ := r.ReadBit();
      var _ := r.ReadSEGolomb();
      var _ := r.ReadSEGolomb();
      var n := r.ReadUEGolomb();
      SkipOffsets(r, n);
    }
  }

  method FixFrame(r: Reader)
    requires r.Valid()
    modifies r
    ensures r.Valid() && r.at == FrameEnd(r.buf, old(r.at))
  {
    hide Ue, UeEnd, BitAt;
    var _ := r.ReadUEGolomb();
    var _ := r.ReadBit();
    var _ := r.ReadUEGolomb();
    var _ := r.ReadUEGolomb();
    var only := r.ReadBit();
    if only == 0 {
      var _ := r.ReadBit();
    }
    var _ := r.ReadBit();
  }

  method FixCrop(r: Reader)
    requires r.Valid()
    modifies r
    ensures r.Valid() && r.at == CropEnd(r.buf, old(r.at))
  {
    hide Ue, UeEnd, BitAt;
    var flag := r.ReadBit();
    if flag != 0 {
      var _ := r.ReadUEGolomb();
      var _ := r.ReadUEGolomb();
      var _ := r.ReadUEGolomb();
      var _ := r.ReadUEGolomb();
    }
  }

  method FixAspect(r: Reader)
    requires r.Valid()
    modifies r
    ensures r.Valid() && r.at == AspectEnd(r.buf, old(r.at))
  {
    hide Num, BitAt;
    var present := r.ReadBit();
    if present != 0 {
      var idc := r.ReadByte();
      if idc == 255 {
        var _ := r.ReadUint16();
        var _ := r.ReadUint16();
      }
    }
    var overscan := r.ReadBit();
    if overscan != 0 {
      var _ := r.ReadBit();
    }
  }
}
