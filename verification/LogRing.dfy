// internal/app/log.go: the ring of log chunks. It keeps a suffix of everything
// written, made of whole writes.

module LogRing {
  import opened Bytes

  const ChunkCount: nat := 16
  const ChunkSize: nat := 0x1_0000

  // ---- The buffer ------------------------------------------------------------------

  datatype Ring = Ring(chunks: seq<Data>, r: nat, w: nat)

  // Chunks are allocated up to ChunkCount before the indices wrap.
  predicate Valid(b: Ring) {
    && |b.chunks| <= ChunkCount && b.r < |b.chunks| && b.w < |b.chunks|
    && (b.r > b.w ==> |b.chunks| == ChunkCount)
  }

  // The chunks from the read index to the write index, around the ring.
  function Live(b: Ring): (live: seq<Data>)
    requires Valid(b)
    ensures 1 <= |live| <= ChunkCount
  {
    if b.r <= b.w then b.chunks[b.r..b.w + 1] else b.chunks[b.r..] + b.chunks[..b.w + 1]
  }

  const NewRing := Ring([[]], 0, 0)

  // What a write does to the live chunks: it extends the newest one, or starts
  // another and drops the oldest of sixteen.
  function Push(live: seq<Data>, p: Data): (r: seq<Data>)
    requires 1 <= |live| <= ChunkCount
    ensures 1 <= |r| <= ChunkCount
  {
    var last := |live| - 1;
    if |live[last]| + |p| > ChunkSize then (if |live| == ChunkCount then live[1..] else live) + [p]
    else live[last := live[last] + p]
  }

  // The next chunk to write to, empty; the read index gives way.
  function Next(b: Ring): (n: Ring)
    requires Valid(b)
    ensures Valid(n)
  {
    var w := (b.w + 1) % ChunkCount;
    Ring(if w == |b.chunks| then b.chunks + [[]] else b.chunks[w := []], if b.r == w then (b.r + 1) % ChunkCount else b.r, w)
  }

  lemma LiveOfNext(b: Ring)
    requires Valid(b)
    ensures Live(Next(b)) == (if |Live(b)| == ChunkCount then Live(b)[1..] else Live(b)) + [[]]
  {
    hide Live, Next;
    if b.r <= b.w {
      NextOfStraight(b);
    } else {
      NextOfWrapped(b);
    }
  }

  lemma NextOfStraight(b: Ring)
    requires Valid(b) && b.r <= b.w
    ensures Live(Next(b)) == (if |Live(b)| == ChunkCount then Live(b)[1..] else Live(b)) + [[]]
  {
    var n := Next(b);
    if b.w + 1 < ChunkCount {
      assert n.r == b.r && n.w == b.w + 1;
      assert n.chunks[n.r..n.w + 1] == n.chunks[n.r..n.w] + [[]];
      assert n.chunks[n.r..n.w] == b.chunks[b.r..b.w + 1];
    } else {
      assert b.chunks[b.r..b.w + 1] == b.chunks[b.r..];
      assert n.chunks[..1] == [[]];
      if b.r == 0 {
        assert n.r == 1 && n.chunks[1..] == b.chunks[1..];
      } else {
        assert n.chunks[b.r..] == b.chunks[b.r..];
      }
    }
  }

  lemma NextOfWrapped(b: Ring)
    requires Valid(b) && b.r > b.w
    ensures Live(Next(b)) == (if |Live(b)| == ChunkCount then Live(b)[1..] else Live(b)) + [[]]
  {
    var n := Next(b);
    assert n.w == b.w + 1 && n.chunks[..n.w + 1] == b.chunks[..b.w + 1] + [[]];
    if b.r == b.w + 1 {
      NextOfFull(b);
    } else {
      assert n.chunks[n.r..] == b.chunks[n.r..];
      assert Live(n) == b.chunks[b.r..] + (b.chunks[..b.w + 1] + [[]]);
      assert b.chunks[b.r..] + (b.chunks[..b.w + 1] + [[]]) == (b.chunks[b.r..] + b.chunks[..b.w + 1]) + [[]];
    }
  }

  lemma NextOfFull(b: Ring)
    requires Valid(b) && b.r == b.w + 1
    ensures |Live(b)| == ChunkCount && Live(Next(b)) == Live(b)[1..] + [[]]
  {
    var n := Next(b);
    if b.r + 1 == ChunkCount {
      assert n.r == 0 && n.chunks[n.r..n.w + 1] == b.chunks[..b.w + 1] + [[]];
      assert Live(b)[1..] == b.chunks[..b.w + 1];
    } else {
      assert n.chunks[n.r..] == b.chunks[n.r..] && Live(b)[1..] == b.chunks[n.r..] + b.chunks[..b.w + 1];
      assert Live(n) == b.chunks[n.r..] + (b.chunks[..b.w + 1] + [[]]);
    }
  }

  lemma LiveLast(b: Ring)
    requires Valid(b)
    ensures var live := Live(b); live[|live| - 1] == b.chunks[b.w]
  {
  }

  lemma LiveOfExtended(b: Ring, p: Data)
    requires Valid(b)
    ensures var live := Live(b);
            Live(b.(chunks := b.chunks[b.w := b.chunks[b.w] + p])) == live[|live| - 1 := live[|live| - 1] + p]
  {
  }

  function WriteRing(b: Ring, p: Data): (n: Ring)
    requires Valid(b)
    ensures Valid(n)
  {
    var at := if |b.chunks[b.w]| + |p| > ChunkSize then Next(b) else b;
    at.(chunks := at.chunks[at.w := at.chunks[at.w] + p])
  }

  lemma PushesLive(b: Ring, p: Data)
    requires Valid(b)
    ensures Live(WriteRing(b, p)) == Push(Live(b), p)
  {
    hide Live, Next;
    var live := Live(b);
    LiveLast(b);
    if |live[|live| - 1]| + |p| > ChunkSize {
      LiveOfNext(b);
      LiveOfExtended(Next(b), p);
      FillLast(if |live| == ChunkCount then live[1..] else live, p);
    } else {
      LiveOfExtended(b, p);
    }
  }

  lemma FillLast(kept: seq<Data>, p: Data)
    ensures var live := kept + [[]]; live[|live| - 1 := live[|live| - 1] + p] == kept + [p]
  {
    assert [] + p == p;
  }

  class CircularBuffer {
    var chunks: seq<Data>
    var r: nat
    var w: nat

    ghost function Current(): Ring
      reads this
    {
      Ring(chunks, r, w)
    }

    constructor ()
      ensures Current() == NewRing
    {
      chunks, r, w := [[]], 0, 0;
    }

    method Write(p: Data) returns (n: nat)
      requires Valid(Current())
      modifies this
      ensures n == |p| && Valid(Current()) && Live(Current()) == Push(old(Live(Current())), p)
    {
      n := |p|;
      hide Live;
      ghost var b := Current();
      if |chunks[w]| + n > ChunkSize {
        w := w + 1;
        if w == ChunkCount {
          w := 0;
        }
        if r == w {
          r := r + 1;
          if r == ChunkCount {
            r := 0;
          }
        }
        if w == |chunks| {
          chunks := chunks + [[]];
        } else {
          chunks := chunks[w := []];
        }
      }
      chunks := chunks[w := chunks[w] + p];
      assert Current() == WriteRing(b, p);
      PushesLive(b, p);
    }

    method WriteTo() returns (buf: Data)
      requires Valid(Current())
      ensures buf == Concat(Live(Current()))
    {
      buf := [];
      var i := r;
      ghost var live, k: nat := Live(Current()), 0;
      while true
        invariant k < |live| && i == (if r + k < ChunkCount then r + k else r + k - ChunkCount)
        invariant i < |chunks| && live[k] == chunks[i] && buf == Concat(live[..k])
        decreases |live| - k
      {
        assert live[..k + 1] == live[..k] + [live[k]];
        ConcatLast(live[..k], live[k]);
        buf := buf + chunks[i];
        if i == w {
          assert live[..k + 1] == live;
          break;
        }
        i := i + 1;
        if i == ChunkCount {
          i := 0;
        }
        k := k + 1;
      }
    }

    method Reset()
      requires Valid(Current())
      modifies this
      ensures Valid(Current()) && Live(Current()) == [[]]
    {
      chunks := chunks[0 := []];
      r := 0;
      w := 0;
    }
  }

  // ---- Runs --------------------------------------------------------------------------

  datatype Op = Write(p: Data) | Reset

  // The live chunks after a run on a new buffer.
  function Run(ops: seq<Op>): (live: seq<Data>)
    ensures 1 <= |live| <= ChunkCount
  {
    if ops == [] then [[]]
    else
      var before, op := Run(ops[..|ops| - 1]), ops[|ops| - 1];
      if op.Reset? then [[]] else Push(before, op.p)
  }

  function WriteTo(ops: seq<Op>): Data {
    Concat(Run(ops))
  }

  // The writes since the last reset.
  function Written(ops: seq<Op>): seq<Data> {
    if ops == [] then []
    else
      var op := ops[|ops| - 1];
      if op.Reset? then [] else Written(ops[..|ops| - 1]) + [op.p]
  }

  // The writes of a run, grouped by the chunk that received them; the first
  // `gone` writes went to chunks that were dropped.
  datatype Log = Log(gone: seq<Data>, groups: seq<seq<Data>>)

  function Flatten(groups: seq<seq<Data>>): seq<Data> {
    if groups == [] then [] else groups[0] + Flatten(groups[1..])
  }

  ghost predicate Links(log: Log, live: seq<Data>, writes: seq<Data>) {
    && |log.groups| == |live| > 0
    && (forall k :: 0 <= k < |live| ==> live[k] == Concat(log.groups[k]))
    && writes == log.gone + Flatten(log.groups)
    && (forall k :: 0 < k < |live| ==> log.groups[k] != [] && |live[k - 1]| + |log.groups[k][0]| > ChunkSize)
    && (writes != [] ==> log.groups[|live| - 1] != [])
  }

  ghost predicate Describes(log: Log, live: seq<Data>, writes: seq<Data>) {
    Links(log, live, writes) && (log.gone != [] ==> |live| == ChunkCount)
  }

  // The log after one more write.
  function LogWrite(log: Log, full: bool, p: Data): Log
    requires log.groups != []
  {
    var last := |log.groups| - 1;
    if !full then Log(log.gone, log.groups[last := log.groups[last] + [p]])
    else if |log.groups| == ChunkCount then Log(log.gone + log.groups[0], log.groups[1..] + [[p]])
    else Log(log.gone, log.groups + [[p]])
  }

  lemma {:induction false} FlattenSplit(a: seq<seq<Data>>, b: seq<seq<Data>>)
    ensures Flatten(a + b) == Flatten(a) + Flatten(b)
  {
    if a == [] {
      assert a + b == b;
    } else {
      assert (a + b)[0] == a[0] && (a + b)[1..] == a[1..] + b;
      FlattenSplit(a[1..], b);
      assert a[0] + (Flatten(a[1..]) + Flatten(b)) == (a[0] + Flatten(a[1..])) + Flatten(b);
    }
  }

  lemma FlattenOne(g: seq<Data>)
    ensures Flatten([g]) == g
  {
    assert [g][1..] == [] && g + [] == g;
  }

  lemma WriteDescribes(log: Log, live: seq<Data>, writes: seq<Data>, p: Data)
    requires 1 <= |live| <= ChunkCount && Describes(log, live, writes)
    ensures Describes(LogWrite(log, |live[|live| - 1]| + |p| > ChunkSize, p), Push(live, p), writes + [p])
  {
    hide Links;
    SameCount(log, live, writes);
    if |live[|live| - 1]| + |p| <= ChunkSize {
      ExtendDescribes(log, live, writes, p);
    } else {
      StartDescribes(log, live, writes, p);
      if |live| == ChunkCount {
        DropDescribes(Log(log.gone, log.groups + [[p]]), live + [p], writes + [p]);
        SameTail(log.groups, [p]);
        SameTail(live, p);
      }
    }
  }

  lemma SameTail<T>(s: seq<T>, x: T)
    requires s != []
    ensures (s + [x])[1..] == s[1..] + [x] && (s + [x])[0] == s[0]
  {
  }

  lemma SameCount(log: Log, live: seq<Data>, writes: seq<Data>)
    requires Links(log, live, writes)
    ensures |log.groups| == |live|
  {
  }

  lemma ExtendDescribes(log: Log, live: seq<Data>, writes: seq<Data>, p: Data)
    requires live != [] && Links(log, live, writes)
    ensures var last := |live| - 1;
            Links(Log(log.gone, log.groups[last := log.groups[last] + [p]]), live[last := live[last] + p], writes + [p])
  {
    var last, groups := |live| - 1, log.groups;
    ConcatLast(groups[last], p);
    FlattenExtended(groups, p);
    hide Concat, Flatten;
    assert writes + [p] == log.gone + (Flatten(groups) + [p]);
  }

  lemma StartDescribes(log: Log, live: seq<Data>, writes: seq<Data>, p: Data)
    requires live != [] && Links(log, live, writes) && |live[|live| - 1]| + |p| > ChunkSize
    ensures Links(Log(log.gone, log.groups + [[p]]), live + [p], writes + [p])
  {
    ConcatLast([], p);
    assert [] + [p] == [p] && Concat([]) + p == p;
    FlattenLast(log.groups, [p]);
    hide Concat, Flatten;
    assert writes + [p] == log.gone + (Flatten(log.groups) + [p]);
  }

  lemma DropDescribes(log: Log, live: seq<Data>, writes: seq<Data>)
    requires |live| > 1 && Links(log, live, writes)
    ensures Links(Log(log.gone + log.groups[0], log.groups[1..]), live[1..], writes)
  {
    FlattenFirst(log.groups);
    hide Concat, Flatten;
    assert writes == (log.gone + log.groups[0]) + Flatten(log.groups[1..]);
  }

  lemma FlattenFirst(groups: seq<seq<Data>>)
    requires groups != []
    ensures Flatten(groups) == groups[0] + Flatten(groups[1..])
  {
  }

  lemma FlattenLast(groups: seq<seq<Data>>, g: seq<Data>)
    ensures Flatten(groups + [g]) == Flatten(groups) + g
  {
    FlattenSplit(groups, [g]);
    FlattenOne(g);
  }

  lemma FlattenExtended(groups: seq<seq<Data>>, p: Data)
    requires groups != []
    ensures var last := |groups| - 1; Flatten(groups[last := groups[last] + [p]]) == Flatten(groups) + [p]
  {
    var last := |groups| - 1;
    FlattenLast(groups[..last], groups[last]);
    FlattenLast(groups[..last], groups[last] + [p]);
    assert groups == groups[..last] + [groups[last]];
    assert groups[last := groups[last] + [p]] == groups[..last] + [groups[last] + [p]];
    assert Flatten(groups[..last]) + (groups[last] + [p]) == Flatten(groups[..last]) + groups[last] + [p];
  }

  lemma {:induction false} RunDescribes(ops: seq<Op>) returns (log: Log)
    ensures Describes(log, Run(ops), Written(ops))
  {
    log := Log([], [[]]);
    FlattenOne([]);
    if ops != [] && ops[|ops| - 1].Write? {
      var rest, p := ops[..|ops| - 1], ops[|ops| - 1].p;
      var before := RunDescribes(rest);
      WriteDescribes(before, Run(rest), Written(rest), p);
      var live := Run(rest);
      log := LogWrite(before, |live[|live| - 1]| + |p| > ChunkSize, p);
    }
  }

  lemma {:induction false} ConcatFlatten(groups: seq<seq<Data>>, live: seq<Data>)
    requires |groups| == |live| && forall k :: 0 <= k < |live| ==> live[k] == Concat(groups[k])
    ensures Concat(Flatten(groups)) == Concat(live)
    decreases |groups|
  {
    if groups != [] {
      ConcatSplit(groups[0], Flatten(groups[1..]));
      ConcatFlatten(groups[1..], live[1..]);
    }
  }

  // The chunks come in pairs that one chunk could not hold.
  lemma {:induction false} PairsAreLong(live: seq<Data>, pairs: nat)
    requires |live| == 2 * pairs && pairs > 0
    requires forall k :: 0 < k < |live| ==> |live[k - 1]| + |live[k]| > ChunkSize
    ensures |Concat(live)| > pairs * ChunkSize
    decreases pairs
  {
    var rest := live[1..];
    assert rest[1..] == live[2..] && Concat(live) == live[0] + (live[1] + Concat(live[2..]));
    assert |live[0]| + |live[1]| > ChunkSize;
    if pairs > 1 {
      PairsAreLong(live[2..], pairs - 1);
    }
  }

  // With writes of at most m bytes every chunk but the newest is fuller than
  // ChunkSize - m.
  lemma {:induction false} ChunksAreFull(live: seq<Data>, m: nat)
    requires live != [] && forall k :: 0 <= k < |live| - 1 ==> |live[k]| + m > ChunkSize
    ensures |Concat(live)| >= (|live| - 1) * (ChunkSize - m + 1)
    decreases |live|
  {
    if |live| > 1 {
      assert |live[0]| + m > ChunkSize;
      ChunksAreFull(live[1..], m);
      assert (|live| - 1) * (ChunkSize - m + 1) == (|live| - 2) * (ChunkSize - m + 1) + (ChunkSize - m + 1);
    }
  }

  lemma {:induction false} ChunksFit(live: seq<Data>)
    requires forall k :: 0 <= k < |live| ==> |live[k]| <= ChunkSize
    ensures |Concat(live)| <= |live| * ChunkSize
  {
    if live != [] {
      ChunksFit(live[1..]);
    }
  }

  lemma {:induction false} RunFits(ops: seq<Op>)
    requires forall p :: p in Written(ops) ==> |p| <= ChunkSize
    ensures forall k :: 0 <= k < |Run(ops)| ==> |Run(ops)[k]| <= ChunkSize
  {
    if ops != [] && ops[|ops| - 1].Write? {
      var rest, p := ops[..|ops| - 1], ops[|ops| - 1].p;
      assert p in Written(ops) && forall q :: q in Written(rest) ==> q in Written(ops);
      RunFits(rest);
    }
  }

  // What WriteTo returns after any run: whole writes, the newest among them;
  // more than half of the ring once something is lost, and never more than the
  // ring when every write fits a chunk.
  lemma SuffixOfWrites(ops: seq<Op>) returns (lost: nat)
    ensures lost <= |Written(ops)| && WriteTo(ops) == Concat(Written(ops)[lost..])
    ensures Written(ops) != [] ==> lost < |Written(ops)|
    ensures lost > 0 ==> |WriteTo(ops)| > 0x8_0000
    ensures (forall p :: p in Written(ops) ==> |p| <= 0x1_0000) ==> |WriteTo(ops)| <= 0x10_0000
  {
    var log := RunDescribes(ops);
    lost := |log.gone|;
    var live := Run(ops);
    ConcatFlatten(log.groups, live);
    assert Written(ops)[lost..] == Flatten(log.groups);
    LastIsNewest(log.groups);
    if lost > 0 {
      forall k | 0 < k < |live| ensures |live[k - 1]| + |live[k]| > ChunkSize {
        FirstIsPart(log.groups[k]);
      }
      PairsAreLong(live, 8);
    }
    if forall p :: p in Written(ops) ==> |p| <= ChunkSize {
      RunFits(ops);
      ChunksFit(live);
    }
  }

  lemma FirstIsPart(group: seq<Data>)
    requires group != []
    ensures |Concat(group)| >= |group[0]|
  {
  }

  lemma LastIsNewest(groups: seq<seq<Data>>)
    requires groups != []
    ensures groups[|groups| - 1] != [] ==> Flatten(groups) != []
  {
    var last := |groups| - 1;
    FlattenSplit(groups[..last], [groups[last]]);
    FlattenOne(groups[last]);
    assert groups == groups[..last] + [groups[last]];
  }

  // Short writes: with at most m bytes each, almost the whole ring is kept.
  lemma ShortWrites(ops: seq<Op>, m: nat) returns (lost: nat)
    requires forall p :: p in Written(ops) ==> |p| <= m
    ensures lost <= |Written(ops)| && WriteTo(ops) == Concat(Written(ops)[lost..])
    ensures lost > 0 ==> |WriteTo(ops)| >= 15 * (0x1_0000 - m + 1)
  {
    hide Run, Written, Concat, Flatten;
    var log := RunDescribes(ops);
    lost := |log.gone|;
    var live := Run(ops);
    ConcatFlatten(log.groups, live);
    assert Written(ops)[lost..] == Flatten(log.groups);
    if lost > 0 {
      forall k | 0 <= k < |live| - 1 ensures |live[k]| + m > ChunkSize {
        assert log.groups[k + 1] != [] && |live[k]| + |log.groups[k + 1][0]| > ChunkSize;
        PartOfFlatten(log.groups, k + 1);
        assert log.groups[k + 1][0] in Written(ops);
      }
      ChunksAreFull(live, m);
    }
  }

  lemma PartOfFlatten(groups: seq<seq<Data>>, k: nat)
    requires k < |groups| && groups[k] != []
    ensures groups[k][0] in Flatten(groups)
  {
    assert groups == groups[..k] + ([groups[k]] + groups[k + 1..]);
    FlattenSplit(groups[..k], [groups[k]] + groups[k + 1..]);
    FlattenSplit([groups[k]], groups[k + 1..]);
    FlattenOne(groups[k]);
  }
}
