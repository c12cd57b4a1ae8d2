// internal/streams: whole runs, in every interleaving of AddConsumer,
// RemoveConsumer, stopProducers and the goroutines of the producers.

module StreamRuns {
  import opened Bytes
  import opened Lifecycle
  import opened Stream
  import opened StreamLinks
  import Node

  lemma {:induction false} EveryRunIsExact(urls: nat, steps: seq<Stream.Step>)
    requires Stream.Run(urls, steps).Some?
    ensures Exact(Stream.Run(urls, steps).value) && Up(Stream.Run(urls, steps).value)
  {
    hide Good, Apply, Enabled;
    if steps == [] {
      var none: seq<Stream.Step> := [];
      assert Stream.Run(urls, none) == Some(NewStream(urls));
    } else {
      var rest, step := steps[..|steps| - 1], steps[|steps| - 1];
      EveryRunIsExact(urls, rest);
      EveryRunIsGood(urls, rest);
      hide Exact, Up;
      StepExact(Stream.Run(urls, rest).value, step);
      StepUp(Stream.Run(urls, rest).value, step);
    }
  }

  // ---- From a state on --------------------------------------------------------------------

  function Path(s: State, steps: seq<Stream.Step>): Option<State>
    decreases |steps|
  {
    if steps == [] then Some(s)
    else if Enabled(s, steps[0]) then Path(Apply(s, steps[0]), steps[1..])
    else None
  }

  lemma {:induction false} PathSplit(s: State, a: seq<Stream.Step>, b: seq<Stream.Step>)
    requires Path(s, a).Some?
    ensures Path(s, a + b) == Path(Path(s, a).value, b)
    decreases |a|
  {
    hide Enabled, Apply;
    if a == [] {
      assert a + b == b;
    } else {
      assert (a + b)[0] == a[0] && (a + b)[1..] == a[1..] + b;
      PathSplit(Apply(s, a[0]), a[1..], b);
    }
  }

  lemma PathSnoc(s: State, a: seq<Stream.Step>, step: Stream.Step)
    requires Path(s, a).Some? && Enabled(Path(s, a).value, step)
    ensures Path(s, a + [step]) == Some(Apply(Path(s, a).value, step))
  {
    hide Enabled, Apply;
    PathSplit(s, a, [step]);
    assert [step][1..] == [];
  }

  lemma {:induction false} PathIsGood(s: State, steps: seq<Stream.Step>)
    requires Good(s) && Path(s, steps).Some?
    ensures Good(Path(s, steps).value)
    decreases |steps|
  {
    hide Enabled, Apply, Good;
    if steps != [] {
      EveryStepKeeps(s, steps[0]);
      PathIsGood(Apply(s, steps[0]), steps[1..]);
    }
  }

  lemma {:induction false} RunIsPath(urls: nat, steps: seq<Stream.Step>)
    ensures Stream.Run(urls, steps) == Path(NewStream(urls), steps)
    decreases |steps|
  {
    hide Enabled, Apply;
    if steps != [] {
      var rest, n := steps[..|steps| - 1], |steps| - 1;
      RunIsPath(urls, rest);
      assert rest + [steps[n]] == steps;
      if Path(NewStream(urls), rest).Some? {
        PathSplit(NewStream(urls), rest, [steps[n]]);
        assert [steps[n]][1..] == [];
      } else {
        NoPath(NewStream(urls), rest, [steps[n]]);
      }
    }
  }

  lemma {:induction false} NoPath(s: State, a: seq<Stream.Step>, b: seq<Stream.Step>)
    requires Path(s, a) == None
    ensures Path(s, a + b) == None
    decreases |a|
  {
    hide Enabled, Apply;
    assert (a + b)[0] == a[0] && (a + b)[1..] == a[1..] + b;
    if Enabled(s, a[0]) {
      NoPath(Apply(s, a[0]), a[1..], b);
    }
  }

  // ---- Since when -----------------------------------------------------------------------

  // The state before step k.
  function Before(urls: nat, steps: seq<Stream.Step>, k: nat): State
    requires Stream.Run(urls, steps).Some? && k < |steps|
    ensures Stream.Run(urls, steps[..k]).Some? && Enabled(Before(urls, steps, k), steps[k])
    decreases |steps|
  {
    assert steps[..|steps| - 1][..k] == steps[..k];
    if k == |steps| - 1 then Stream.Run(urls, steps[..k]).value else Before(urls, steps[..|steps| - 1], k)
  }

  predicate MadeAt(urls: nat, steps: seq<Stream.Step>, k: nat, c: nat, i: nat)
    requires Stream.Run(urls, steps).Some? && k < |steps|
  {
    Makes(Before(urls, steps, k), steps[k], c, i)
  }

  predicate BrokenAt(urls: nat, steps: seq<Stream.Step>, k: nat, c: nat, i: nat)
    requires Stream.Run(urls, steps).Some? && k < |steps|
  {
    Breaks(Before(urls, steps, k), steps[k], c, i)
  }

  // A link was made, and since then there was no stop of the producer, no
  // reconnect that did not carry it, and the consumer did not leave.
  ghost predicate MadeAndKept(urls: nat, steps: seq<Stream.Step>, c: nat, i: nat)
    requires Stream.Run(urls, steps).Some?
  {
    exists k :: 0 <= k < |steps| && MadeAt(urls, steps, k, c, i) && forall j :: k < j < |steps| ==> !BrokenAt(urls, steps, j, c, i)
  }

  lemma PrefixRun(urls: nat, steps: seq<Stream.Step>, k: nat)
    requires Stream.Run(urls, steps).Some? && k < |steps| - 1
    ensures Stream.Run(urls, steps[..|steps| - 1]).Some? && Before(urls, steps, k) == Before(urls, steps[..|steps| - 1], k)
  {
  }

  lemma SamePast(urls: nat, steps: seq<Stream.Step>, c: nat, i: nat)
    requires Stream.Run(urls, steps).Some? && steps != []
    ensures var rest := steps[..|steps| - 1];
            && Stream.Run(urls, rest).Some?
            && forall k :: 0 <= k < |rest| ==> (MadeAt(urls, steps, k, c, i) <==> MadeAt(urls, rest, k, c, i))
                                               && (BrokenAt(urls, steps, k, c, i) <==> BrokenAt(urls, rest, k, c, i))
  {
    hide Enabled, Apply, Makes, Breaks;
    var rest := steps[..|steps| - 1];
    forall k | 0 <= k < |rest|
      ensures MadeAt(urls, steps, k, c, i) == MadeAt(urls, rest, k, c, i) && BrokenAt(urls, steps, k, c, i) == BrokenAt(urls, rest, k, c, i)
    {
      PrefixRun(urls, steps, k);
    }
  }

  lemma SnocKept(urls: nat, steps: seq<Stream.Step>, c: nat, i: nat)
    requires Stream.Run(urls, steps).Some? && steps != []
    ensures Stream.Run(urls, steps[..|steps| - 1]).Some?
    ensures MadeAndKept(urls, steps, c, i) <==>
            MadeAt(urls, steps, |steps| - 1, c, i) || (MadeAndKept(urls, steps[..|steps| - 1], c, i) && !BrokenAt(urls, steps, |steps| - 1, c, i))
  {
    hide Stream.Run, MadeAt, BrokenAt;
    var rest, n := steps[..|steps| - 1], |steps| - 1;
    SamePast(urls, steps, c, i);
    if MadeAndKept(urls, steps, c, i) && !MadeAt(urls, steps, n, c, i) {
      var k :| 0 <= k < |steps| && MadeAt(urls, steps, k, c, i) && forall j :: k < j < |steps| ==> !BrokenAt(urls, steps, j, c, i);
      assert k < n && MadeAt(urls, rest, k, c, i);
    }
    if MadeAndKept(urls, rest, c, i) && !BrokenAt(urls, steps, n, c, i) {
      var k :| 0 <= k < |rest| && MadeAt(urls, rest, k, c, i) && forall j :: k < j < |rest| ==> !BrokenAt(urls, rest, j, c, i);
      assert MadeAt(urls, steps, k, c, i);
    }
  }

  // In every interleaving: a call or a consumer is linked to a producer exactly
  // when a link was made and kept.
  lemma {:induction false} LinkedExactly(urls: nat, steps: seq<Stream.Step>, c: nat, i: nat)
    requires Stream.Run(urls, steps).Some?
    ensures Live(Stream.Run(urls, steps).value, c) && Linked(Stream.Run(urls, steps).value, c, i) <==> MadeAndKept(urls, steps, c, i)
  {
    hide Good, Apply, Enabled, Linked, Live, Makes, Breaks, MadeAndKept, Exact, Up;
    if steps == [] {
      NobodyYet(urls, steps, c, i);
    } else {
      var rest, n := steps[..|steps| - 1], |steps| - 1;
      var s := Before(urls, steps, n);
      EveryRunIsGood(urls, rest);
      EveryRunIsExact(urls, rest);
      SnocKept(urls, steps, c, i);
      LinkedExactly(urls, rest, c, i);
      if Live(Apply(s, steps[n]), c) {
        StepLinks(s, steps[n], c, i);
        if !Live(s, c) { NotLinkedYet(s, steps[n], c, i); }
      } else {
        LinkEnds(s, steps[n], c, i);
      }
    }
  }

  lemma NobodyYet(urls: nat, steps: seq<Stream.Step>, c: nat, i: nat)
    requires steps == []
    ensures Stream.Run(urls, steps) == Some(NewStream(urls)) && !Live(NewStream(urls), c) && !MadeAndKept(urls, steps, c, i)
  {
  }

  lemma NotLinkedYet(s: State, step: Stream.Step, c: nat, i: nat)
    requires Good(s) && Enabled(s, step) && Live(Apply(s, step), c) && !Live(s, c)
    ensures !Linked(s, c, i)
  {
    hide Good, Apply, Enabled, Live;
    KeepsRecords(s, step);
    assert Unseen(s, c);
  }

  // A link ends with the consumer; a call that is forgotten had none.
  lemma LinkEnds(s: State, step: Stream.Step, c: nat, i: nat)
    requires Good(s) && Exact(s) && Enabled(s, step) && !Live(Apply(s, step), c)
    ensures !Makes(s, step, c, i) && (Live(s, c) && Linked(s, c, i) ==> Breaks(s, step, c, i))
  {
    hide Known, Heard, Owned, Locked, Counted, HeldIs, Exact, Linked, Carried, CanSwap;
    CallsAfter(s, step);
    if Live(s, c) && Linked(s, c, i) {
      LinkedIsRecorded(s, c, i);
    }
    if step.AddToConsumer? || step.AddToProducer? {
      MakerMatches(s, step);
    }
    if step.Swap? {
      SwapApplies(s, step);
      SwappedIs(s, step.i, step.act, step.conn, step.list, step.heard);
    }
    hide Apply;
  }

  // Every consumer that has been added and not removed: it is linked to a
  // producer that it matched, and the producer is up, exactly when the link was
  // kept; it is linked to no other.
  lemma ConsumersAreServed(urls: nat, steps: seq<Stream.Step>, c: nat, i: nat)
    requires Stream.Run(urls, steps).Some?
    requires var s := Stream.Run(urls, steps).value; c in s.consumers && i in s.producers
    ensures var s := Stream.Run(urls, steps).value;
            && (MadeAndKept(urls, steps, c, i) ==> i in s.consumers[c] && Linked(s, c, i) && HasChild(s, i) && Running(s.producers[i]))
            && (!MadeAndKept(urls, steps, c, i) ==> !Linked(s, c, i))
  {
    hide Stream.Run, Known, Heard, Owned, Linked, HasChild, Running, Taken, MadeAndKept, Exact, Up, Locked, Counted, HeldIs;
    var s := Stream.Run(urls, steps).value;
    LinkedExactly(urls, steps, c, i);
    EveryRunIsGood(urls, steps);
    EveryRunIsExact(urls, steps);
    if Linked(s, c, i) {
      LinkedIsTaken(s, c, i);
      UpAt(s, c, i);
      LinkedIsRecorded(s, c, i);
    }
  }

  // When AddConsumer has called start for a producer that it matched, the
  // producer is up exactly when a track of it was taken or given to it and it
  // was not stopped since; and it is up if it is linked.
  lemma StartedExactly(urls: nat, steps: seq<Stream.Step>, c: nat, i: nat)
    requires Stream.Run(urls, steps).Some? && Enabled(Stream.Run(urls, steps).value, StartOne(c, i))
    ensures var s := Stream.Run(urls, steps).value; var r := Apply(s, StartOne(c, i));
            && i in r.producers && (Running(r.producers[i]) <==> Taken(s.producers[i]))
            && (MadeAndKept(urls, steps, c, i) ==> Linked(r, c, i) && Running(r.producers[i]))
  {
    hide Stream.Run, Known, Heard, Owned, Linked, Running, Taken, MadeAndKept, Named, Locked, Counted, WithLife, After;
    var s := Stream.Run(urls, steps).value;
    LinkedExactly(urls, steps, c, i);
    EveryRunIsGood(urls, steps);
    PhaseAfter(s, StartOne(c, i), i);
    StepLinks(s, StartOne(c, i), c, i);
    if Linked(s, c, i) {
      LinkedIsTaken(s, c, i);
    }
  }
}
