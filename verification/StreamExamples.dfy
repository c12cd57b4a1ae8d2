// internal/streams: runs in which consumers and producers part ways. The steps are
// those of the protocol, in an order that the goroutines can take.

module StreamExamples {
  import opened Bytes
  import opened Lifecycle
  import opened Stream
  import opened StreamLinks
  import opened StreamRuns
  import opened StreamSweeps
  import Node

  // A stream with one URL, which becomes producer 0.
  function World(p: Stream.Producer, tracks: map<nat, Track>, consumers: map<nat, set<nat>>, calls: map<nat, Call>,
                 pending: int, due: nat, waiting: nat, lock: Option<Sweep>, moving: set<nat>): State
  {
    State(map[0 := p], {0}, 1, tracks, consumers, calls, pending, due, waiting, lock, moving)
  }

  function One(life: Life, receivers: seq<nat>, tracks: map<nat, Track>, consumers: map<nat, set<nat>>, calls: map<nat, Call>,
               pending: int, due: nat, waiting: nat, lock: Option<Sweep>): State
  {
    World(Stream.Producer(life, receivers, []), tracks, consumers, calls, pending, due, waiting, lock, {})
  }

  function Dialled(phase: Phase): Life {
    Life(phase, Some(5), 0, map[], 0, multiset{5}, multiset{})
  }

  const Runs := Life(Started, Some(5), 1, map[0 := Worker(5, 1)], 1, multiset{5}, multiset{})

  const Halted := Life(Idle, None, 2, map[0 := Worker(5, 1)], 1, multiset{5}, multiset{5})

  function Heard0(childs: seq<Owner>): map<nat, Track> {
    map[7 := Track(Prod(0), 5, childs)]
  }

  lemma OneStep(s: State, step: Stream.Step, rest: seq<Stream.Step>, r: State)
    requires Enabled(s, step) && Apply(s, step) == r
    ensures Path(s, [step] + rest) == Path(r, rest)
  {
    hide Enabled, Apply;
    assert ([step] + rest)[1..] == rest;
  }

  // How one producer, one track and one call change.
  lemma OneLife(s: State, p: Stream.Producer, life: Life)
    requires s.producers == map[0 := p]
    ensures WithLife(s, 0, life) == s.(producers := map[0 := p.(life := life)])
  {
  }

  lemma OneCall(s: State, c: nat, a: Call, b: Call)
    requires s.calls == map[c := a]
    ensures WithCall(s, c, b) == s.(calls := map[c := b])
  {
  }

  lemma OneChild(s: State, childs: seq<Owner>, child: Owner)
    requires s.tracks == Heard0(childs)
    ensures WithChild(s, 7, child) == s.(tracks := Heard0(childs + [child]))
  {
  }

  lemma OneTaken(s: State, p: Stream.Producer)
    requires s.producers == map[0 := p] && p.life == Dialled(Medias) && p.receivers == [] == p.senders && s.tracks == map[]
    ensures TakeNew(s, 0, 7) == s.(producers := map[0 := Stream.Producer(Dialled(Tracks), [7], [])], tracks := Heard0([]))
  {
    OneLife(s, p, Dialled(Tracks));
    assert After(p, Lifecycle.GetTrack(false, true)) == Dialled(Tracks);
    assert [] + [7] == [7];
  }

  lemma FirstTakes()
    ensures Path(NewStream(1), [Begin(0), DialFor(0, 0, Some(5)), TakeTrack(0, 0, 7), AddToConsumer(0, 0, 7)])
            == Some(One(Dialled(Tracks), [7], Heard0([Cons(0)]), map[], map[0 := Matching({0}, {}, Nothing)], 1, 0, 0, None))
  {
    assert FromUrls(1) == map[0 := Stream.Producer(NewProducer(), [], [])];
    var s0 := One(NewProducer(), [], map[], map[], map[], 0, 0, 0, None);
    assert NewStream(1) == s0;
    var s1 := One(NewProducer(), [], map[], map[], map[0 := Matching({}, {}, Nothing)], 1, 0, 0, None);
    OneStep(s0, Begin(0), [DialFor(0, 0, Some(5)), TakeTrack(0, 0, 7), AddToConsumer(0, 0, 7)], s1);
    var s2 := One(Dialled(Medias), [], map[], map[], map[0 := Matching({}, {}, Nothing)], 1, 0, 0, None);
    OneLife(s1, Stream.Producer(NewProducer(), [], []), Dialled(Medias));
    assert multiset{} + multiset{5} == multiset{5};
    OneStep(s1, DialFor(0, 0, Some(5)), [TakeTrack(0, 0, 7), AddToConsumer(0, 0, 7)], s2);
    FirstAdds(s2);
  }

  lemma FirstAdds(s: State)
    requires s == One(Dialled(Medias), [], map[], map[], map[0 := Matching({}, {}, Nothing)], 1, 0, 0, None)
    ensures Path(s, [TakeTrack(0, 0, 7), AddToConsumer(0, 0, 7)])
            == Some(One(Dialled(Tracks), [7], Heard0([Cons(0)]), map[], map[0 := Matching({0}, {}, Nothing)], 1, 0, 0, None))
  {
    var s3 := One(Dialled(Tracks), [7], Heard0([]), map[], map[0 := Matching({}, {}, Took(0, 7))], 1, 0, 0, None);
    OneTaken(s, Stream.Producer(Dialled(Medias), [], []));
    OneCall(TakeNew(s, 0, 7), 0, Matching({}, {}, Nothing), Matching({}, {}, Took(0, 7)));
    OneStep(s, TakeTrack(0, 0, 7), [AddToConsumer(0, 0, 7)], s3);
    var s4 := One(Dialled(Tracks), [7], Heard0([Cons(0)]), map[], map[0 := Matching({0}, {}, Nothing)], 1, 0, 0, None);
    OneChild(s3, [], Cons(0));
    OneCall(WithChild(s3, 7, Cons(0)), 0, Matching({}, {}, Took(0, 7)), Matching({0}, {}, Nothing));
    assert [] + [Cons(0)] == [Cons(0)] && {} + {0} == {0};
    OneStep(s3, AddToConsumer(0, 0, 7), [], s4);
  }

  lemma OneKey<V>(k: nat, a: V, b: V)
    ensures map[k := a][k := b] == map[k := b]
  {
  }

  // stop of a running producer without children.
  lemma HaltsAll(s: State)
    requires s.producers == map[0 := Stream.Producer(Runs, [7], [])] && s.tracks == Heard0([])
    ensures Stopped(s, 0) == s.(producers := map[0 := Stream.Producer(Halted, [], [])])
  {
    assert StopOne(s.producers[0]) == Stream.Producer(Halted, [], []) by {
      assert multiset{} + multiset{5} == multiset{5};
    }
    assert CloseAll(Heard0([]), Prod(0), 5) == Heard0([]);
  }

  // stopProducers with one producer, which has a child; and which has none.
  lemma SweepStays(s: State)
    requires s.due > 0 && s.pending <= 0 && s.lock == None && s.listed == {0} && 0 in s.producers && HasChild(s, 0)
    ensures Path(s, [Check, Lock, Look(0), Unlock]) == Some(s.(due := s.due - 1))
  {
    hide HasChild, Enabled, Apply;
    var s1 := s.(due := s.due - 1, waiting := s.waiting + 1);
    CheckIs(s);
    OneStep(s, Check, [Lock, Look(0), Unlock], s1);
    var s2 := s1.(waiting := s.waiting, lock := Some(Sweep({0}, None)));
    LockIs(s1);
    OneStep(s1, Lock, [Look(0), Unlock], s2);
    SameChildren(s, s2, 0);
    LookPasses(s2);
    assert s2.(lock := None) == s.(due := s.due - 1);
  }

  lemma CheckIs(s: State)
    requires s.due > 0 && s.pending <= 0
    ensures Enabled(s, Check) && Apply(s, Check) == s.(due := s.due - 1, waiting := s.waiting + 1)
  {
  }

  lemma LockIs(s: State)
    requires s.waiting > 0 && s.lock == None
    ensures Enabled(s, Lock) && Apply(s, Lock) == s.(waiting := s.waiting - 1, lock := Some(Sweep(s.listed, None)))
  {
  }

  lemma LookPasses(s: State)
    requires s.lock == Some(Sweep({0}, None)) && 0 in s.producers && HasChild(s, 0)
    ensures Path(s, [Look(0), Unlock]) == Some(s.(lock := None))
  {
    hide HasChild;
    assert {0} - {0} == {};
    OneStep(s, Look(0), [Unlock], s.(lock := Some(Sweep({}, None))));
    OneStep(s.(lock := Some(Sweep({}, None))), Unlock, [], s.(lock := None));
  }

  lemma SweepStops(s: State)
    requires s.waiting > 0 && s.lock == None && s.listed == {0} && 0 in s.producers && !HasChild(s, 0) && s.moving == {}
    ensures Path(s, [Lock, Look(0), StopNow, Unlock]) == Some(Stopped(s, 0).(waiting := s.waiting - 1))
  {
    hide HasChild, Stopped, Enabled, Apply;
    var s1 := s.(waiting := s.waiting - 1, lock := Some(Sweep({0}, None)));
    LockIs(s);
    OneStep(s, Lock, [Look(0), StopNow, Unlock], s1);
    SameChildren(s, s1, 0);
    var s2 := s1.(lock := Some(Sweep({0}, Some(0))));
    LookDooms(s1);
    OneStep(s1, Look(0), [StopNow, Unlock], s2);
    StopNowIs(s2);
    StoppedElse(s, s2);
    StoppedIs(s, 0);
  }

  lemma LookDooms(s: State)
    requires s.lock == Some(Sweep({0}, None)) && 0 in s.producers && !HasChild(s, 0)
    ensures Enabled(s, Look(0)) && Apply(s, Look(0)) == s.(lock := Some(Sweep({0}, Some(0))))
  {
    hide HasChild;
  }

  lemma StopNowIs(s: State)
    requires s.lock == Some(Sweep({0}, Some(0))) && 0 in s.producers && s.moving == {}
    ensures Path(s, [StopNow, Unlock]) == Some(Stopped(s, 0).(lock := None))
  {
    hide StopOne, CloseAll;
    var r := Stopped(s, 0).(lock := Some(Sweep({}, None)));
    assert {0} - {0} == {};
    OneStep(s, StopNow, [Unlock], r);
    OneStep(r, Unlock, [], r.(lock := None));
  }

  lemma StoppedElse(s: State, r: State)
    requires 0 in s.producers && r == s.(waiting := r.waiting, lock := r.lock)
    ensures Stopped(r, 0) == Stopped(s, 0).(waiting := r.waiting, lock := r.lock)
  {
    hide StopOne, CloseAll;
  }

  lemma FirstEnds()
    ensures Path(One(Dialled(Tracks), [7], Heard0([Cons(0)]), map[], map[0 := Matching({0}, {}, Nothing)], 1, 0, 0, None), [End(0)])
            == Some(One(Dialled(Tracks), [7], Heard0([Cons(0)]), map[], map[0 := Matched({0}, {})], 0, 1, 0, None))
  {
    var s0 := One(Dialled(Tracks), [7], Heard0([Cons(0)]), map[], map[0 := Matching({0}, {}, Nothing)], 1, 0, 0, None);
    var s1 := One(Dialled(Tracks), [7], Heard0([Cons(0)]), map[], map[0 := Matched({0}, {})], 0, 1, 0, None);
    OneKey(0, Matching({0}, {}, Nothing), Matched({0}, {}));
    OneStep(s0, End(0), [], s1);
  }

  lemma FirstSweeps()
    ensures Path(One(Dialled(Tracks), [7], Heard0([Cons(0)]), map[], map[0 := Matched({0}, {})], 0, 1, 0, None), [Check, Lock, Look(0), Unlock])
            == Some(One(Dialled(Tracks), [7], Heard0([Cons(0)]), map[], map[0 := Matched({0}, {})], 0, 0, 0, None))
  {
    var s := One(Dialled(Tracks), [7], Heard0([Cons(0)]), map[], map[0 := Matched({0}, {})], 0, 1, 0, None);
    assert s.tracks[7].childs != [] && 7 in s.producers[0].receivers;
    ChildCounts(s, 0, 7);
    SweepStays(s);
  }

  lemma FirstReturns()
    ensures Path(One(Dialled(Tracks), [7], Heard0([Cons(0)]), map[], map[0 := Matched({0}, {})], 0, 0, 0, None), [Commit(0), StartOne(0, 0), Return(0)])
            == Some(One(Runs, [7], Heard0([Cons(0)]), map[0 := {0}], map[], 0, 0, 0, None))
  {
    var s0 := One(Dialled(Tracks), [7], Heard0([Cons(0)]), map[], map[0 := Matched({0}, {})], 0, 0, 0, None);
    var s1 := One(Dialled(Tracks), [7], Heard0([Cons(0)]), map[], map[0 := Starting({0}, {}, {0})], 0, 0, 0, None);
    OneCall(s0, 0, Matched({0}, {}), Starting({0}, {}, {0}));
    assert {0} + {} == {0};
    OneStep(s0, Commit(0), [StartOne(0, 0), Return(0)], s1);
    var s2 := One(Runs, [7], Heard0([Cons(0)]), map[], map[0 := Starting({0}, {}, {})], 0, 0, 0, None);
    OneLife(s1, Stream.Producer(Dialled(Tracks), [7], []), Runs);
    assert After(Stream.Producer(Dialled(Tracks), [7], []), Start) == Runs;
    OneCall(WithLife(s1, 0, Runs), 0, Starting({0}, {}, {0}), Starting({0}, {}, {}));
    assert {0} - {0} == {};
    OneStep(s1, StartOne(0, 0), [Return(0)], s2);
    var s3 := One(Runs, [7], Heard0([Cons(0)]), map[0 := {0}], map[], 0, 0, 0, None);
    assert map[0 := Starting({0}, {}, {})] - {0} == map[];
    OneStep(s2, Return(0), [], s3);
  }

  lemma FirstLeaves()
    ensures Path(One(Runs, [7], Heard0([Cons(0)]), map[0 := {0}], map[], 0, 0, 0, None), [Remove(0), Check])
            == Some(One(Runs, [7], Heard0([]), map[], map[], 0, 0, 1, None))
  {
    hide Enabled, Apply, One, Heard0;
    RemoveStep();
    CheckStep();
    OneStep(One(Runs, [7], Heard0([]), map[], map[], 0, 1, 0, None), Check, [], One(Runs, [7], Heard0([]), map[], map[], 0, 0, 1, None));
    OneStep(One(Runs, [7], Heard0([Cons(0)]), map[0 := {0}], map[], 0, 0, 0, None), Remove(0), [Check],
            One(Runs, [7], Heard0([]), map[], map[], 0, 1, 0, None));
  }

  lemma RemoveStep()
    ensures var s := One(Runs, [7], Heard0([Cons(0)]), map[0 := {0}], map[], 0, 0, 0, None);
            Enabled(s, Remove(0)) && Apply(s, Remove(0)) == One(Runs, [7], Heard0([]), map[], map[], 0, 1, 0, None)
  {
    assert map[0 := {0}] - {0} == map[];
    assert CloseAll(Heard0([Cons(0)]), Cons(0), 0) == Heard0([]) by {
      assert Detach([Cons(0)], Cons(0)) == [];
    }
    hide CloseAll, Heard0;
  }

  lemma CheckStep()
    ensures var s := One(Runs, [7], Heard0([]), map[], map[], 0, 1, 0, None);
            Enabled(s, Check) && Apply(s, Check) == One(Runs, [7], Heard0([]), map[], map[], 0, 0, 1, None)
  {
    hide Heard0;
  }

  lemma SecondTakes()
    ensures Path(One(Runs, [7], Heard0([]), map[], map[], 0, 0, 1, None), [Begin(1), DialFor(1, 0, None), TakeTrack(1, 0, 7)])
            == Some(One(Runs, [7], Heard0([]), map[], map[1 := Matching({}, {}, Took(0, 7))], 1, 0, 1, None))
  {
    var s0 := One(Runs, [7], Heard0([]), map[], map[], 0, 0, 1, None);
    var s1 := One(Runs, [7], Heard0([]), map[], map[1 := Matching({}, {}, Nothing)], 1, 0, 1, None);
    OneStep(s0, Begin(1), [DialFor(1, 0, None), TakeTrack(1, 0, 7)], s1);
    var s2 := One(Runs, [7], Heard0([]), map[], map[1 := Matching({}, {}, Nothing)], 1, 0, 1, None);
    OneLife(s1, Stream.Producer(Runs, [7], []), Runs);
    OneStep(s1, DialFor(1, 0, None), [TakeTrack(1, 0, 7)], s2);
    var s3 := One(Runs, [7], Heard0([]), map[], map[1 := Matching({}, {}, Took(0, 7))], 1, 0, 1, None);
    OneCall(s2, 1, Matching({}, {}, Nothing), Matching({}, {}, Took(0, 7)));
    OneStep(s2, TakeTrack(1, 0, 7), [], s3);
  }

  lemma SecondIsSwept()
    ensures Path(One(Runs, [7], Heard0([]), map[], map[1 := Matching({}, {}, Took(0, 7))], 1, 0, 1, None), [Lock, Look(0), StopNow, Unlock])
            == Some(One(Halted, [], Heard0([]), map[], map[1 := Matching({}, {}, Took(0, 7))], 1, 0, 0, None))
  {
    var s := One(Runs, [7], Heard0([]), map[], map[1 := Matching({}, {}, Took(0, 7))], 1, 0, 1, None);
    NoChild(s);
    SweepStops(s);
    HaltsAll(s);
  }

  lemma NoChild(s: State)
    requires 0 in s.producers && (s.tracks == Heard0([]) || s.producers[0].receivers == [] == s.producers[0].senders)
    ensures !HasChild(s, 0)
  {
  }

  lemma SecondAdds()
    ensures Path(One(Halted, [], Heard0([]), map[], map[1 := Matching({}, {}, Took(0, 7))], 1, 0, 0, None), [AddToConsumer(1, 0, 7), End(1), Check])
            == Some(One(Halted, [], Heard0([Cons(1)]), map[], map[1 := Matched({0}, {})], 0, 0, 1, None))
  {
    hide Enabled, Apply, One, Heard0;
    var s0 := One(Halted, [], Heard0([]), map[], map[1 := Matching({}, {}, Took(0, 7))], 1, 0, 0, None);
    var s1 := One(Halted, [], Heard0([Cons(1)]), map[], map[1 := Matching({0}, {}, Nothing)], 1, 0, 0, None);
    var s2 := One(Halted, [], Heard0([Cons(1)]), map[], map[1 := Matched({0}, {})], 0, 1, 0, None);
    LateAdd();
    OneStep(s0, AddToConsumer(1, 0, 7), [End(1), Check], s1);
    LateEnd();
    OneStep(s1, End(1), [Check], s2);
    OneStep(s2, Check, [], One(Halted, [], Heard0([Cons(1)]), map[], map[1 := Matched({0}, {})], 0, 0, 1, None));
  }

  lemma LateAdd()
    ensures var s := One(Halted, [], Heard0([]), map[], map[1 := Matching({}, {}, Took(0, 7))], 1, 0, 0, None);
            && Enabled(s, AddToConsumer(1, 0, 7))
            && Apply(s, AddToConsumer(1, 0, 7)) == One(Halted, [], Heard0([Cons(1)]), map[], map[1 := Matching({0}, {}, Nothing)], 1, 0, 0, None)
  {
    var s := One(Halted, [], Heard0([]), map[], map[1 := Matching({}, {}, Took(0, 7))], 1, 0, 0, None);
    OneChild(s, [], Cons(1));
    OneCall(WithChild(s, 7, Cons(1)), 1, Matching({}, {}, Took(0, 7)), Matching({0}, {}, Nothing));
    assert [] + [Cons(1)] == [Cons(1)] && {} + {0} == {0};
    hide WithChild, WithCall;
  }

  lemma LateEnd()
    ensures var s := One(Halted, [], Heard0([Cons(1)]), map[], map[1 := Matching({0}, {}, Nothing)], 1, 0, 0, None);
            && Enabled(s, End(1)) && Apply(s, End(1)) == One(Halted, [], Heard0([Cons(1)]), map[], map[1 := Matched({0}, {})], 0, 1, 0, None)
    ensures var s := One(Halted, [], Heard0([Cons(1)]), map[], map[1 := Matched({0}, {})], 0, 1, 0, None);
            && Enabled(s, Check) && Apply(s, Check) == One(Halted, [], Heard0([Cons(1)]), map[], map[1 := Matched({0}, {})], 0, 0, 1, None)
  {
    hide Heard0;
    OneKey(1, Matching({0}, {}, Nothing), Matched({0}, {}));
  }

  lemma SecondSweeps()
    ensures Path(One(Halted, [], Heard0([Cons(1)]), map[], map[1 := Matched({0}, {})], 0, 0, 1, None), [Lock, Look(0), StopNow, Unlock])
            == Some(One(Halted, [], Heard0([Cons(1)]), map[], map[1 := Matched({0}, {})], 0, 0, 0, None))
  {
    var s := One(Halted, [], Heard0([Cons(1)]), map[], map[1 := Matched({0}, {})], 0, 0, 1, None);
    NoChild(s);
    SweepStops(s);
  }

  lemma SecondReturns()
    ensures Path(One(Halted, [], Heard0([Cons(1)]), map[], map[1 := Matched({0}, {})], 0, 0, 0, None), [Commit(1), StartOne(1, 0), Return(1)])
            == Some(One(Halted, [], Heard0([Cons(1)]), map[1 := {0}], map[], 0, 0, 0, None))
  {
    var s0 := One(Halted, [], Heard0([Cons(1)]), map[], map[1 := Matched({0}, {})], 0, 0, 0, None);
    var s1 := One(Halted, [], Heard0([Cons(1)]), map[], map[1 := Starting({0}, {}, {0})], 0, 0, 0, None);
    OneCall(s0, 1, Matched({0}, {}), Starting({0}, {}, {0}));
    assert {0} + {} == {0};
    OneStep(s0, Commit(1), [StartOne(1, 0), Return(1)], s1);
    var s2 := One(Halted, [], Heard0([Cons(1)]), map[], map[1 := Starting({0}, {}, {})], 0, 0, 0, None);
    OneLife(s1, Stream.Producer(Halted, [], []), Halted);
    OneCall(WithLife(s1, 0, Halted), 1, Starting({0}, {}, {0}), Starting({0}, {}, {}));
    assert {0} - {0} == {};
    OneStep(s1, StartOne(1, 0), [Return(1)], s2);
    var s3 := One(Halted, [], Heard0([Cons(1)]), map[1 := {0}], map[], 0, 0, 0, None);
    assert map[1 := Starting({0}, {}, {})] - {1} == map[];
    OneStep(s2, Return(1), [], s3);
  }

  // A consumer leaves, and the next one comes before stopProducers has stopped
  // the producer.
  function LateSweep(): seq<Stream.Step> {
    [Begin(0), DialFor(0, 0, Some(5)), TakeTrack(0, 0, 7), AddToConsumer(0, 0, 7)] +
    [End(0)] +
    [Check, Lock, Look(0), Unlock] +
    [Commit(0), StartOne(0, 0), Return(0)] +
    [Remove(0), Check] +
    [Begin(1), DialFor(1, 0, None), TakeTrack(1, 0, 7)] +
    [Lock, Look(0), StopNow, Unlock] +
    [AddToConsumer(1, 0, 7), End(1), Check] +
    [Lock, Look(0), StopNow, Unlock] +
    [Commit(1), StartOne(1, 0), Return(1)]
  }

  // Its AddConsumer returns without an error, having matched the producer by a
  // track; but the producer is idle and the consumer is not linked to it.
  lemma SweepCutsConsumer()
    ensures Stream.Run(1, LateSweep()).Some?
    ensures var s := Stream.Run(1, LateSweep()).value;
            1 in s.consumers && 0 in s.consumers[1] && 0 in s.producers && s.producers[0].life.phase == Idle && !Linked(s, 1, 0)
  {
    hide Enabled, Apply, One, Heard0;
    var a := [Begin(0), DialFor(0, 0, Some(5)), TakeTrack(0, 0, 7), AddToConsumer(0, 0, 7)];
    FirstTakes();
    var a1 := a + [End(0)];
    FirstEnds();
    PathSplit(NewStream(1), a, [End(0)]);
    var a2 := a1 + [Check, Lock, Look(0), Unlock];
    FirstSweeps();
    PathSplit(NewStream(1), a1, [Check, Lock, Look(0), Unlock]);
    var a3 := a2 + [Commit(0), StartOne(0, 0), Return(0)];
    FirstReturns();
    PathSplit(NewStream(1), a2, [Commit(0), StartOne(0, 0), Return(0)]);
    var a4 := a3 + [Remove(0), Check];
    FirstLeaves();
    PathSplit(NewStream(1), a3, [Remove(0), Check]);
    var a5 := a4 + [Begin(1), DialFor(1, 0, None), TakeTrack(1, 0, 7)];
    SecondTakes();
    PathSplit(NewStream(1), a4, [Begin(1), DialFor(1, 0, None), TakeTrack(1, 0, 7)]);
    var a6 := a5 + [Lock, Look(0), StopNow, Unlock];
    SecondIsSwept();
    PathSplit(NewStream(1), a5, [Lock, Look(0), StopNow, Unlock]);
    var a7 := a6 + [AddToConsumer(1, 0, 7), End(1), Check];
    SecondAdds();
    PathSplit(NewStream(1), a6, [AddToConsumer(1, 0, 7), End(1), Check]);
    var a8 := a7 + [Lock, Look(0), StopNow, Unlock];
    SecondSweeps();
    PathSplit(NewStream(1), a7, [Lock, Look(0), StopNow, Unlock]);
    var a9 := a8 + [Commit(1), StartOne(1, 0), Return(1)];
    SecondReturns();
    PathSplit(NewStream(1), a8, [Commit(1), StartOne(1, 0), Return(1)]);
    assert LateSweep() == a9;
    RunIsPath(1, LateSweep());
    LastState();
  }

  lemma NobodyListens(s: State)
    requires 0 in s.producers && s.producers[0].life.conn == None && forall t :: t in s.tracks ==> s.tracks[t].owner == Prod(0)
    ensures forall c :: !Linked(s, c, 0)
  {
  }

  lemma LastState()
    ensures var s := One(Halted, [], Heard0([Cons(1)]), map[1 := {0}], map[], 0, 0, 0, None);
            1 in s.consumers && 0 in s.consumers[1] && 0 in s.producers && s.producers[0].life.phase == Idle && !Linked(s, 1, 0)
  {
    NobodyListens(One(Halted, [], Heard0([Cons(1)]), map[1 := {0}], map[], 0, 0, 0, None));
  }

  // A consumer of the track has been added, and nothing is under way.
  function Added(): seq<Stream.Step> {
    [Begin(0), DialFor(0, 0, Some(5)), TakeTrack(0, 0, 7), AddToConsumer(0, 0, 7)] +
    [End(0)] +
    [Check, Lock, Look(0), Unlock] +
    [Commit(0), StartOne(0, 0), Return(0)]
  }

  const Fed := One(Runs, [7], Heard0([Cons(0)]), map[0 := {0}], map[], 0, 0, 0, None)

  lemma AddedIs()
    ensures Path(NewStream(1), Added()) == Some(Fed)
  {
    hide Enabled, Apply, One, Heard0;
    var a := [Begin(0), DialFor(0, 0, Some(5)), TakeTrack(0, 0, 7), AddToConsumer(0, 0, 7)];
    FirstTakes();
    FirstEnds();
    PathSplit(NewStream(1), a, [End(0)]);
    FirstSweeps();
    PathSplit(NewStream(1), a + [End(0)], [Check, Lock, Look(0), Unlock]);
    FirstReturns();
    PathSplit(NewStream(1), a + [End(0)] + [Check, Lock, Look(0), Unlock], [Commit(0), StartOne(0, 0), Return(0)]);
  }

  // Steps one after the other.
  lemma Then(s: State, a: seq<Stream.Step>, m: State, b: seq<Stream.Step>, r: State)
    requires Path(s, a) == Some(m) && Path(m, b) == Some(r)
    ensures Path(s, a + b) == Some(r)
  {
    PathSplit(s, a, b);
  }

  lemma JustOne(s: State, step: Stream.Step, r: State)
    requires Enabled(s, step) && Apply(s, step) == r
    ensures Path(s, [step]) == Some(r)
  {
    hide Enabled, Apply;
    OneStep(s, step, [], r);
    assert [step] + [] == [step];
  }

  // ---- Reconnects ---------------------------------------------------------------------------

  const Due1 := Life(Started, Some(5), 1, map[0 := Due(1, 0)], 1, multiset{5}, multiset{})

  const Again := Life(Started, Some(6), 1, map[0 := Worker(6, 1)], 1, multiset{5, 6}, multiset{5})

  // The worker of a producer with one consumer returns, and the new connection
  // has no media for its track.
  function LosingReconnect(): seq<Stream.Step> {
    Added() + [Own(0, Returns(0, false)), Moving(0)] + [Swap(0, 0, 6, [7], [])] + [Settle(0)]
  }

  lemma WorkerReturns(p: Stream.Producer, tracks: map<nat, Track>, consumers: map<nat, set<nat>>)
    requires p.life == Runs
    ensures Path(World(p, tracks, consumers, map[], 0, 0, 0, None, {}), [Own(0, Returns(0, false)), Moving(0)])
            == Some(World(p.(life := Due1), tracks, consumers, map[], 0, 0, 0, None, {0}))
  {
    var s := World(p, tracks, consumers, map[], 0, 0, 0, None, {});
    var r := World(p.(life := Due1), tracks, consumers, map[], 0, 0, 0, None, {});
    assert After(p, Returns(0, false)) == Due1 by { OneKey(0, Worker(5, 1), Due(1, 0)); }
    OneLife(s, p, Due1);
    hide After;
    OneStep(s, Own(0, Returns(0, false)), [Moving(0)], r);
    assert {} + {0} == {0};
    OneStep(r, Moving(0), [], r.(moving := {0}));
  }

  // The life and the tracks after a reconnect to connection 6.
  lemma Reconnects(p: Stream.Producer, s: State, list: seq<nat>, heard: seq<nat>)
    requires s.producers == map[0 := p] && p.life == Due1 && CanSwap(s, 0, 0, 6, list, heard)
    ensures Swapped(s, 0, 0, 6, list, heard) == s.(producers := map[0 := Stream.Producer(Again, list, p.senders)], tracks := Renewed(s, 0, 6, list, heard))
  {
    hide Renewed;
    assert After(p, Reconnect(0, Some(6))) == Again by {
      OneKey(0, Due(1, 0), Worker(6, 1));
      assert multiset{5} + multiset{6} == multiset{5, 6};
    }
  }

  lemma SwapStep(s: State, list: seq<nat>, heard: seq<nat>)
    requires CanSwap(s, 0, 0, 6, list, heard)
    ensures Path(s, [Swap(0, 0, 6, list, heard)]) == Some(Swapped(s, 0, 0, 6, list, heard))
  {
    hide Swaps, IsNew, Renewed;
    JustOne(s, Swap(0, 0, 6, list, heard), Swapped(s, 0, 0, 6, list, heard));
  }

  lemma SettleStep(s: State)
    requires s.moving == {0}
    ensures Path(s, [Settle(0)]) == Some(s.(moving := {}))
  {
    assert {0} - {0} == {};
    JustOne(s, Settle(0), s.(moving := {}));
  }

  lemma LosesTrack(s: State)
    requires s == World(Stream.Producer(Due1, [7], []), Heard0([Cons(0)]), map[0 := {0}], map[], 0, 0, 0, None, {0})
    ensures CanSwap(s, 0, 0, 6, [7], []) && Renewed(s, 0, 6, [7], []) == Heard0([])
  {
    assert Renewed(s, 0, 6, [7], [])[7].childs == [];
    assert Renewed(s, 0, 6, [7], []).Keys == {7};
  }

  // The producer goes on with the new connection, and the consumer stays, but
  // is not linked to it.
  lemma ReconnectCutsConsumer()
    ensures Stream.Run(1, LosingReconnect()).Some?
    ensures var s := Stream.Run(1, LosingReconnect()).value;
            0 in s.consumers && 0 in s.consumers[0] && 0 in s.producers && s.producers[0].life.conn == Some(6) && Running(s.producers[0]) && !Linked(s, 0, 0)
  {
    hide Enabled, Apply, CanSwap, Renewed, Swapped;
    AddedIs();
    var p := Stream.Producer(Runs, [7], []);
    WorkerReturns(p, Heard0([Cons(0)]), map[0 := {0}]);
    var due := World(Stream.Producer(Due1, [7], []), Heard0([Cons(0)]), map[0 := {0}], map[], 0, 0, 0, None, {0});
    var again := World(Stream.Producer(Again, [7], []), Heard0([]), map[0 := {0}], map[], 0, 0, 0, None, {0});
    LosesTrack(due);
    Reconnects(Stream.Producer(Due1, [7], []), due, [7], []);
    SwapStep(due, [7], []);
    SettleStep(again);
    Then(NewStream(1), Added(), Fed, [Own(0, Returns(0, false)), Moving(0)], due);
    Then(NewStream(1), Added() + [Own(0, Returns(0, false)), Moving(0)], due, [Swap(0, 0, 6, [7], [])], again);
    Then(NewStream(1), Added() + [Own(0, Returns(0, false)), Moving(0)] + [Swap(0, 0, 6, [7], [])], again, [Settle(0)], again.(moving := {}));
    RunIsPath(1, LosingReconnect());
    NoChildNoLink(again.(moving := {}));
  }

  lemma NoChildNoLink(s: State)
    requires forall t :: t in s.tracks ==> s.tracks[t].childs == []
    ensures forall c, i :: !Linked(s, c, i)
  {
  }

  // ---- A stopProducers that looks in the middle of a reconnect ---------------------------------

  // A consumer comes and finds nothing; the stopProducers at the end of its call
  // looks at the tracks of the producer while they are moved.
  function Glimpsed(): seq<Stream.Step> {
    Added() + [Begin(1), End(1), Check, Lock] + [Own(0, Returns(0, false)), Moving(0)] + [Glimpse(0)] + [Swap(0, 0, 6, [8], [])] + [Settle(0)] +
    [StopNow, Unlock]
  }

  const Gone := Life(Idle, None, 2, map[0 := Worker(6, 1)], 1, multiset{5, 6}, multiset{5, 6})

  function Moved8(childs: seq<Owner>): map<nat, Track> {
    map[7 := Track(Prod(0), 5, []), 8 := Track(Prod(0), 6, childs)]
  }

  lemma FailedCall()
    ensures Path(Fed, [Begin(1), End(1), Check, Lock]) == Some(Fed.(lock := Some(Sweep({0}, None))))
  {
    hide Enabled, Apply, Heard0;
    var s1 := Fed.(calls := map[1 := Matching({}, {}, Nothing)], pending := 1);
    NothingBegins();
    OneStep(Fed, Begin(1), [End(1), Check, Lock], s1);
    NothingEnds(s1);
    OneStep(s1, End(1), [Check, Lock], Fed.(due := 1));
    CheckIs(Fed.(due := 1));
    OneStep(Fed.(due := 1), Check, [Lock], Fed.(waiting := 1));
    LockIs(Fed.(waiting := 1));
    OneStep(Fed.(waiting := 1), Lock, [], Fed.(lock := Some(Sweep({0}, None))));
  }

  lemma NothingBegins()
    ensures Enabled(Fed, Begin(1)) && Apply(Fed, Begin(1)) == Fed.(calls := map[1 := Matching({}, {}, Nothing)], pending := 1)
  {
    FedTracks();
    hide Heard0;
  }

  lemma NothingEnds(s: State)
    requires s.calls == map[1 := Matching({}, {}, Nothing)] && s.pending == 1 && s.due == 0
    ensures Enabled(s, End(1)) && Apply(s, End(1)) == s.(calls := map[], pending := 0, due := 1)
  {
    assert s.calls - {1} == map[];
  }

  lemma FedTracks()
    ensures forall t :: t in Fed.tracks ==> Fed.tracks[t].owner == Prod(0) && Fed.tracks[t].childs == [Cons(0)]
  {
  }

  lemma ReturnsLocked()
    ensures Path(Fed.(lock := Some(Sweep({0}, None))), [Own(0, Returns(0, false)), Moving(0)])
            == Some(World(Stream.Producer(Due1, [7], []), Heard0([Cons(0)]), map[0 := {0}], map[], 0, 0, 0, Some(Sweep({0}, None)), {0}))
  {
    var s := Fed.(lock := Some(Sweep({0}, None)));
    var p := Stream.Producer(Runs, [7], []);
    var r := World(p.(life := Due1), Heard0([Cons(0)]), map[0 := {0}], map[], 0, 0, 0, Some(Sweep({0}, None)), {});
    assert After(p, Returns(0, false)) == Due1 by { OneKey(0, Worker(5, 1), Due(1, 0)); }
    OneLife(s, p, Due1);
    hide After, Heard0;
    OneStep(s, Own(0, Returns(0, false)), [Moving(0)], r);
    assert {} + {0} == {0};
    OneStep(r, Moving(0), [], r.(moving := {0}));
  }

  lemma CarriesTrack(s: State, lock: Option<Sweep>)
    requires s == World(Stream.Producer(Due1, [7], []), Heard0([Cons(0)]), map[0 := {0}], map[], 0, 0, 0, lock, {0})
    ensures CanSwap(s, 0, 0, 6, [8], []) && Renewed(s, 0, 6, [8], []) == Moved8([Cons(0)])
  {
    NewTrack(s, 0, 6, [8], [], 8);
    assert Renewed(s, 0, 6, [8], [])[7].childs == [];
    assert Renewed(s, 0, 6, [8], []).Keys == {7, 8};
  }

  lemma StopsAgain(s: State)
    requires s == World(Stream.Producer(Again, [8], []), Moved8([Cons(0)]), map[0 := {0}], map[], 0, 0, 0, Some(Sweep({0}, Some(0))), {})
    ensures Path(s, [StopNow, Unlock]) == Some(World(Stream.Producer(Gone, [], []), Moved8([]), map[0 := {0}], map[], 0, 0, 0, None, {}))
  {
    StopNowIs(s);
    StopAgainIs(s);
  }

  lemma StopAgainIs(s: State)
    requires s.producers == map[0 := Stream.Producer(Again, [8], [])] && s.tracks == Moved8([Cons(0)])
    ensures Stopped(s, 0) == s.(producers := map[0 := Stream.Producer(Gone, [], [])], tracks := Moved8([]))
  {
    assert StopOne(s.producers[0]) == Stream.Producer(Gone, [], []) by {
      assert multiset{5} + multiset{6} == multiset{5, 6};
    }
    assert CloseAll(Moved8([Cons(0)]), Prod(0), 6) == Moved8([]);
    hide CloseAll, StopOne, Moved8;
  }

  // The reconnect moved the track with the consumer, and still the producer is
  // stopped and the consumer has nothing.
  lemma GlimpseCutsConsumer()
    ensures Stream.Run(1, Glimpsed()).Some?
    ensures var s := Stream.Run(1, Glimpsed()).value;
            0 in s.consumers && 0 in s.consumers[0] && 0 in s.producers && s.producers[0].life.phase == Idle && !Linked(s, 0, 0)
  {
    hide Enabled, Apply, CanSwap, Renewed, Swapped, Heard0, Moved8;
    var a, b, d := Added(), [Begin(1), End(1), Check, Lock], [Own(0, Returns(0, false)), Moving(0)];
    AddedIs();
    FailedCall();
    Then(NewStream(1), a, Fed, b, Fed.(lock := Some(Sweep({0}, None))));
    ReturnsLocked();
    var due := World(Stream.Producer(Due1, [7], []), Heard0([Cons(0)]), map[0 := {0}], map[], 0, 0, 0, Some(Sweep({0}, None)), {0});
    Then(NewStream(1), a + b, Fed.(lock := Some(Sweep({0}, None))), d, due);
    var seen := due.(lock := Some(Sweep({0}, Some(0))));
    GlimpseStep(due);
    Then(NewStream(1), a + b + d, due, [Glimpse(0)], seen);
    CarriesTrack(seen, seen.lock);
    Reconnects(Stream.Producer(Due1, [7], []), seen, [8], []);
    SwapStep(seen, [8], []);
    var again := World(Stream.Producer(Again, [8], []), Moved8([Cons(0)]), map[0 := {0}], map[], 0, 0, 0, Some(Sweep({0}, Some(0))), {0});
    Then(NewStream(1), a + b + d + [Glimpse(0)], seen, [Swap(0, 0, 6, [8], [])], again);
    SettleStep(again);
    Then(NewStream(1), a + b + d + [Glimpse(0)] + [Swap(0, 0, 6, [8], [])], again, [Settle(0)], again.(moving := {}));
    StopsAgain(again.(moving := {}));
    var last := World(Stream.Producer(Gone, [], []), Moved8([]), map[0 := {0}], map[], 0, 0, 0, None, {});
    Then(NewStream(1), a + b + d + [Glimpse(0)] + [Swap(0, 0, 6, [8], [])] + [Settle(0)], again.(moving := {}), [StopNow, Unlock], last);
    RunIsPath(1, Glimpsed());
    NobodyOn8(last);
  }

  lemma NobodyOn8(s: State)
    requires s.tracks == Moved8([])
    ensures forall c, i :: !Linked(s, c, i)
  {
    NoChildNoLink(s);
  }

  lemma GlimpseStep(s: State)
    requires s.lock == Some(Sweep({0}, None)) && s.moving == {0}
    ensures Path(s, [Glimpse(0)]) == Some(s.(lock := Some(Sweep({0}, Some(0)))))
  {
    JustOne(s, Glimpse(0), s.(lock := Some(Sweep({0}, Some(0)))));
  }

  // ---- A track without media ----------------------------------------------------------------

  // The only match of a consumer is by a media that flows both ways.
  function Bare(): seq<Stream.Step> {
    [Begin(0), DialFor(0, 0, Some(5))] + [MatchBare(0, 0), End(0), Check] + [Lock, Look(0), StopNow, Unlock] + [Commit(0), StartOne(0, 0), Return(0)]
  }

  const Unused := Life(Idle, None, 0, map[], 0, multiset{5}, multiset{5})

  lemma BareDials()
    ensures Path(NewStream(1), [Begin(0), DialFor(0, 0, Some(5))])
            == Some(One(Dialled(Medias), [], map[], map[], map[0 := Matching({}, {}, Nothing)], 1, 0, 0, None))
  {
    assert FromUrls(1) == map[0 := Stream.Producer(NewProducer(), [], [])];
    var s0 := One(NewProducer(), [], map[], map[], map[], 0, 0, 0, None);
    assert NewStream(1) == s0;
    var s1 := One(NewProducer(), [], map[], map[], map[0 := Matching({}, {}, Nothing)], 1, 0, 0, None);
    OneStep(s0, Begin(0), [DialFor(0, 0, Some(5))], s1);
    OneLife(s1, Stream.Producer(NewProducer(), [], []), Dialled(Medias));
    assert multiset{} + multiset{5} == multiset{5};
    OneStep(s1, DialFor(0, 0, Some(5)), [], One(Dialled(Medias), [], map[], map[], map[0 := Matching({}, {}, Nothing)], 1, 0, 0, None));
  }

  lemma BareMatches()
    ensures Path(One(Dialled(Medias), [], map[], map[], map[0 := Matching({}, {}, Nothing)], 1, 0, 0, None), [MatchBare(0, 0), End(0), Check])
            == Some(One(Dialled(Medias), [], map[], map[], map[0 := Matched({}, {0})], 0, 0, 1, None))
  {
    var s := One(Dialled(Medias), [], map[], map[], map[0 := Matching({}, {}, Nothing)], 1, 0, 0, None);
    var s1 := One(Dialled(Medias), [], map[], map[], map[0 := Matching({}, {0}, Nothing)], 1, 0, 0, None);
    assert {} + {0} == {0};
    OneKey(0, Matching({}, {}, Nothing), Matching({}, {0}, Nothing));
    OneStep(s, MatchBare(0, 0), [End(0), Check], s1);
    var s2 := One(Dialled(Medias), [], map[], map[], map[0 := Matched({}, {0})], 0, 1, 0, None);
    OneKey(0, Matching({}, {0}, Nothing), Matched({}, {0}));
    OneStep(s1, End(0), [Check], s2);
    CheckIs(s2);
    OneStep(s2, Check, [], One(Dialled(Medias), [], map[], map[], map[0 := Matched({}, {0})], 0, 0, 1, None));
  }

  lemma BareSweeps()
    ensures Path(One(Dialled(Medias), [], map[], map[], map[0 := Matched({}, {0})], 0, 0, 1, None), [Lock, Look(0), StopNow, Unlock])
            == Some(One(Unused, [], map[], map[], map[0 := Matched({}, {0})], 0, 0, 0, None))
  {
    var s := One(Dialled(Medias), [], map[], map[], map[0 := Matched({}, {0})], 0, 0, 1, None);
    NoChild(s);
    hide Enabled, Apply, HasChild, Stopped;
    SweepStops(s);
    StopsUnused(s);
  }

  lemma StopsUnused(s: State)
    requires s.producers == map[0 := Stream.Producer(Dialled(Medias), [], [])] && s.tracks == map[]
    ensures Stopped(s, 0) == s.(producers := map[0 := Stream.Producer(Unused, [], [])])
  {
    assert StopOne(s.producers[0]) == Stream.Producer(Unused, [], []) by { assert multiset{} + multiset{5} == multiset{5}; }
    var none: map<nat, Track> := map[];
    assert CloseAll(none, Prod(0), 5) == none;
    hide StopOne, CloseAll;
  }

  lemma BareReturns()
    ensures Path(One(Unused, [], map[], map[], map[0 := Matched({}, {0})], 0, 0, 0, None), [Commit(0), StartOne(0, 0), Return(0)])
            == Some(One(Unused, [], map[], map[0 := {}], map[], 0, 0, 0, None))
  {
    var s0 := One(Unused, [], map[], map[], map[0 := Matched({}, {0})], 0, 0, 0, None);
    var s1 := One(Unused, [], map[], map[], map[0 := Starting({}, {0}, {0})], 0, 0, 0, None);
    assert {} + {0} == {0} && {0} - {0} == {};
    OneCall(s0, 0, Matched({}, {0}), Starting({}, {0}, {0}));
    OneStep(s0, Commit(0), [StartOne(0, 0), Return(0)], s1);
    var s2 := One(Unused, [], map[], map[], map[0 := Starting({}, {0}, {})], 0, 0, 0, None);
    UnusedStarts(s1);
    OneStep(s1, StartOne(0, 0), [Return(0)], s2);
    assert map[0 := Starting({}, {0}, {})] - {0} == map[];
    OneStep(s2, Return(0), [], One(Unused, [], map[], map[0 := {}], map[], 0, 0, 0, None));
  }

  lemma UnusedStarts(s: State)
    requires s.producers == map[0 := Stream.Producer(Unused, [], [])] && s.calls == map[0 := Starting({}, {0}, {0})] && s.moving == {}
    ensures Enabled(s, StartOne(0, 0)) && Apply(s, StartOne(0, 0)) == s.(calls := map[0 := Starting({}, {0}, {})])
  {
    OneLife(s, Stream.Producer(Unused, [], []), Unused);
    assert After(Stream.Producer(Unused, [], []), Start) == Unused;
    assert {0} - {0} == {};
    OneCall(s, 0, Starting({}, {0}, {0}), Starting({}, {0}, {}));
    hide After;
  }

  // Its AddConsumer returns without an error, having matched producer 0; but no
  // track is linked, and the producer is idle.
  lemma BareIsNotServed()
    ensures Stream.Run(1, Bare()).Some?
    ensures var s := Stream.Run(1, Bare()).value;
            0 in s.consumers && s.calls == map[] && 0 in s.producers && s.producers[0].life.phase == Idle && !Linked(s, 0, 0)
  {
    hide Enabled, Apply, One;
    BareDials();
    BareMatches();
    BareSweeps();
    BareReturns();
    var a := [Begin(0), DialFor(0, 0, Some(5))];
    PathSplit(NewStream(1), a, [MatchBare(0, 0), End(0), Check]);
    PathSplit(NewStream(1), a + [MatchBare(0, 0), End(0), Check], [Lock, Look(0), StopNow, Unlock]);
    PathSplit(NewStream(1), a + [MatchBare(0, 0), End(0), Check] + [Lock, Look(0), StopNow, Unlock], [Commit(0), StartOne(0, 0), Return(0)]);
    RunIsPath(1, Bare());
    BareLast();
  }

  lemma BareLast()
    ensures var s := One(Unused, [], map[], map[0 := {}], map[], 0, 0, 0, None);
            0 in s.consumers && s.calls == map[] && 0 in s.producers && s.producers[0].life.phase == Idle && !Linked(s, 0, 0)
  {
    NoChildNoLink(One(Unused, [], map[], map[0 := {}], map[], 0, 0, 0, None));
  }

  // ---- A track of a consumer that is gone -------------------------------------------------------

  // Consumer 1 gives a track and leaves while consumer 0 stays; a reconnect
  // listens to the track again; then consumer 0 leaves.
  function Ghost(): seq<Stream.Step> {
    Added() + [Begin(1), DialFor(1, 0, None), GetBack(1, 9)] + [AddToProducer(1, 0, 9), End(1)] + [Check, Lock, Look(0), Unlock] +
    [Commit(1), StartOne(1, 0), Return(1)] + [Remove(1)] + [Check, Lock, Look(0), Unlock] +
    [Own(0, Returns(0, false)), Moving(0)] + [Swap(0, 0, 6, [8], [9])] + [Settle(0)] + [Remove(0)] + [Check, Lock, Look(0), Unlock]
  }

  function Both(a: seq<Owner>, b: seq<Owner>): map<nat, Track> {
    map[7 := Track(Prod(0), 5, a), 9 := Track(Cons(1), 0, b)]
  }

  function All(a: seq<Owner>, b: seq<Owner>): map<nat, Track> {
    map[7 := Track(Prod(0), 5, []), 8 := Track(Prod(0), 6, a), 9 := Track(Cons(1), 0, b)]
  }

  const Talks := Stream.Producer(Runs, [7], [9])

  const GotIt := World(Stream.Producer(Runs, [7], []), Both([Cons(0)], []), map[0 := {0}], map[1 := Matching({}, {}, Got(9))], 1, 0, 0, None, {})

  lemma GhostGives()
    ensures Path(Fed, [Begin(1), DialFor(1, 0, None), GetBack(1, 9)]) == Some(GotIt)
  {
    var s1 := Fed.(calls := map[1 := Matching({}, {}, Nothing)], pending := 1);
    NothingBegins();
    OneStep(Fed, Begin(1), [DialFor(1, 0, None), GetBack(1, 9)], s1);
    OneLife(s1, Stream.Producer(Runs, [7], []), Runs);
    DialStays(s1);
    OneStep(s1, DialFor(1, 0, None), [GetBack(1, 9)], s1);
    GivesStep(s1);
    OneStep(s1, GetBack(1, 9), [], GotIt);
  }

  lemma DialStays(s: State)
    requires s.producers == map[0 := Stream.Producer(Runs, [7], [])] && s.calls == map[1 := Matching({}, {}, Nothing)] && s.moving == {}
    ensures Enabled(s, DialFor(1, 0, None)) && Apply(s, DialFor(1, 0, None)) == s
  {
    OneLife(s, Stream.Producer(Runs, [7], []), Runs);
  }

  lemma GivesStep(s: State)
    requires s == Fed.(calls := map[1 := Matching({}, {}, Nothing)], pending := 1)
    ensures Enabled(s, GetBack(1, 9)) && Apply(s, GetBack(1, 9)) == GotIt
  {
    OneKey(1, Matching({}, {}, Nothing), Matching({}, {}, Got(9)));
    assert Heard0([Cons(0)])[9 := Track(Cons(1), 0, [])] == Both([Cons(0)], []);
  }

  const Heard9 := World(Talks, Both([Cons(0)], [Prod(0)]), map[0 := {0}], map[1 := Matching({0}, {}, Nothing)], 1, 0, 0, None, {})

  lemma HearsStep()
    ensures Enabled(GotIt, AddToProducer(1, 0, 9)) && Apply(GotIt, AddToProducer(1, 0, 9)) == Heard9
  {
    assert After(Stream.Producer(Runs, [7], []), Lifecycle.AddTrack(true)) == Runs;
    OneLife(GotIt, Stream.Producer(Runs, [7], []), Runs);
    assert [] + [9] == [9] && [] + [Prod(0)] == [Prod(0)] && {} + {0} == {0};
    OneKey(1, Matching({}, {}, Got(9)), Matching({0}, {}, Nothing));
    OneKey(0, Stream.Producer(Runs, [7], []), Talks);
    assert Both([Cons(0)], [])[9 := Track(Cons(1), 0, [Prod(0)])] == Both([Cons(0)], [Prod(0)]);
    hide After;
  }

  lemma GhostEnds()
    ensures Path(GotIt, [AddToProducer(1, 0, 9), End(1)]) == Some(Heard9.(calls := map[1 := Matched({0}, {})], pending := 0, due := 1))
  {
    HearsStep();
    OneStep(GotIt, AddToProducer(1, 0, 9), [End(1)], Heard9);
    hide Both;
    OneKey(1, Matching({0}, {}, Nothing), Matched({0}, {}));
    OneStep(Heard9, End(1), [], Heard9.(calls := map[1 := Matched({0}, {})], pending := 0, due := 1));
  }

  const Talk := World(Talks, Both([Cons(0)], [Prod(0)]), map[0 := {0}, 1 := {0}], map[], 0, 0, 0, None, {})

  lemma GhostReturns()
    ensures Path(Heard9.(calls := map[1 := Matched({0}, {})], pending := 0), [Commit(1), StartOne(1, 0), Return(1)]) == Some(Talk)
  {
    hide Both;
    var s := Heard9.(calls := map[1 := Matched({0}, {})], pending := 0);
    assert {0} + {} == {0} && {0} - {0} == {};
    var s1 := s.(calls := map[1 := Starting({0}, {}, {0})]);
    OneCall(s, 1, Matched({0}, {}), Starting({0}, {}, {0}));
    OneStep(s, Commit(1), [StartOne(1, 0), Return(1)], s1);
    var s2 := s.(calls := map[1 := Starting({0}, {}, {})]);
    StartsNothing(s1);
    OneStep(s1, StartOne(1, 0), [Return(1)], s2);
    assert map[1 := Starting({0}, {}, {})] - {1} == map[];
    assert map[0 := {0}][1 := {0}] == map[0 := {0}, 1 := {0}];
    OneStep(s2, Return(1), [], Talk);
  }

  lemma StartsNothing(s: State)
    requires s.producers == map[0 := Talks] && s.calls == map[1 := Starting({0}, {}, {0})] && s.moving == {}
    ensures Enabled(s, StartOne(1, 0)) && Apply(s, StartOne(1, 0)) == s.(calls := map[1 := Starting({0}, {}, {})])
  {
    OneLife(s, Talks, Runs);
    assert After(Talks, Start) == Runs;
    assert {0} - {0} == {};
    OneCall(s, 1, Starting({0}, {}, {0}), Starting({0}, {}, {}));
    hide After;
  }

  const Quiet := World(Talks, Both([Cons(0)], []), map[0 := {0}], map[], 0, 0, 0, None, {})

  lemma GhostLeaves()
    ensures Path(Talk, [Remove(1)]) == Some(Quiet.(due := 1))
  {
    assert CloseAll(Both([Cons(0)], [Prod(0)]), Cons(1), 0) == Both([Cons(0)], []) by {
      assert Detach([Cons(0)], Cons(1)) == [Cons(0)];
    }
    assert map[0 := {0}, 1 := {0}] - {1} == map[0 := {0}];
    hide CloseAll, Both;
    JustOne(Talk, Remove(1), Quiet.(due := 1));
  }

  const Moves := World(Talks.(life := Due1), Both([Cons(0)], []), map[0 := {0}], map[], 0, 0, 0, None, {0})

  const Back := World(Stream.Producer(Again, [8], [9]), All([Cons(0)], [Prod(0)]), map[0 := {0}], map[], 0, 0, 0, None, {0})

  lemma HearsGhost()
    ensures CanSwap(Moves, 0, 0, 6, [8], [9]) && Renewed(Moves, 0, 6, [8], [9]) == All([Cons(0)], [Prod(0)])
  {
    NewTrack(Moves, 0, 6, [8], [9], 8);
    assert Renewed(Moves, 0, 6, [8], [9])[7].childs == [];
    assert Copies([9], 9, Prod(0)) == [Prod(0)] && [] + [Prod(0)] == [Prod(0)];
    assert Renewed(Moves, 0, 6, [8], [9]).Keys == {7, 8, 9};
  }

  const Alone := World(Stream.Producer(Again, [8], [9]), All([], [Prod(0)]), map[], map[], 0, 0, 0, None, {})

  lemma LastLeaves()
    ensures Path(Back.(moving := {}), [Remove(0)]) == Some(Alone.(due := 1))
  {
    assert CloseAll(All([Cons(0)], [Prod(0)]), Cons(0), 0) == All([], [Prod(0)]) by {
      assert Detach([Cons(0)], Cons(0)) == [] && Detach([Prod(0)], Cons(0)) == [Prod(0)];
    }
    assert map[0 := {0}] - {0} == map[];
    hide CloseAll, All;
    JustOne(Back.(moving := {}), Remove(0), Alone.(due := 1));
  }

  // A stopProducers that finds a child on a track of producer 0.
  lemma SweepOf(s: State, t: nat)
    requires s.due == 1 && s.pending == 0 && s.lock == None && s.listed == {0} && 0 in s.producers && t in s.tracks && s.tracks[t].childs != []
    requires t in s.producers[0].receivers || t in s.producers[0].senders
    ensures Path(s, [Check, Lock, Look(0), Unlock]) == Some(s.(due := 0))
  {
    ChildCounts(s, 0, t);
    hide HasChild;
    SweepStays(s);
  }

  lemma GhostsHalf()
    ensures Path(Fed, [Begin(1), DialFor(1, 0, None), GetBack(1, 9)] + [AddToProducer(1, 0, 9), End(1)] + [Check, Lock, Look(0), Unlock] +
                      [Commit(1), StartOne(1, 0), Return(1)] + [Remove(1)] + [Check, Lock, Look(0), Unlock]) == Some(Quiet)
  {
    hide Enabled, Apply;
    var a, b, d := [Begin(1), DialFor(1, 0, None), GetBack(1, 9)], [AddToProducer(1, 0, 9), End(1)], [Check, Lock, Look(0), Unlock];
    GhostGives();
    GhostEnds();
    Then(Fed, a, GotIt, b, Heard9.(calls := map[1 := Matched({0}, {})], pending := 0, due := 1));
    SweepOf(Heard9.(calls := map[1 := Matched({0}, {})], pending := 0, due := 1), 7);
    Then(Fed, a + b, Heard9.(calls := map[1 := Matched({0}, {})], pending := 0, due := 1), d, Heard9.(calls := map[1 := Matched({0}, {})], pending := 0));
    GhostReturns();
    Then(Fed, a + b + d, Heard9.(calls := map[1 := Matched({0}, {})], pending := 0), [Commit(1), StartOne(1, 0), Return(1)], Talk);
    GhostLeaves();
    Then(Fed, a + b + d + [Commit(1), StartOne(1, 0), Return(1)], Talk, [Remove(1)], Quiet.(due := 1));
    SweepOf(Quiet.(due := 1), 7);
    Then(Fed, a + b + d + [Commit(1), StartOne(1, 0), Return(1)] + [Remove(1)], Quiet.(due := 1), d, Quiet);
  }

  lemma GhostsRest()
    ensures Path(Quiet, [Own(0, Returns(0, false)), Moving(0)] + [Swap(0, 0, 6, [8], [9])] + [Settle(0)] + [Remove(0)] + [Check, Lock, Look(0), Unlock])
            == Some(Alone)
  {
    hide Enabled, Apply, CanSwap, Renewed, Swapped;
    var a := [Own(0, Returns(0, false)), Moving(0)];
    WorkerReturns(Talks, Both([Cons(0)], []), map[0 := {0}]);
    HearsGhost();
    Reconnects(Talks.(life := Due1), Moves, [8], [9]);
    SwapStep(Moves, [8], [9]);
    Then(Quiet, a, Moves, [Swap(0, 0, 6, [8], [9])], Back);
    SettleStep(Back);
    Then(Quiet, a + [Swap(0, 0, 6, [8], [9])], Back, [Settle(0)], Back.(moving := {}));
    LastLeaves();
    Then(Quiet, a + [Swap(0, 0, 6, [8], [9])] + [Settle(0)], Back.(moving := {}), [Remove(0)], Alone.(due := 1));
    SweepOf(Alone.(due := 1), 9);
    Then(Quiet, a + [Swap(0, 0, 6, [8], [9])] + [Settle(0)] + [Remove(0)], Alone.(due := 1), [Check, Lock, Look(0), Unlock], Alone);
  }

  // Nobody is left, and the producer runs on.
  lemma GhostKeepsProducer()
    ensures Stream.Run(1, Ghost()).Some?
    ensures var s := Stream.Run(1, Ghost()).value;
            && s.consumers == map[] && s.calls == map[] && s.due == 0 && s.waiting == 0 && s.lock == None
            && 0 in s.listed && 0 in s.producers && s.producers[0].life.phase == Started
  {
    hide Enabled, Apply;
    AddedIs();
    GhostsHalf();
    var a := [Begin(1), DialFor(1, 0, None), GetBack(1, 9)] + [AddToProducer(1, 0, 9), End(1)] + [Check, Lock, Look(0), Unlock] +
             [Commit(1), StartOne(1, 0), Return(1)] + [Remove(1)] + [Check, Lock, Look(0), Unlock];
    Then(NewStream(1), Added(), Fed, a, Quiet);
    GhostsRest();
    var b := [Own(0, Returns(0, false)), Moving(0)] + [Swap(0, 0, 6, [8], [9])] + [Settle(0)] + [Remove(0)] + [Check, Lock, Look(0), Unlock];
    Then(NewStream(1), Added() + a, Quiet, b, Alone);
    assert Ghost() == Added() + a + b;
    RunIsPath(1, Ghost());
  }

  // ---- A producer that joins between two medias ---------------------------------------------------

  // The errors of a call are as many as the producers listed when it begins; its
  // loop goes over those listed when it comes to a media.
  function Growth(steps: seq<Stream.Step>): int {
    if steps == [] then 0
    else (if steps[0].AddProducer? then 1 else if steps[0].RemoveProducer? then -1 else 0) + Growth(steps[1..])
  }

  // So an index past the errors is there exactly when more producers joined
  // than were removed.
  lemma {:induction false} ListGrows(s: State, steps: seq<Stream.Step>)
    requires Good(s) && Path(s, steps).Some?
    ensures |Path(s, steps).value.listed| == |s.listed| + Growth(steps)
    decreases |steps|
  {
    hide Enabled, Apply, Good;
    if steps != [] {
      EveryStepKeeps(s, steps[0]);
      ListAfter(s, steps[0]);
      ListGrows(Apply(s, steps[0]), steps[1..]);
    }
  }

  lemma ListAfter(s: State, step: Stream.Step)
    requires Good(s) && Enabled(s, step)
    ensures |Apply(s, step).listed| == |s.listed| + Growth([step])
  {
    hide Good, Enabled, Apply;
    assert [step][1..] == [];
    match step
    case AddProducer(_, _) => ListJoins(s, step);
    case RemoveProducer(_) => ListDrops(s, step);
    case _ => SameList(s, step);
  }

  lemma ListJoins(s: State, step: Stream.Step)
    requires Good(s) && step.AddProducer? && Enabled(s, step)
    ensures |Apply(s, step).listed| == |s.listed| + 1
  {
    hide Heard, Owned, Named, Counted, Invariant, Taken;
    assert s.made !in s.listed;
  }

  lemma ListDrops(s: State, step: Stream.Step)
    requires step.RemoveProducer? && Enabled(s, step)
    ensures |Apply(s, step).listed| == |s.listed| - 1
  {
  }

  lemma SameList(s: State, step: Stream.Step)
    requires Enabled(s, step) && !step.AddProducer? && !step.RemoveProducer?
    ensures Apply(s, step).listed == s.listed
  {
    hide HasChild, After, CloseAll, Renewed, StopOne, ConnOf, CanSwap, Do, Swaps;
  }

  // The call of consumer 0 begins with one producer and comes to producer 1.
  lemma ErrorsRunOut()
    ensures |NewStream(1).listed| == 1
    ensures Path(NewStream(1), [Begin(0), AddProducer(true, 5), DialFor(0, 1, None)]).Some?
  {
  }
}
