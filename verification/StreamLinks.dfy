// internal/streams: when a consumer is linked to a producer. A link is made when
// a track is handed over, and it breaks at a stop, at a reconnect that does not
// carry it, and when the consumer leaves; nothing else touches it.

module StreamLinks {
  import opened Bytes
  import opened Lifecycle
  import opened Stream
  import Node

  // The consumer listens to an open track of the producer, or the producer to a
  // track of the consumer.
  predicate LinkedBy(s: State, c: nat, i: nat, t: nat) {
    && i in s.producers && t in s.tracks
    && ((Open(s, i, t) && Cons(c) in s.tracks[t].childs) || (s.tracks[t].owner == Cons(c) && Prod(i) in s.tracks[t].childs))
  }

  ghost predicate Linked(s: State, c: nat, i: nat) {
    exists t :: LinkedBy(s, c, i, t)
  }

  predicate Live(s: State, c: nat) {
    c in s.calls || c in s.consumers
  }

  // The call or the consumer has matched the producer by a track.
  predicate Recorded(s: State, c: nat, i: nat) {
    (c in s.calls && i in s.calls[c].starts) || (c in s.consumers && i in s.consumers[c])
  }

  // A reconnect carries a link when a receiver with this child gets a new
  // track, or when the new connection listens to a track of the consumer.
  predicate Carried(s: State, i: nat, list: seq<nat>, heard: seq<nat>, c: nat)
    requires i in s.producers && |list| == |s.producers[i].receivers|
  {
    || (exists k :: 0 <= k < |list| && list[k] !in s.tracks && s.producers[i].receivers[k] in s.tracks && Cons(c) in s.tracks[s.producers[i].receivers[k]].childs)
    || (exists t :: t in heard && t in s.tracks && s.tracks[t].owner == Cons(c))
  }

  // A track is handed over while it is a track of the connection.
  predicate Makes(s: State, step: Stream.Step, c: nat, i: nat)
    requires Enabled(s, step)
  {
    match step
    case AddToConsumer(d, j, t) => d == c && j == i && i in s.producers && Open(s, i, t)
    case AddToProducer(d, j, _) => d == c && j == i
    case Swap(j, _, _, list, heard) => j == i && Live(s, c) && Carried(s, i, list, heard, c)
    case _ => false
  }

  predicate Breaks(s: State, step: Stream.Step, c: nat, i: nat)
    requires Enabled(s, step)
  {
    match step
    case StopNow => s.lock.value.doomed == Some(i) && s.producers[i].life.phase != External
    case Swap(j, _, _, list, heard) => j == i && !Carried(s, i, list, heard, c)
    case Remove(d) => d == c
    case _ => false
  }

  // ---- The graph and the rest --------------------------------------------------------------

  // Whether there is a link depends on the tracks and the connections.
  lemma SameLinks(s: State, r: State, c: nat, i: nat)
    requires r.tracks == s.tracks && (i in r.producers <==> i in s.producers)
    requires i in s.producers ==> r.producers[i].life.conn == s.producers[i].life.conn
    ensures Linked(r, c, i) <==> Linked(s, c, i)
  {
    forall t ensures LinkedBy(r, c, i, t) <==> LinkedBy(s, c, i, t) {
    }
    hide LinkedBy;
  }

  // A plain step of a life keeps the connection, or gives one that has no
  // tracks yet.
  lemma LifeLinks(s: State, i: nat, step: Lifecycle.Step, c: nat, j: nat)
    requires Graph(s) && i in s.producers && Plain(s.producers[i], step)
    ensures Linked(WithLife(s, i, After(s.producers[i], step)), c, j) <==> Linked(s, c, j)
  {
    hide Known, Heard, After, Plain, Follows;
    var r := WithLife(s, i, After(s.producers[i], step));
    KnownLife(s, i);
    StepFollows(s.producers[i], step);
    PlainConn(s.producers[i], step);
    if j == i && j in s.producers {
      forall t ensures LinkedBy(r, c, j, t) <==> LinkedBy(s, c, j, t) {
        if t in s.tracks && s.tracks[t].owner == Prod(i) {
          assert OwnedBy(s, t, i);
        }
      }
      hide LinkedBy;
    } else {
      SameLinks(s, r, c, j);
    }
  }

  lemma PlainConn(p: Producer, step: Lifecycle.Step)
    requires Invariant(p.life) && Plain(p, step)
    ensures var life := After(p, step); life.conn == p.life.conn || (p.life.conn == None && life.conn.Some? && life.conn.value !in p.life.owned)
  {
    StartedOnly(p);
    OwnsConn(p);
    hide Invariant;
  }

  // ---- Tracks and children -----------------------------------------------------------------

  lemma ReceiverLinks(s: State, i: nat, t: nat, c: nat, j: nat)
    requires i in s.producers && t !in s.tracks
    ensures Linked(WithReceiver(s, i, t), c, j) <==> Linked(s, c, j)
  {
    var r := WithReceiver(s, i, t);
    ReceiverIs(s, i, t);
    hide WithReceiver;
    forall u ensures LinkedBy(r, c, j, u) <==> LinkedBy(s, c, j, u) {
    }
    hide LinkedBy;
  }

  lemma TrackLinks(s: State, t: nat, d: nat, c: nat, j: nat)
    requires t !in s.tracks
    ensures Linked(WithTrack(s, t, Track(Cons(d), 0, [])), c, j) <==> Linked(s, c, j)
  {
    var r := WithTrack(s, t, Track(Cons(d), 0, []));
    forall u ensures LinkedBy(r, c, j, u) <==> LinkedBy(s, c, j, u) {
    }
    hide LinkedBy;
  }

  lemma ConsumerChildLinks(s: State, t: nat, d: nat, c: nat, j: nat)
    requires t in s.tracks && s.tracks[t].owner.Prod?
    ensures Linked(WithChild(s, t, Cons(d)), c, j) <==> Linked(s, c, j) || (c == d && j in s.producers && Open(s, j, t))
  {
    var r := WithChild(s, t, Cons(d));
    ChildIs(s, t, Cons(d));
    hide WithChild;
    forall u ensures LinkedBy(r, c, j, u) <==> LinkedBy(s, c, j, u) || (c == d && u == t && j in s.producers && Open(s, j, t)) {
    }
    assert c == d && j in s.producers && Open(s, j, t) ==> LinkedBy(r, c, j, t);
    hide LinkedBy;
  }

  lemma ProducerChildLinks(s: State, t: nat, i: nat, d: nat, c: nat, j: nat)
    requires t in s.tracks && s.tracks[t].owner == Cons(d) && i in s.producers
    ensures Linked(WithChild(s, t, Prod(i)), c, j) <==> Linked(s, c, j) || (c == d && j == i)
  {
    var r := WithChild(s, t, Prod(i));
    ChildIs(s, t, Prod(i));
    hide WithChild;
    forall u ensures LinkedBy(r, c, j, u) <==> LinkedBy(s, c, j, u) || (c == d && u == t && j == i) {
    }
    assert c == d && j == i ==> LinkedBy(r, c, j, t);
    hide LinkedBy;
  }

  // ---- Stop, leave and reconnect -------------------------------------------------------------

  lemma StoppedLinks(s: State, i: nat, c: nat, j: nat)
    requires Graph(s) && i in s.producers
    ensures Linked(Stopped(s, i), c, j) <==> Linked(s, c, j) && (j == i ==> s.producers[i].life.phase == External)
  {
    hide Known, Heard, Owned, Stopped, StopOne;
    var r, p := Stopped(s, i), s.producers[i];
    StoppedIs(s, i);
    KnownLife(s, i);
    StopOneIs(p);
    OwnsConn(p);
    IdleStays(p);
    forall t ensures LinkedBy(r, c, j, t) <==> LinkedBy(s, c, j, t) && (j == i ==> p.life.phase == External) {
      if t in s.tracks {
        StoppedTracks(s, i, t);
        if p.life.phase == Idle {
          IdleIsUnlinked(s, i, c, t);
        }
      }
    }
    hide LinkedBy;
  }

  lemma IdleIsUnlinked(s: State, i: nat, c: nat, t: nat)
    requires Graph(s) && i in s.producers && s.producers[i].life.phase == Idle
    ensures !LinkedBy(s, c, i, t)
  {
    assert s.producers[i].senders == [] && s.producers[i].life.conn == None;
    hide Known, Owned;
  }

  lemma LeftLinks(s: State, d: nat, c: nat, j: nat)
    requires c != d
    ensures Linked(Left(s, d), c, j) <==> Linked(s, c, j)
  {
    hide Left;
    var r := Left(s, d);
    LeftIs(s, d);
    forall t ensures LinkedBy(r, c, j, t) <==> LinkedBy(s, c, j, t) {
      if t in s.tracks {
        LeftTracks(s, d, t);
      }
    }
    hide LinkedBy;
  }

  lemma CarriedIs(s: State, i: nat, act: nat, conn: nat, list: seq<nat>, heard: seq<nat>, c: nat)
    requires Graph(s) && CanSwap(s, i, act, conn, list, heard) && Carried(s, i, list, heard, c)
    ensures Linked(Swapped(s, i, act, conn, list, heard), c, i)
  {
    hide Known, Heard, Owned, Swapped, Renewed, Swaps, IsNew, After, Invariant;
    var r := Swapped(s, i, act, conn, list, heard);
    SwappedIs(s, i, act, conn, list, heard);
    KnownLife(s, i);
    SwapLife(s.producers[i], act, conn);
    if k :| 0 <= k < |list| && list[k] !in s.tracks && s.producers[i].receivers[k] in s.tracks && Cons(c) in s.tracks[s.producers[i].receivers[k]].childs {
      NewTrack(s, i, conn, list, heard, list[k]);
      assert At(list, list[k]) == k;
      assert LinkedBy(r, c, i, list[k]);
    } else {
      var t :| t in heard && t in s.tracks && s.tracks[t].owner == Cons(c);
      OldTrack(s, i, conn, list, heard, t);
      assert LinkedBy(r, c, i, t);
    }
  }

  lemma LinkIsCarried(s: State, i: nat, act: nat, conn: nat, list: seq<nat>, heard: seq<nat>, c: nat, t: nat)
    requires Graph(s) && CanSwap(s, i, act, conn, list, heard) && LinkedBy(Swapped(s, i, act, conn, list, heard), c, i, t)
    ensures Carried(s, i, list, heard, c)
  {
    hide Known, Heard, Owned, Swapped, Renewed, Swaps, IsNew, After, Invariant;
    var r := Swapped(s, i, act, conn, list, heard);
    SwappedIs(s, i, act, conn, list, heard);
    RenewedKeys(s, i, conn, list, heard);
    KnownLife(s, i);
    SwapLife(s.producers[i], act, conn);
    if t in s.tracks {
      OldTrack(s, i, conn, list, heard, t);
      if s.tracks[t].owner == Prod(i) {
        TrackOfConn(s, i, t);
      }
    } else {
      NewTrack(s, i, conn, list, heard, t);
      var k := At(list, t);
      SenderTrack(s, i, s.producers[i].receivers[k]);
      assert list[k] !in s.tracks && Cons(c) in s.tracks[s.producers[i].receivers[k]].childs;
    }
  }

  lemma TrackOfConn(s: State, i: nat, t: nat)
    requires Owned(s) && t in s.tracks && s.tracks[t].owner == Prod(i)
    ensures i in s.producers && s.tracks[t].conn in s.producers[i].life.owned
    ensures Open(s, i, t) ==> t in s.producers[i].receivers
  {
    assert OwnedBy(s, t, i);
  }

  lemma SwapLinks(s: State, i: nat, act: nat, conn: nat, list: seq<nat>, heard: seq<nat>, c: nat, j: nat)
    requires Graph(s) && CanSwap(s, i, act, conn, list, heard)
    ensures Linked(Swapped(s, i, act, conn, list, heard), c, j) <==> if j == i then Carried(s, i, list, heard, c) else Linked(s, c, j)
  {
    hide Known, Heard, Owned, Swapped, Renewed, Swaps, IsNew, LinkedBy, Carried;
    var r := Swapped(s, i, act, conn, list, heard);
    if j == i {
      if Linked(r, c, i) {
        var t :| LinkedBy(r, c, i, t);
        LinkIsCarried(s, i, act, conn, list, heard, c, t);
      }
      if Carried(s, i, list, heard, c) {
        CarriedIs(s, i, act, conn, list, heard, c);
      }
    } else {
      forall t ensures LinkedBy(r, c, j, t) <==> LinkedBy(s, c, j, t) {
        OtherLinks(s, i, act, conn, list, heard, c, j, t);
      }
    }
  }

  lemma OtherLinks(s: State, i: nat, act: nat, conn: nat, list: seq<nat>, heard: seq<nat>, c: nat, j: nat, t: nat)
    requires Graph(s) && CanSwap(s, i, act, conn, list, heard) && j != i
    ensures LinkedBy(Swapped(s, i, act, conn, list, heard), c, j, t) <==> LinkedBy(s, c, j, t)
  {
    hide Known, Heard, Owned, Swapped, Renewed, Swaps, IsNew, After;
    var r := Swapped(s, i, act, conn, list, heard);
    SwappedIs(s, i, act, conn, list, heard);
    RenewedKeys(s, i, conn, list, heard);
    if t in s.tracks {
      OldTrack(s, i, conn, list, heard, t);
    } else if t in list {
      NewTrack(s, i, conn, list, heard, t);
    }
  }

  // ---- Every step ----------------------------------------------------------------------------

  // Steps that dial, start or take tracks.
  predicate IsQuiet(step: Stream.Step) {
    step.DialFor? || step.StartOne? || step.Own? || step.TakeTrack? || step.GetBack? || step.AddProducer?
  }

  lemma QuietLinks(s: State, step: Stream.Step, c: nat, i: nat)
    requires Good(s) && Enabled(s, step) && IsQuiet(step)
    ensures Linked(Apply(s, step), c, i) <==> Linked(s, c, i)
  {
    hide Good, Graph, Linked, Enabled, Apply;
    assert Graph(s) by { GoodGraph(s); }
    match step
    case DialFor(d, j, dialled) => DialLinks(s, d, j, dialled, c, i);
    case StartOne(d, j) => StartLinks(s, d, j, c, i);
    case Own(j, own) => OwnLinks(s, j, own, c, i);
    case TakeTrack(d, j, t) => TakeLinks(s, d, j, t, c, i);
    case GetBack(d, t) => BackLinks(s, d, t, c, i);
    case AddProducer(external, conn) => JoinedLinks(s, external, conn, c, i);
  }

  lemma DialLinks(s: State, d: nat, j: nat, dialled: Option<nat>, c: nat, i: nat)
    requires Enabled(s, DialFor(d, j, dialled)) && Graph(s)
    ensures Linked(Apply(s, DialFor(d, j, dialled)), c, i) <==> Linked(s, c, i)
  {
    hide Linked, Graph, Do, After;
    LifeLinks(s, j, Lifecycle.Dial(dialled), c, i);
  }

  lemma StartLinks(s: State, d: nat, j: nat, c: nat, i: nat)
    requires Enabled(s, StartOne(d, j)) && Graph(s)
    ensures Linked(Apply(s, StartOne(d, j)), c, i) <==> Linked(s, c, i)
  {
    hide Linked, Graph, Do, After;
    LifeLinks(s, j, Start, c, i);
    SameLinks(WithLife(s, j, After(s.producers[j], Start)), Apply(s, StartOne(d, j)), c, i);
  }

  lemma OwnLinks(s: State, j: nat, own: Lifecycle.Step, c: nat, i: nat)
    requires Enabled(s, Own(j, own)) && Graph(s)
    ensures Linked(Apply(s, Own(j, own)), c, i) <==> Linked(s, c, i)
  {
    hide Linked, Graph, Do, After;
    LifeLinks(s, j, own, c, i);
  }

  lemma TakeLinks(s: State, d: nat, j: nat, t: nat, c: nat, i: nat)
    requires Enabled(s, TakeTrack(d, j, t)) && Graph(s)
    ensures Linked(Apply(s, TakeTrack(d, j, t)), c, i) <==> Linked(s, c, i)
  {
    hide Linked, Graph, Do, After;
    if t in s.producers[j].receivers {
      SameLinks(s, Apply(s, TakeTrack(d, j, t)), c, i);
    } else {
      LifeLinks(s, j, Lifecycle.GetTrack(false, true), c, i);
      ReceiverLinks(WithLife(s, j, After(s.producers[j], Lifecycle.GetTrack(false, true))), j, t, c, i);
      SameLinks(TakeNew(s, j, t), Apply(s, TakeTrack(d, j, t)), c, i);
    }
  }

  lemma BackLinks(s: State, d: nat, t: nat, c: nat, i: nat)
    requires Enabled(s, GetBack(d, t)) && Graph(s)
    ensures Linked(Apply(s, GetBack(d, t)), c, i) <==> Linked(s, c, i)
  {
    hide Linked, Graph;
    if t !in s.tracks {
      TrackLinks(s, t, d, c, i);
      SameLinks(WithTrack(s, t, Track(Cons(d), 0, [])), Apply(s, GetBack(d, t)), c, i);
    } else {
      SameLinks(s, Apply(s, GetBack(d, t)), c, i);
    }
  }

  // Only the track, the stop, the reconnect and the leave matter: exact, for
  // every step of every goroutine.
  lemma StepLinks(s: State, step: Stream.Step, c: nat, i: nat)
    requires Good(s) && Enabled(s, step) && Live(Apply(s, step), c)
    ensures Linked(Apply(s, step), c, i) <==> Makes(s, step, c, i) || (Linked(s, c, i) && !Breaks(s, step, c, i))
  {
    hide Good, Graph, Linked, Enabled, Apply, Carried, Live;
    if IsQuiet(step) {
      QuietLinks(s, step, c, i);
      return;
    }
    assert Graph(s) by { GoodGraph(s); }
    match step
    case AddToConsumer(d, j, t) => AddToConsumerLinks(s, d, j, t, c, i);
    case AddToProducer(d, j, t) => AddToProducerLinks(s, d, j, t, c, i);
    case Remove(d) => RemoveLinks(s, d, c, i);
    case Swap(j, act, conn, list, heard) => SwapStepLinks(s, step, c, i);
    case StopNow => StopNowLinks(s, c, i);
    case _ => OtherLinked(s, step, c, i);
  }

  lemma SwapStepLinks(s: State, step: Stream.Step, c: nat, i: nat)
    requires Graph(s) && step.Swap? && Enabled(s, step) && Live(Apply(s, step), c)
    ensures Linked(Apply(s, step), c, i) <==> Makes(s, step, c, i) || (Linked(s, c, i) && !Breaks(s, step, c, i))
  {
    hide Graph, Linked, Carried, CanSwap, Swapped;
    SwapLinks(s, step.i, step.act, step.conn, step.list, step.heard, c, i);
    SwappedIs(s, step.i, step.act, step.conn, step.list, step.heard);
  }

  lemma RemoveLinks(s: State, d: nat, c: nat, i: nat)
    requires Good(s) && Enabled(s, Remove(d)) && Live(Apply(s, Remove(d)), c)
    ensures Linked(Apply(s, Remove(d)), c, i) <==> d != c && Linked(s, c, i)
  {
    hide Good, Linked, Left;
    assert Graph(s) by { GoodGraph(s); }
    hide Graph;
    LeftIs(s, d);
    Apart(s, d);
    LeftLinks(s, d, c, i);
    SameLinks(Left(s, d), Apply(s, Remove(d)), c, i);
  }

  lemma StopNowLinks(s: State, c: nat, i: nat)
    requires Graph(s) && Enabled(s, StopNow)
    ensures Linked(Apply(s, StopNow), c, i) <==> Linked(s, c, i) && !Breaks(s, StopNow, c, i)
  {
    hide Graph, Linked, Stopped;
    var j := s.lock.value.doomed.value;
    StoppedLinks(s, j, c, i);
    StoppedIs(s, j);
    SameLinks(Stopped(s, j), Apply(s, StopNow), c, i);
  }

  lemma OtherLinked(s: State, step: Stream.Step, c: nat, i: nat)
    requires Enabled(s, step) && !IsQuiet(step) && !Adds(step) && !step.Remove? && !step.StopNow?
    ensures Linked(Apply(s, step), c, i) <==> Linked(s, c, i)
  {
    hide Linked, HasChild;
    SameLinks(s, Apply(s, step), c, i);
  }

  lemma Apart(s: State, c: nat)
    requires Good(s) && c in s.consumers
    ensures c !in s.calls
  {
    hide Known, Heard, Owned, Locked, Counted, HeldIs;
  }

  lemma GoodGraph(s: State)
    requires Good(s)
    ensures Graph(s)
  {
  }

  lemma AddToConsumerLinks(s: State, d: nat, j: nat, t: nat, c: nat, i: nat)
    requires Good(s) && Enabled(s, AddToConsumer(d, j, t))
    ensures Linked(Apply(s, AddToConsumer(d, j, t)), c, i) <==> Makes(s, AddToConsumer(d, j, t), c, i) || Linked(s, c, i)
  {
    hide Known, Heard, Owned, Locked, Counted, Linked, WithChild;
    NamedCall(s, d);
    hide Named;
    ConsumerChildLinks(s, t, d, c, i);
    ChildIs(s, t, Cons(d));
    SameLinks(WithChild(s, t, Cons(d)), Apply(s, AddToConsumer(d, j, t)), c, i);
  }

  lemma AddToProducerLinks(s: State, d: nat, j: nat, t: nat, c: nat, i: nat)
    requires Good(s) && Enabled(s, AddToProducer(d, j, t))
    ensures Linked(Apply(s, AddToProducer(d, j, t)), c, i) <==> Makes(s, AddToProducer(d, j, t), c, i) || Linked(s, c, i)
  {
    hide Known, Heard, Owned, Locked, Counted, Linked, WithChild, WithSender, After;
    NamedCall(s, d);
    hide Named;
    var p := s.producers[j];
    LifeLinks(s, j, Lifecycle.AddTrack(true), c, i);
    var a := WithLife(s, j, After(p, Lifecycle.AddTrack(true)));
    SenderIs(a, j, t);
    var b := WithSender(a, j, t);
    SameLinks(a, b, c, i);
    ProducerChildLinks(b, t, j, d, c, i);
    ChildIs(b, t, Prod(j));
    SameLinks(WithChild(b, t, Prod(j)), Apply(s, AddToProducer(d, j, t)), c, i);
  }

  lemma JoinedLinks(s: State, external: bool, conn: nat, c: nat, i: nat)
    requires Good(s) && Enabled(s, AddProducer(external, conn))
    ensures Linked(Apply(s, AddProducer(external, conn)), c, i) <==> Linked(s, c, i)
  {
    hide Locked, Counted, Named, Invariant, Taken;
    var r := Apply(s, AddProducer(external, conn));
    assert s.made !in s.producers;
    hide Known;
    forall t ensures LinkedBy(r, c, i, t) <==> LinkedBy(s, c, i, t) {
      if t in s.tracks && s.tracks[t].owner.Prod? {
        TrackOfConn(s, s.tracks[t].owner.p, t);
      }
    }
    hide LinkedBy;
  }

  // ---- Who is recorded -------------------------------------------------------------------------

  // A child tells that its consumer has recorded the producer.
  predicate ChildRecorded(s: State, t: nat, o: Owner) {
    && t in s.tracks
    && (o.Cons? && s.tracks[t].owner.Prod? && Live(s, o.c) ==> Recorded(s, o.c, s.tracks[t].owner.p))
    && (o.Prod? && s.tracks[t].owner.Cons? && Live(s, s.tracks[t].owner.c) ==> Recorded(s, s.tracks[t].owner.c, o.p))
  }

  predicate SenderRecorded(s: State, i: nat, t: nat) {
    t in s.tracks && s.tracks[t].owner.Cons? && Live(s, s.tracks[t].owner.c) ==> Recorded(s, s.tracks[t].owner.c, i)
  }

  ghost predicate Exact(s: State) {
    && (forall t, o :: t in s.tracks && o in s.tracks[t].childs ==> ChildRecorded(s, t, o))
    && (forall i, t :: i in s.producers && t in s.producers[i].senders ==> SenderRecorded(s, i, t))
  }

  // Live calls and consumers were live before, or nothing is theirs.
  ghost predicate Keeps(s: State, r: State) {
    && (forall t :: t in s.tracks ==> t in r.tracks && r.tracks[t].owner == s.tracks[t].owner)
    && (forall c, i :: Recorded(s, c, i) && Live(r, c) ==> Recorded(r, c, i))
    && (forall c :: Live(r, c) && !Live(s, c) ==> Unseen(s, c))
  }

  ghost predicate Unseen(s: State, c: nat) {
    forall t :: t in s.tracks ==> s.tracks[t].owner != Cons(c) && Cons(c) !in s.tracks[t].childs
  }

  lemma ChildKept(s: State, r: State, t: nat, o: Owner)
    requires Keeps(s, r) && t in s.tracks && o in s.tracks[t].childs && ChildRecorded(s, t, o)
    ensures ChildRecorded(r, t, o)
  {
    hide Recorded, Live;
  }

  lemma SenderKept(s: State, r: State, i: nat, t: nat)
    requires Keeps(s, r) && t in s.tracks && SenderRecorded(s, i, t)
    ensures SenderRecorded(r, i, t)
  {
    hide Recorded, Live;
  }

  lemma ExactAfter(s: State, r: State)
    requires Known(s) && Exact(s) && Keeps(s, r)
    requires forall t, o :: t in r.tracks && o in r.tracks[t].childs ==> ChildRecorded(r, t, o) || (t in s.tracks && o in s.tracks[t].childs)
    requires forall i, t :: i in r.producers && t in r.producers[i].senders ==> SenderRecorded(r, i, t) || (i in s.producers && t in s.producers[i].senders)
    ensures Exact(r)
  {
    hide Keeps, ChildRecorded, SenderRecorded, Known;
    forall t, o | t in s.tracks && o in s.tracks[t].childs ensures ChildRecorded(r, t, o) {
      ChildKept(s, r, t, o);
    }
    forall i, t | i in s.producers && t in s.producers[i].senders ensures SenderRecorded(r, i, t) {
      SenderTrack(s, i, t);
      SenderKept(s, r, i, t);
    }
  }

  // Most steps give nobody a child or a track of a consumer.
  ghost predicate Adds(step: Stream.Step) {
    step.AddToConsumer? || step.AddToProducer? || step.Swap?
  }

  lemma KeepsRecords(s: State, step: Stream.Step)
    requires Good(s) && Enabled(s, step)
    ensures Keeps(s, Apply(s, step))
  {
    hide Known, Heard, Owned, Locked, Counted, Named, Recorded, Apply, Enabled, Unseen;
    OwnersStay(s, step);
    RecordsStay(s, step);
  }

  predicate SameOrigin(u: Track, v: Track) {
    u.owner == v.owner && u.conn == v.conn
  }

  lemma OwnersStay(s: State, step: Stream.Step)
    requires Enabled(s, step)
    ensures forall t :: t in s.tracks ==> t in Apply(s, step).tracks && SameOrigin(Apply(s, step).tracks[t], s.tracks[t])
    ensures forall i :: i in s.producers ==> i in Apply(s, step).producers
  {
    hide Apply, Enabled, SameOrigin;
    match step
    case Remove(c) => OwnersOnLeave(s, c);
    case StopNow => OwnersOnStop(s);
    case Swap(i, act, conn, list, heard) => OwnersOnSwap(s, step);
    case _ => OwnersElse(s, step);
  }

  lemma OwnersOnLeave(s: State, c: nat)
    requires Enabled(s, Remove(c))
    ensures Apply(s, Remove(c)).producers == s.producers
    ensures forall t :: t in s.tracks ==> t in Apply(s, Remove(c)).tracks && SameOrigin(Apply(s, Remove(c)).tracks[t], s.tracks[t])
  {
    hide Left;
    LeftIs(s, c);
    forall t | t in s.tracks ensures SameOrigin(Apply(s, Remove(c)).tracks[t], s.tracks[t]) { LeftTracks(s, c, t); }
  }

  lemma OwnersOnStop(s: State)
    requires Enabled(s, StopNow)
    ensures Apply(s, StopNow).producers.Keys == s.producers.Keys
    ensures forall t :: t in s.tracks ==> t in Apply(s, StopNow).tracks && SameOrigin(Apply(s, StopNow).tracks[t], s.tracks[t])
  {
    hide Stopped, StopOne;
    var i := s.lock.value.doomed.value;
    StoppedIs(s, i);
    forall t | t in s.tracks ensures SameOrigin(Apply(s, StopNow).tracks[t], s.tracks[t]) { StoppedTracks(s, i, t); }
  }

  lemma OwnersOnSwap(s: State, step: Stream.Step)
    requires step.Swap? && Enabled(s, step)
    ensures Apply(s, step).producers.Keys == s.producers.Keys
    ensures forall t :: t in s.tracks ==> t in Apply(s, step).tracks && SameOrigin(Apply(s, step).tracks[t], s.tracks[t])
  {
    hide Swapped, CanSwap;
    SwapApplies(s, step);
    SwappedIs(s, step.i, step.act, step.conn, step.list, step.heard);
    forall t | t in s.tracks ensures t in Apply(s, step).tracks && SameOrigin(Apply(s, step).tracks[t], s.tracks[t]) {
      OldTrack(s, step.i, step.conn, step.list, step.heard, t);
    }
  }

  // Steps that change no track and no producer as far as tracks go, but for new
  // ones.
  predicate IsMild(step: Stream.Step) {
    !step.Remove? && !step.StopNow? && !step.Swap? && !step.AddToConsumer? && !step.AddToProducer?
  }

  lemma MildTracks(s: State, step: Stream.Step)
    requires Enabled(s, step) && IsMild(step)
    ensures forall t :: t in s.tracks ==> t in Apply(s, step).tracks && Apply(s, step).tracks[t] == s.tracks[t]
    ensures forall t :: t in Apply(s, step).tracks && t !in s.tracks ==> Apply(s, step).tracks[t].childs == []
  {
    hide After, HasChild, Do, Swaps, ConnOf;
  }

  lemma MildProducer(s: State, step: Stream.Step, i: nat, t: nat)
    requires Known(s) && Enabled(s, step) && IsMild(step) && i in Apply(s, step).producers
    ensures var q := Apply(s, step).producers[i];
            if i in s.producers then q.senders == s.producers[i].senders && (t in q.receivers ==> t in s.producers[i].receivers || t !in s.tracks)
            else q.receivers == [] == q.senders
  {
    hide Known, Apply, Enabled;
    match step
    case TakeTrack(_, _, _) => TakeProducer(s, step, i, t);
    case AddProducer(_, _) => JoinProducer(s, step, i);
    case DialFor(_, _, _) => LifeProducer(s, step, i);
    case StartOne(_, _) => LifeProducer(s, step, i);
    case Own(_, _) => LifeProducer(s, step, i);
    case _ => SameProducers(s, step);
  }

  lemma TakeProducer(s: State, step: Stream.Step, i: nat, t: nat)
    requires Enabled(s, step) && step.TakeTrack? && i in Apply(s, step).producers
    ensures var q := Apply(s, step).producers[i];
            i in s.producers && q.senders == s.producers[i].senders && (t in q.receivers ==> t in s.producers[i].receivers || t !in s.tracks)
  {
    hide After, ConnOf;
  }

  lemma JoinProducer(s: State, step: Stream.Step, i: nat)
    requires Known(s) && Enabled(s, step) && step.AddProducer? && i in Apply(s, step).producers
    ensures var q := Apply(s, step).producers[i];
            if i in s.producers then q == s.producers[i] else q.receivers == [] == q.senders
  {
    NotMade(s);
    hide Known;
  }

  lemma LifeProducer(s: State, step: Stream.Step, i: nat)
    requires Enabled(s, step) && (step.DialFor? || step.StartOne? || step.Own?) && i in Apply(s, step).producers
    ensures var q := Apply(s, step).producers[i];
            i in s.producers && q.senders == s.producers[i].senders && q.receivers == s.producers[i].receivers
  {
    hide After, Do, Swaps;
  }

  lemma SameProducers(s: State, step: Stream.Step)
    requires Enabled(s, step) && IsMild(step)
    requires !step.TakeTrack? && !step.AddProducer? && !step.DialFor? && !step.StartOne? && !step.Own?
    ensures Apply(s, step).producers == s.producers
  {
    hide HasChild;
  }

  lemma OwnersElse(s: State, step: Stream.Step)
    requires Enabled(s, step) && !step.Remove? && !step.StopNow? && !step.Swap?
    ensures forall t :: t in s.tracks ==> t in Apply(s, step).tracks && SameOrigin(Apply(s, step).tracks[t], s.tracks[t])
    ensures forall i :: i in s.producers ==> i in Apply(s, step).producers
  {
    hide After, HasChild, Do, Swaps;
  }

  lemma RecordsStay(s: State, step: Stream.Step)
    requires Named(s) && Enabled(s, step)
    ensures forall c, i :: Recorded(s, c, i) && Live(Apply(s, step), c) ==> Recorded(Apply(s, step), c, i)
    ensures forall c :: Live(Apply(s, step), c) && !Live(s, c) ==> Unseen(s, c)
  {
    hide After, Left, Stopped, Swapped, StopOne, HasChild, Do, Swaps, HeldIs, WithReceiver, WithChild, WithSender, WithLife;
    CallsAfter(s, step);
    hide Apply;
    var r := Apply(s, step);
    forall c, i | Recorded(s, c, i) && Live(r, c) ensures Recorded(r, c, i) {
    }
  }

  // What a step does to the calls and consumers.
  ghost predicate CallsFollow(s: State, r: State, step: Stream.Step) {
    && (forall c :: c in r.consumers && c !in s.consumers ==> step == Return(c) && c in s.calls && r.consumers[c] == s.calls[c].starts && c !in r.calls)
    && (forall c :: c in r.consumers && c in s.consumers ==> r.consumers[c] == s.consumers[c])
    && (forall c :: c in s.consumers && c !in r.consumers ==> step == Remove(c) && c !in r.calls)
    && (forall c :: c in r.calls && c !in s.calls ==> step == Begin(c) && c !in s.consumers && Unseen(s, c))
    && (forall c :: c in r.calls && c in s.calls ==> s.calls[c].starts <= r.calls[c].starts)
    && (forall c :: c in s.calls && c !in r.calls ==> c in r.consumers || s.calls[c].starts == {})
    && (forall c :: c in s.calls && c !in r.calls && c in r.consumers ==> r.consumers[c] == s.calls[c].starts)
  }

  lemma CallsAfter(s: State, step: Stream.Step)
    requires Named(s) && Enabled(s, step)
    ensures CallsFollow(s, Apply(s, step), step)
  {
    hide Named, Apply, Enabled, CallsFollow, Unseen;
    match step
    case Begin(c) => BeginFollows(s, c);
    case End(c) => EndFollows(s, c);
    case Return(c) => ReturnFollows(s, c);
    case Remove(c) => RemoveFollows(s, c);
    case _ =>
      if IsOfProducer(step) || IsOfSweep(step) {
        SameCalls(s, step);
        NoCallFollows(s, Apply(s, step), step);
      } else {
        CallGoesOn(s, step);
      }
  }

  lemma BeginFollows(s: State, c: nat)
    requires Enabled(s, Begin(c))
    ensures CallsFollow(s, Apply(s, Begin(c)), Begin(c))
  {
  }

  lemma EndFollows(s: State, c: nat)
    requires Named(s) && Enabled(s, End(c))
    ensures CallsFollow(s, Apply(s, End(c)), End(c))
  {
    hide HeldIs;
  }

  lemma ReturnFollows(s: State, c: nat)
    requires Named(s) && Enabled(s, Return(c))
    ensures CallsFollow(s, Apply(s, Return(c)), Return(c))
  {
    hide HeldIs;
  }

  lemma RemoveFollows(s: State, c: nat)
    requires Named(s) && Enabled(s, Remove(c))
    ensures CallsFollow(s, Apply(s, Remove(c)), Remove(c))
  {
    hide HeldIs, CloseAll;
  }

  lemma NoCallFollows(s: State, r: State, step: Stream.Step)
    requires r.calls == s.calls && r.consumers == s.consumers
    ensures CallsFollow(s, r, step)
  {
  }

  // The steps of the goroutines and mutexes of the producers, and of stopProducers.
  predicate IsOfProducer(step: Stream.Step) {
    step.DialFor? || step.Own? || step.AddProducer? || step.RemoveProducer? || step.Moving? || step.Swap? || step.Settle?
  }

  predicate IsOfSweep(step: Stream.Step) {
    step.Check? || step.Lock? || step.Look? || step.Glimpse? || step.StopNow? || step.Unlock?
  }

  lemma SameCalls(s: State, step: Stream.Step)
    requires Enabled(s, step) && (IsOfProducer(step) || IsOfSweep(step))
    ensures Apply(s, step).calls == s.calls && Apply(s, step).consumers == s.consumers
  {
    hide After, Do, Swaps, Renewed, CanSwap, StopOne, HasChild, CloseAll;
  }

  lemma SameSweep(s: State, step: Stream.Step)
    requires Enabled(s, step) && !IsOfSweep(step)
    ensures Apply(s, step).waiting == s.waiting && Apply(s, step).lock == s.lock
  {
    hide After, Do, Swaps, Renewed, CanSwap, CloseAll, ConnOf;
  }

  lemma CallGoesOn(s: State, step: Stream.Step)
    requires Enabled(s, step)
    requires step.TakeTrack? || step.AddToConsumer? || step.GetBack? || step.AddToProducer? || step.MatchBare? || step.Commit? || step.StartOne?
    ensures CallsFollow(s, Apply(s, step), step)
  {
    hide After, Unseen, ConnOf;
  }

  lemma ChildrenAfter(s: State, step: Stream.Step)
    requires Good(s) && Enabled(s, step) && !Adds(step)
    ensures var r := Apply(s, step);
            && (forall t, o :: t in r.tracks && o in r.tracks[t].childs ==> t in s.tracks && o in s.tracks[t].childs)
            && (forall i, t :: i in r.producers && t in r.producers[i].senders ==> i in s.producers && t in s.producers[i].senders)
  {
    hide After, Left, Stopped, StopOne, HasChild, Do, Swaps, Good;
    var r := Apply(s, step);
    match step
    case Remove(c) => LeftIs(s, c); forall t, o | t in r.tracks && o in r.tracks[t].childs ensures o in s.tracks[t].childs { LeftTracks(s, c, t); }
    case StopNow => StopNowChildren(s);
    case TakeTrack(c, i, t) =>
      if t !in s.producers[i].receivers {
        ReceiverIs(WithLife(s, i, After(s.producers[i], Lifecycle.GetTrack(false, true))), i, t);
      }
    case _ =>
  }

  lemma StopNowChildren(s: State)
    requires Good(s) && Enabled(s, StopNow)
    ensures var r := Apply(s, StopNow);
            && (forall t, o :: t in r.tracks && o in r.tracks[t].childs ==> t in s.tracks && o in s.tracks[t].childs)
            && (forall i, t :: i in r.producers && t in r.producers[i].senders ==> i in s.producers && t in s.producers[i].senders)
  {
    hide Known, Heard, Owned, Named, Locked, Counted, Stopped, StopOne;
    var i := s.lock.value.doomed.value;
    var a, r, p := Stopped(s, i), Apply(s, StopNow), s.producers[i];
    KnownLife(s, i);
    StopOneIs(p);
    IdleStays(p);
    StoppedIs(s, i);
    forall t, o | t in r.tracks && o in r.tracks[t].childs ensures o in s.tracks[t].childs {
      StoppedTracks(s, i, t);
    }
  }

  lemma AddToConsumerExact(s: State, c: nat, i: nat, t: nat)
    requires Good(s) && Exact(s) && Enabled(s, AddToConsumer(c, i, t))
    ensures Exact(Apply(s, AddToConsumer(c, i, t)))
  {
    hide Known, Heard, Owned, Locked, Counted, WithChild, Exact;
    var r := Apply(s, AddToConsumer(c, i, t));
    NamedCall(s, c);
    KeepsRecords(s, AddToConsumer(c, i, t));
    hide Named, Keeps;
    ChildIs(s, t, Cons(c));
    assert ChildRecorded(r, t, Cons(c));
    ExactAfter(s, r);
  }

  lemma AddToProducerExact(s: State, c: nat, i: nat, t: nat)
    requires Good(s) && Exact(s) && Enabled(s, AddToProducer(c, i, t))
    ensures Exact(Apply(s, AddToProducer(c, i, t)))
  {
    hide Known, Heard, Owned, Locked, Counted, WithChild, WithSender, Exact, After;
    var r := Apply(s, AddToProducer(c, i, t));
    NamedCall(s, c);
    KeepsRecords(s, AddToProducer(c, i, t));
    hide Named, Keeps;
    var a := WithLife(s, i, After(s.producers[i], Lifecycle.AddTrack(true)));
    SenderIs(a, i, t);
    ChildIs(WithSender(a, i, t), t, Prod(i));
    assert ChildRecorded(r, t, Prod(i)) && SenderRecorded(r, i, t);
    ExactAfter(s, r);
  }

  lemma SwapExact(s: State, i: nat, act: nat, conn: nat, list: seq<nat>, heard: seq<nat>)
    requires Good(s) && Exact(s) && CanSwap(s, i, act, conn, list, heard)
    ensures Exact(Swapped(s, i, act, conn, list, heard))
  {
    hide Known, Heard, Owned, Named, Locked, Counted, Swapped, Renewed, Exact, Swaps, IsNew, After;
    var r := Swapped(s, i, act, conn, list, heard);
    KeepsRecords(s, Swap(i, act, conn, list, heard));
    hide Keeps;
    SwappedIs(s, i, act, conn, list, heard);
    RenewedKeys(s, i, conn, list, heard);
    forall t, o | t in r.tracks && o in r.tracks[t].childs ensures ChildRecorded(r, t, o) || (t in s.tracks && o in s.tracks[t].childs) {
      if t in s.tracks {
        OldTrack(s, i, conn, list, heard, t);
        if o !in s.tracks[t].childs {
          ExactSender(s, i, t);
          SenderTrack(s, i, t);
          SenderKept(s, r, i, t);
        }
      } else {
        NewTrack(s, i, conn, list, heard, t);
        var u := s.producers[i].receivers[At(list, t)];
        SenderTrack(s, i, u);
        ExactChild(s, u, o);
        ChildKept(s, r, u, o);
      }
    }
    ExactAfter(s, r);
  }

  lemma ExactSender(s: State, i: nat, t: nat)
    requires Exact(s) && i in s.producers && t in s.producers[i].senders
    ensures SenderRecorded(s, i, t)
  {
    hide SenderRecorded, ChildRecorded;
  }

  lemma ExactChild(s: State, t: nat, o: Owner)
    requires Exact(s) && t in s.tracks && o in s.tracks[t].childs
    ensures ChildRecorded(s, t, o)
  {
    hide SenderRecorded, ChildRecorded;
  }

  lemma StepExact(s: State, step: Stream.Step)
    requires Good(s) && Exact(s) && Enabled(s, step)
    ensures Exact(Apply(s, step))
  {
    hide Good, Exact, Apply, Keeps;
    if step.AddToConsumer? {
      AddToConsumerExact(s, step.c, step.i, step.t);
    } else if step.AddToProducer? {
      AddToProducerExact(s, step.c, step.i, step.t);
    } else if step.Swap? {
      SwapExact(s, step.i, step.act, step.conn, step.list, step.heard);
      assert Apply(s, step) == Swapped(s, step.i, step.act, step.conn, step.list, step.heard) by { SwapApplies(s, step); }
    } else {
      KeepsRecords(s, step);
      ChildrenAfter(s, step);
      assert Known(s) by { GoodGraph(s); }
      ExactAfter(s, Apply(s, step));
    }
  }

  lemma SwapApplies(s: State, step: Stream.Step)
    requires step.Swap? && Enabled(s, step)
    ensures CanSwap(s, step.i, step.act, step.conn, step.list, step.heard)
    ensures Apply(s, step) == Swapped(s, step.i, step.act, step.conn, step.list, step.heard)
  {
  }

  lemma LinkedIsRecorded(s: State, c: nat, i: nat)
    requires Exact(s) && Live(s, c) && Linked(s, c, i)
    ensures Recorded(s, c, i)
  {
    hide Recorded, Live, SenderRecorded, Exact;
    var t :| LinkedBy(s, c, i, t);
    if s.tracks[t].owner == Prod(i) {
      ExactChild(s, t, Cons(c));
    } else {
      ExactChild(s, t, Prod(i));
    }
  }

  // ---- Who is up -------------------------------------------------------------------------------

  // AddConsumer has called start for the producer, if it was going to.
  predicate Begun(s: State, c: nat, i: nat) {
    c in s.consumers || (c in s.calls && s.calls[c].Starting? && i !in s.calls[c].left)
  }

  ghost predicate Up(s: State) {
    forall c, i :: i in s.producers && Begun(s, c, i) && Linked(s, c, i) ==> Running(s.producers[i])
  }

  lemma LinkedIsTaken(s: State, c: nat, i: nat)
    requires Graph(s) && Linked(s, c, i)
    ensures Taken(s.producers[i]) && HasChild(s, i)
  {
    hide Known, Heard, Owned, Taken, HasChild;
    var t :| LinkedBy(s, c, i, t);
    assert t in s.producers[i].receivers || t in s.producers[i].senders by {
      if s.tracks[t].owner == Prod(i) {
        TrackOfConn(s, i, t);
      } else {
        HeardSender(s, i, t);
      }
    }
    ChildCounts(s, i, t);
    TracksTaken(s, i, t);
  }

  lemma HeardSender(s: State, i: nat, t: nat)
    requires Heard(s) && t in s.tracks && Prod(i) in s.tracks[t].childs
    ensures i in s.producers && t in s.producers[i].senders
  {
  }

  lemma ChildCounts(s: State, i: nat, t: nat)
    requires i in s.producers && t in s.tracks && s.tracks[t].childs != []
    requires t in s.producers[i].receivers || t in s.producers[i].senders
    ensures HasChild(s, i)
  {
    assert t in s.producers[i].receivers + s.producers[i].senders;
  }

  lemma SameChildren(s: State, r: State, i: nat)
    requires i in s.producers && i in r.producers && r.producers[i] == s.producers[i] && r.tracks == s.tracks
    ensures HasChild(r, i) == HasChild(s, i)
  {
  }

  lemma TracksTaken(s: State, i: nat, t: nat)
    requires Known(s) && i in s.producers && (t in s.producers[i].receivers || t in s.producers[i].senders)
    ensures Taken(s.producers[i])
  {
    hide Invariant, Taken;
  }

  // What happens to the life of a producer, when it is not stopped and does not
  // reconnect.
  lemma LifeAfter(s: State, step: Stream.Step, i: nat) returns (own: Option<Lifecycle.Step>)
    requires Known(s) && Enabled(s, step) && i in s.producers && !step.Swap? && !step.StopNow?
    ensures i in Apply(s, step).producers
    ensures own.Some? ==> Plain(s.producers[i], own.value) && Apply(s, step).producers[i].life == After(s.producers[i], own.value)
    ensures own == None ==> Apply(s, step).producers[i].life == s.producers[i].life
    ensures step.StartOne? && step.i == i ==> own == Some(Start)
  {
    hide Apply, Enabled, Known, Plain, After;
    own := None;
    if step.StartOne? || step.DialFor? || step.TakeTrack? || step.AddToProducer? || step.Own? {
      own := LifeChanges(s, step, i);
    } else if step.Remove? {
      OwnersOnLeave(s, step.c);
    } else if step.AddToConsumer? {
      AddsNoLife(s, step);
    } else if step.AddProducer? {
      JoinsNoLife(s, step, i);
    } else {
      SameProducers(s, step);
    }
  }

  lemma AddsNoLife(s: State, step: Stream.Step)
    requires step.AddToConsumer? && Enabled(s, step)
    ensures Apply(s, step).producers == s.producers
  {
  }

  lemma JoinsNoLife(s: State, step: Stream.Step, i: nat)
    requires Known(s) && step.AddProducer? && Enabled(s, step) && i in s.producers
    ensures i in Apply(s, step).producers && Apply(s, step).producers[i] == s.producers[i]
  {
    NotMade(s);
    hide Known;
  }

  lemma LifeChanges(s: State, step: Stream.Step, i: nat) returns (own: Option<Lifecycle.Step>)
    requires Enabled(s, step) && i in s.producers && (step.StartOne? || step.DialFor? || step.TakeTrack? || step.AddToProducer? || step.Own?)
    ensures i in Apply(s, step).producers
    ensures own.Some? ==> Plain(s.producers[i], own.value) && Apply(s, step).producers[i].life == After(s.producers[i], own.value)
    ensures own == None ==> Apply(s, step).producers[i].life == s.producers[i].life
    ensures step.StartOne? && step.i == i ==> own == Some(Start)
  {
    hide After, Do;
    own := None;
    match step
    case StartOne(c, j) => own := if i == j then Some(Start) else None;
    case DialFor(c, j, dialled) => own := if i == j then Some(Lifecycle.Dial(dialled)) else None;
    case TakeTrack(c, j, t) => own := if i == j && t !in s.producers[j].receivers then Some(Lifecycle.GetTrack(false, true)) else None;
    case AddToProducer(c, j, t) => own := if i == j then Some(Lifecycle.AddTrack(true)) else None;
    case Own(j, o) => own := if i == j then Some(o) else None;
  }

  // A running producer runs on until it is stopped, and start runs a producer
  // of which a track was taken.
  lemma PhaseAfter(s: State, step: Stream.Step, i: nat)
    requires Good(s) && Enabled(s, step) && i in s.producers
    ensures i in Apply(s, step).producers
    ensures Running(s.producers[i]) && !(step.StopNow? && s.lock.value.doomed == Some(i) && s.producers[i].life.phase != External) ==>
              Running(Apply(s, step).producers[i])
    ensures step.StartOne? && step.i == i ==> (Running(Apply(s, step).producers[i]) <==> Taken(s.producers[i]))
  {
    hide After, Apply, Running, Taken, Good, Plain;
    assert Known(s) by { GoodGraph(s); }
    if step.Swap? {
      SwapApplies(s, step);
      SwapRuns(s, step.i, step.act, step.conn, step.list, step.heard);
    } else if step.StopNow? {
      StopNowLife(s, i);
    } else {
      var own := LifeAfter(s, step, i);
      if own.Some? {
        RunsAfter(s, i, own.value);
      } else {
        SameRunning(s.producers[i], Apply(s, step).producers[i]);
      }
    }
  }

  lemma StopNowLife(s: State, i: nat)
    requires Enabled(s, StopNow) && i in s.producers
    ensures i in Apply(s, StopNow).producers
    ensures s.lock.value.doomed != Some(i) || s.producers[i].life.phase == External ==> Apply(s, StopNow).producers[i] == s.producers[i]
  {
    hide StopOne, Stopped;
    StoppedIs(s, s.lock.value.doomed.value);
    IdleStays(s.producers[i]);
  }

  lemma SameRunning(p: Producer, q: Producer)
    requires p.life == q.life
    ensures Running(p) == Running(q) && Taken(p) == Taken(q)
  {
  }

  lemma NotMade(s: State)
    requires Known(s)
    ensures s.made !in s.producers
  {
    hide Invariant, Taken;
  }

  lemma RunsAfter(s: State, i: nat, step: Lifecycle.Step)
    requires Known(s) && i in s.producers && Plain(s.producers[i], step)
    ensures forall q: Producer :: q.life == After(s.producers[i], step) ==>
              (Running(s.producers[i]) ==> Running(q)) && (step.Start? ==> (Running(q) <==> Taken(s.producers[i])))
  {
    KnownLife(s, i);
    hide Known, Follows;
    StepFollows(s.producers[i], step);
    StartRuns(s.producers[i]);
    hide After;
  }

  lemma StartRuns(p: Producer)
    requires Invariant(p.life)
    ensures Running(p.(life := After(p, Start))) <==> Taken(p)
  {
    StepKeeps(p.life, Start);
  }

  lemma SwapRuns(s: State, i: nat, act: nat, conn: nat, list: seq<nat>, heard: seq<nat>)
    requires Known(s) && CanSwap(s, i, act, conn, list, heard)
    ensures var r := Swapped(s, i, act, conn, list, heard);
            Running(r.producers[i]) && r.producers.Keys == s.producers.Keys && forall k :: k in s.producers && k != i ==> r.producers[k] == s.producers[k]
  {
    hide Known, Swapped, Renewed, Swaps, IsNew, After;
    KnownLife(s, i);
    SwapLife(s.producers[i], act, conn);
    SwappedIs(s, i, act, conn, list, heard);
  }

  lemma StepUp(s: State, step: Stream.Step)
    requires Good(s) && Exact(s) && Up(s) && Enabled(s, step)
    ensures Up(Apply(s, step))
  {
    hide Up, Good, Exact, Apply, Linked, Running, Begun;
    var r := Apply(s, step);
    forall c, i | i in r.producers && Begun(r, c, i) && Linked(r, c, i) ensures Running(r.producers[i]) {
      BegunIsLive(r, c, i);
      StepLinks(s, step, c, i);
      if Makes(s, step, c, i) {
        MakingRuns(s, step, c, i);
      } else {
        LinkedBefore(s, step, c, i);
      }
    }
    assert Up(r) by { UpIs(r); }
  }

  lemma UpIs(s: State)
    requires forall c, i :: i in s.producers && Begun(s, c, i) && Linked(s, c, i) ==> Running(s.producers[i])
    ensures Up(s)
  {
    hide Begun, Linked, Running;
  }

  lemma UpAt(s: State, c: nat, i: nat)
    requires Up(s) && Begun(s, c, i) && Linked(s, c, i)
    ensures i in s.producers && Running(s.producers[i])
  {
    hide Begun, Running;
  }

  lemma BegunIsLive(s: State, c: nat, i: nat)
    requires Begun(s, c, i)
    ensures Live(s, c)
  {
  }

  // A link is made for a call that has not begun to start producers, or by a
  // reconnect.
  lemma MakingRuns(s: State, step: Stream.Step, c: nat, i: nat)
    requires Good(s) && Enabled(s, step) && Makes(s, step, c, i) && Begun(Apply(s, step), c, i)
    ensures i in Apply(s, step).producers && Running(Apply(s, step).producers[i])
  {
    hide Running, Good, Swapped, Carried, After, Do, WithChild, WithSender, WithLife;
    if step.Swap? {
      assert Known(s) by { GoodGraph(s); }
      SwapRuns(s, step.i, step.act, step.conn, step.list, step.heard);
    } else {
      MakerMatches(s, step);
      NotBoth(s, c);
    }
  }

  lemma MakerMatches(s: State, step: Stream.Step)
    requires (step.AddToConsumer? || step.AddToProducer?) && Enabled(s, step)
    ensures var r := Apply(s, step); r.consumers == s.consumers && step.c in r.calls && r.calls[step.c].Matching? && step.c in s.calls
  {
    hide After;
  }

  lemma NotBoth(s: State, c: nat)
    requires Good(s) && c in s.calls
    ensures c !in s.consumers
  {
    hide Known, Heard, Owned, Locked, Counted, HeldIs;
  }

  // The link was there: either start was done before, or it is done now, or the
  // call starts nothing, and then it was not recorded.
  lemma LinkedBefore(s: State, step: Stream.Step, c: nat, i: nat)
    requires Good(s) && Exact(s) && Up(s) && Enabled(s, step)
    requires Linked(s, c, i) && !Breaks(s, step, c, i) && Begun(Apply(s, step), c, i)
    ensures i in Apply(s, step).producers && Running(Apply(s, step).producers[i])
  {
    hide Up, Good, Exact, Apply, Running, Taken, Begun, Linked;
    assert i in s.producers by { LinkedKnown(s, c, i); }
    PhaseAfter(s, step, i);
    if Begun(s, c, i) {
      UpAt(s, c, i);
    } else {
      assert Graph(s) by { GoodGraph(s); }
      LinkedIsTaken(s, c, i);
      BeginsNow(s, step, c, i);
      LinkedIsRecorded(s, c, i);
    }
  }

  lemma LinkedKnown(s: State, c: nat, i: nat)
    requires Linked(s, c, i)
    ensures i in s.producers
  {
  }

  // How a call comes to have started a producer.
  lemma BeginsNow(s: State, step: Stream.Step, c: nat, i: nat)
    requires Good(s) && Enabled(s, step) && !Begun(s, c, i) && Begun(Apply(s, step), c, i)
    ensures Live(s, c) && ((step.StartOne? && step.i == i && step.c == c) || !Recorded(s, c, i))
  {
    hide Known, Heard, Owned, Locked, Counted, HeldIs;
    CallsAfter(s, step);
    LeftAfter(s, step, c);
    hide Named, Apply;
  }

  lemma LeftAfter(s: State, step: Stream.Step, c: nat)
    requires Enabled(s, step)
    ensures var r := Apply(s, step);
            c in r.calls && r.calls[c].Starting? ==>
              && c in s.calls
              && (if s.calls[c].Starting? then r.calls[c].left == if step.StartOne? && step.c == c then s.calls[c].left - {step.i} else s.calls[c].left
                  else r.calls[c].left == s.calls[c].starts + s.calls[c].bare)
    ensures step == Return(c) ==> s.calls[c].Starting? && s.calls[c].left == {}
  {
    hide Apply, Enabled;
    if IsOfProducer(step) || IsOfSweep(step) {
      SameCalls(s, step);
    } else {
      LeftGoesOn(s, step, c);
    }
  }

  lemma LeftGoesOn(s: State, step: Stream.Step, c: nat)
    requires Enabled(s, step) && !IsOfProducer(step) && !IsOfSweep(step)
    ensures var r := Apply(s, step);
            c in r.calls && r.calls[c].Starting? ==>
              && c in s.calls
              && (if s.calls[c].Starting? then r.calls[c].left == if step.StartOne? && step.c == c then s.calls[c].left - {step.i} else s.calls[c].left
                  else r.calls[c].left == s.calls[c].starts + s.calls[c].bare)
    ensures step == Return(c) ==> s.calls[c].Starting? && s.calls[c].left == {}
  {
    hide After, ConnOf, CloseAll;
  }
}
