// internal/streams/stream.go: what stopProducers does when nobody else moves,
// and when it brings a stream to rest.

module StreamSweeps {
  import opened Bytes
  import opened Lifecycle
  import opened Stream
  import opened StreamLinks
  import opened StreamRuns
  import Node

  // Every producer of the list without children is stopped. That stopping one
  // does not matter to another is shown below.
  function Idled(s: State): State {
    s.(producers := map i | i in s.producers :: if i in s.listed && !HasChild(s, i) then StopOne(s.producers[i]) else s.producers[i])
  }

  // A whole call of stopProducers.
  function StopIdle(s: State): State
    requires s.due > 0
  {
    (if s.pending > 0 then s else Idled(s)).(due := s.due - 1)
  }

  // ---- Stopping touches no track ----------------------------------------------------------

  lemma {:induction false} DetachNobody(childs: seq<Owner>, who: Owner)
    requires who !in childs
    ensures Detach(childs, who) == childs
  {
    if childs != [] {
      DetachNobody(childs[1..], who);
    }
  }

  lemma StopTouchesNothing(s: State, i: nat)
    requires Graph(s) && i in s.producers && !HasChild(s, i) && s.producers[i].life.phase != Idle
    ensures CloseAll(s.tracks, Prod(i), ConnOf(s.producers[i])) == s.tracks
  {
    hide HasChild, Known, Heard, Owned;
    KnownLife(s, i);
    OwnsConn(s.producers[i]);
    forall t | t in s.tracks ensures CloseAll(s.tracks, Prod(i), ConnOf(s.producers[i]))[t] == s.tracks[t] {
      if s.tracks[t].owner == Prod(i) {
        TrackOfConn(s, i, t);
        ChildKinds(s, t, i);
      } else if Prod(i) in s.tracks[t].childs {
        HeardSender(s, i, t);
      }
      if s.tracks[t].childs != [] && (t in s.producers[i].receivers || t in s.producers[i].senders) {
        ChildCounts(s, i, t);
      }
      DetachIf(s.tracks[t].childs, Prod(i));
    }
  }

  lemma DetachIf(childs: seq<Owner>, who: Owner)
    ensures who !in childs ==> Detach(childs, who) == childs
  {
    if who !in childs { DetachNobody(childs, who); }
  }

  lemma ChildKinds(s: State, t: nat, i: nat)
    requires Heard(s) && t in s.tracks && s.tracks[t].owner.Prod?
    ensures Prod(i) !in s.tracks[t].childs
  {
    if Prod(i) in s.tracks[t].childs {
      KindOf(s, t, Prod(i));
    }
  }

  lemma KindOf(s: State, t: nat, o: Owner)
    requires Heard(s) && t in s.tracks && o in s.tracks[t].childs
    ensures o.Cons? <==> s.tracks[t].owner.Prod?
    ensures o.Cons? ==> o.c in s.consumers || o.c in s.calls
  {
  }

  // ---- Up or idle -----------------------------------------------------------------------------

  lemma IdledIs(s: State, i: nat)
    requires i in s.producers
    ensures i in Idled(s).producers
    ensures Idled(s).producers[i] == if i in s.listed && !HasChild(s, i) then StopOne(s.producers[i]) else s.producers[i]
    ensures Idled(s) == s.(producers := Idled(s).producers) && Idled(s).producers.Keys == s.producers.Keys
  {
    hide HasChild, StopOne;
  }

  lemma IdledExactly(s: State, i: nat)
    requires Graph(s) && i in s.listed && i in s.producers
    ensures i in Idled(s).producers
    ensures var p, q := s.producers[i], Idled(s).producers[i];
            if p.life.phase == External || HasChild(s, i) then q == p && q.life.phase != Idle
            else q.life.phase == Idle && q.life.conn == None && q.receivers == [] == q.senders
  {
    hide HasChild, Known, Heard, Owned, Idled, StopOne;
    IdledIs(s, i);
    KnownLife(s, i);
    StopOneIs(s.producers[i]);
    IdleStays(s.producers[i]);
    OwnsConn(s.producers[i]);
    if s.producers[i].life.phase == Idle { IdleHasNothing(s, i); }
  }

  lemma IdleHasNothing(s: State, i: nat)
    requires Known(s) && i in s.producers && s.producers[i].life.phase == Idle
    ensures s.producers[i].receivers == [] == s.producers[i].senders && !HasChild(s, i)
  {
    hide Invariant;
  }

  // stopProducers does nothing while an AddConsumer is matching; otherwise a
  // producer of the list that is not external is up afterwards exactly when one
  // of its tracks has a child.
  lemma StopProducersExact(urls: nat, steps: seq<Stream.Step>, i: nat)
    requires Stream.Run(urls, steps).Some?
    requires var s := Stream.Run(urls, steps).value; s.due > 0 && i in s.listed && i in s.producers
    ensures var s := Stream.Run(urls, steps).value; var r := StopIdle(s);
            if exists c :: Busy(s, c) then r == s.(due := s.due - 1)
            else
              && i in r.producers && r.tracks == s.tracks
              && var p, q := s.producers[i], r.producers[i];
                 if p.life.phase == External || HasChild(s, i) then q == p && q.life.phase != Idle
                 else q.life.phase == Idle && q.life.conn == None && q.receivers == [] == q.senders
  {
    hide Stream.Run, HasChild, Known, Heard, Owned, Named, Locked, Idled;
    EveryRunIsGood(urls, steps);
    var s := Stream.Run(urls, steps).value;
    if c :| Busy(s, c) {
      assert c in Pending(s);
    } else {
      assert forall d :: d in Pending(s) ==> Busy(s, d);
      assert Pending(s) == {};
      IdledExactly(s, i);
      IdledIs(s, i);
    }
  }

  // ---- The last consumer leaves ---------------------------------------------------------------

  // A track of a consumer that is gone, to which the producer listened, keeps a
  // child: one of the consumer that leaves with three children or more, or one
  // that an earlier consumer left behind.
  predicate Remains(s: State, c: nat, i: nat)
    requires i in s.producers
  {
    exists t :: t in s.producers[i].senders && t in s.tracks &&
                (if s.tracks[t].owner == Cons(c) then |s.tracks[t].childs| > 2 else s.tracks[t].childs != [])
  }

  lemma LeftBehind(s: State, c: nat, i: nat)
    requires Graph(s) && s.consumers.Keys == {c} && s.calls == map[] && i in s.producers
    ensures HasChild(Left(s, c), i) <==> Remains(s, c, i)
  {
    hide Known, Heard, Owned, CloseAll;
    var r := Left(s, c);
    LeftIs(s, c);
    forall t | t in s.producers[i].receivers ensures t in r.tracks ==> r.tracks[t].childs == [] {
      SenderTrack(s, i, t);
      NobodyLeft(s, c, t);
    }
    forall t | t in s.producers[i].senders
      ensures t in s.tracks && t in r.tracks && (r.tracks[t].childs != [] <==> if s.tracks[t].owner == Cons(c) then |s.tracks[t].childs| > 2 else s.tracks[t].childs != [])
    {
      SenderTrack(s, i, t);
      LeftOnTrack(s, c, t);
    }
    hide Left;
    if t :| t in s.producers[i].senders && t in s.tracks && (if s.tracks[t].owner == Cons(c) then |s.tracks[t].childs| > 2 else s.tracks[t].childs != []) {
      assert t in r.producers[i].receivers + r.producers[i].senders;
    }
  }

  lemma NobodyLeft(s: State, c: nat, t: nat)
    requires Heard(s) && s.consumers.Keys == {c} && s.calls == map[] && t in s.tracks && s.tracks[t].owner.Prod?
    ensures t in Left(s, c).tracks && Left(s, c).tracks[t].childs == []
  {
    hide Left, Heard;
    LeftTracks(s, c, t);
    forall o | o in s.tracks[t].childs ensures o == Cons(c) {
      KindOf(s, t, o);
      assert o.c in s.consumers.Keys;
    }
    NobodyIn(Left(s, c).tracks[t].childs);
  }

  lemma NobodyIn(childs: seq<Owner>)
    requires forall o :: o !in childs
    ensures childs == []
  {
    if childs != [] {
      FirstIsIn(childs);
    }
  }

  lemma FirstIsIn(childs: seq<Owner>)
    requires childs != []
    ensures exists o :: o in childs
  {
    assert childs[0] in childs;
  }

  lemma LeftOnTrack(s: State, c: nat, t: nat)
    requires Heard(s) && Owned(s) && t in s.tracks && s.tracks[t].owner.Cons?
    ensures t in Left(s, c).tracks
    ensures Left(s, c).tracks[t].childs == if s.tracks[t].owner == Cons(c) then Node.EverySecond(s.tracks[t].childs) else s.tracks[t].childs
  {
    assert s.tracks[t].conn == 0;
    if Cons(c) in s.tracks[t].childs { KindOf(s, t, Cons(c)); }
    DetachIf(s.tracks[t].childs, Cons(c));
    hide Heard, Owned;
  }

  // Removing the last consumer brings a producer to rest, without tracks, unless
  // it is external, exactly when no track of a consumer that it listened to
  // keeps a child.
  lemma LastConsumerLeaves(urls: nat, steps: seq<Stream.Step>, c: nat, i: nat)
    requires Stream.Run(urls, steps).Some?
    requires var s := Stream.Run(urls, steps).value; s.consumers.Keys == {c} && s.calls == map[] && i in s.listed && i in s.producers
    ensures var s := Stream.Run(urls, steps).value; var p := s.producers[i]; var r := StopIdle(Apply(s, Remove(c)));
            && i in r.producers && r.consumers == map[]
            && if p.life.phase == External || Remains(s, c, i) then r.producers[i] == p && p.life.phase != Idle
               else r.producers[i].life.phase == Idle && r.producers[i].life.conn == None && r.producers[i].receivers == [] == r.producers[i].senders
  {
    hide Stream.Run, Known, Heard, Owned, Left, Idled, Remains, HasChild;
    EveryRunIsGood(urls, steps);
    var s := Stream.Run(urls, steps).value;
    assert Pending(s) == {};
    hide Named, Locked;
    LeftBehind(s, c, i);
    LeftKeeps(s, c);
    LeftIs(s, c);
    var a := Apply(s, Remove(c));
    SameGraph(Left(s, c), a);
    SameChildren(Left(s, c), a, i);
    IdledExactly(a, i);
    IdledIs(a, i);
    assert a.consumers == map[];
  }

  // ---- Consumers that send ------------------------------------------------------------------------

  // A consumer leaves when each of its tracks has at most two children, and a
  // reconnect listens only to tracks of consumers that are there.
  predicate IsTidy(s: State, step: Stream.Step)
    requires Enabled(s, step)
  {
    match step
    case Remove(c) => forall t :: t in s.tracks && s.tracks[t].owner == Cons(c) ==> |s.tracks[t].childs| <= 2
    case Swap(_, _, _, _, heard) => forall t :: t in heard && t in s.tracks && s.tracks[t].owner.Cons? ==> Live(s, s.tracks[t].owner.c)
    case _ => true
  }

  ghost predicate TidyRun(urls: nat, steps: seq<Stream.Step>)
    requires Stream.Run(urls, steps).Some?
  {
    forall k :: 0 <= k < |steps| ==> IsTidy(Before(urls, steps, k), steps[k])
  }

  // Nobody listens to a track of a consumer that is gone.
  ghost predicate NoGhosts(s: State) {
    forall t, o :: t in s.tracks && s.tracks[t].owner.Cons? && o in s.tracks[t].childs ==> Live(s, s.tracks[t].owner.c)
  }

  lemma TidyStep(s: State, step: Stream.Step)
    requires Good(s) && Exact(s) && NoGhosts(s) && Enabled(s, step) && IsTidy(s, step)
    ensures NoGhosts(Apply(s, step))
  {
    hide Good, Exact, Apply, Live;
    var r := Apply(s, step);
    forall t, o | t in r.tracks && r.tracks[t].owner.Cons? && o in r.tracks[t].childs ensures Live(r, r.tracks[t].owner.c) {
      GhostFrom(s, step, t, o);
      var c := r.tracks[t].owner.c;
      StillThere(s, step, c, t, o);
    }
  }

  // A child of a track of a consumer that is there was there before, or the
  // track was given or heard now.
  lemma GhostFrom(s: State, step: Stream.Step, t: nat, o: Owner)
    requires Good(s) && NoGhosts(s) && Enabled(s, step) && IsTidy(s, step)
    requires var r := Apply(s, step); t in r.tracks && r.tracks[t].owner.Cons? && o in r.tracks[t].childs
    ensures t in s.tracks && s.tracks[t].owner == Apply(s, step).tracks[t].owner && Live(s, s.tracks[t].owner.c)
    ensures o in s.tracks[t].childs || step.AddToConsumer? || step.AddToProducer? || step.Swap?
  {
    hide Good, Apply, Live;
    OwnersStay(s, step);
    if step.Swap? {
      SwapApplies(s, step);
      HeardGhost(s, step, t, o);
    } else if step.AddToConsumer? || step.AddToProducer? {
      GivenGhost(s, step, t, o);
    } else {
      ChildrenAfter(s, step);
    }
  }

  lemma GivenGhost(s: State, step: Stream.Step, t: nat, o: Owner)
    requires Good(s) && NoGhosts(s) && Enabled(s, step) && (step.AddToConsumer? || step.AddToProducer?)
    requires var r := Apply(s, step); t in r.tracks && r.tracks[t].owner.Cons? && o in r.tracks[t].childs
    ensures t in s.tracks && s.tracks[t].owner == Apply(s, step).tracks[t].owner && Live(s, s.tracks[t].owner.c)
  {
    hide Good, WithChild, WithSender, After;
    HeldIsOwn(s, step.c);
    if step.AddToConsumer? {
      ChildIs(s, step.t, Cons(step.c));
    } else {
      var a := WithLife(s, step.i, After(s.producers[step.i], Lifecycle.AddTrack(true)));
      SenderIs(a, step.i, step.t);
      ChildIs(WithSender(a, step.i, step.t), step.t, Prod(step.i));
    }
  }

  lemma HeldIsOwn(s: State, c: nat)
    requires Good(s) && Busy(s, c)
    ensures HeldIs(s, c, s.calls[c].held)
  {
    hide Known, Heard, Owned, Locked, Counted;
  }

  lemma HeardGhost(s: State, step: Stream.Step, t: nat, o: Owner)
    requires Good(s) && NoGhosts(s) && step.Swap? && Enabled(s, step) && IsTidy(s, step)
    requires var r := Apply(s, step); t in r.tracks && r.tracks[t].owner.Cons? && o in r.tracks[t].childs
    ensures t in s.tracks && s.tracks[t].owner == Apply(s, step).tracks[t].owner && Live(s, s.tracks[t].owner.c)
  {
    hide Good, Swapped, Renewed, Swaps, IsNew, Live;
    SwappedIs(s, step.i, step.act, step.conn, step.list, step.heard);
    RenewedKeys(s, step.i, step.conn, step.list, step.heard);
    if t in s.tracks {
      OldTrack(s, step.i, step.conn, step.list, step.heard, t);
    } else {
      NewTrack(s, step.i, step.conn, step.list, step.heard, t);
    }
  }

  // A consumer to which somebody listens does not go.
  lemma StillThere(s: State, step: Stream.Step, c: nat, t: nat, o: Owner)
    requires Good(s) && Exact(s) && Enabled(s, step) && IsTidy(s, step) && Live(s, c)
    requires var r := Apply(s, step); t in r.tracks && r.tracks[t].owner == Cons(c) && o in r.tracks[t].childs
    requires t in s.tracks && s.tracks[t].owner == Cons(c) && (o in s.tracks[t].childs || step.AddToConsumer? || step.AddToProducer? || step.Swap?)
    ensures Live(Apply(s, step), c)
  {
    hide Known, Heard, Owned, Locked, Counted, HeldIs, Exact;
    CallsAfter(s, step);
    if step.AddToConsumer? || step.AddToProducer? || step.Swap? {
      StaysLive(s, step, c);
      return;
    }
    hide Apply, Named;
    if step == Remove(c) {
      TidyRemove(s, c, t, o);
    } else {
      ExactChild(s, t, o);
      ChildIsProducer(s, t, o);
    }
  }

  lemma StaysLive(s: State, step: Stream.Step, c: nat)
    requires Enabled(s, step) && (step.AddToConsumer? || step.AddToProducer? || step.Swap?) && Live(s, c)
    ensures Live(Apply(s, step), c)
  {
    hide After, Swapped;
    if step.Swap? {
      SwappedIs(s, step.i, step.act, step.conn, step.list, step.heard);
    }
  }

  lemma ChildIsProducer(s: State, t: nat, o: Owner)
    requires Good(s) && t in s.tracks && s.tracks[t].owner.Cons? && o in s.tracks[t].childs
    ensures o.Prod?
  {
    hide Known, Owned, Named, Locked, Counted;
    KindOf(s, t, o);
  }

  lemma TidyRemove(s: State, c: nat, t: nat, o: Owner)
    requires Good(s) && Enabled(s, Remove(c)) && IsTidy(s, Remove(c)) && t in s.tracks && s.tracks[t].owner == Cons(c)
    ensures t in Apply(s, Remove(c)).tracks && o !in Apply(s, Remove(c)).tracks[t].childs
  {
    hide Known, Named, Locked, Counted, Left;
    LeftOnTrack(s, c, t);
    assert Node.EverySecond(s.tracks[t].childs) == [];
  }

  lemma {:induction false} TidyRunsHaveNoGhosts(urls: nat, steps: seq<Stream.Step>)
    requires Stream.Run(urls, steps).Some? && TidyRun(urls, steps)
    ensures NoGhosts(Stream.Run(urls, steps).value)
  {
    hide Good, Exact, Up, Apply, Enabled, IsTidy;
    if steps == [] {
      var none: seq<Stream.Step> := [];
      assert Stream.Run(urls, none) == Some(NewStream(urls));
    } else {
      var rest, n := steps[..|steps| - 1], |steps| - 1;
      forall k | 0 <= k < |rest| ensures IsTidy(Before(urls, rest, k), rest[k]) {
        PrefixRun(urls, steps, k);
        assert IsTidy(Before(urls, steps, k), steps[k]);
      }
      TidyRunsHaveNoGhosts(urls, rest);
      EveryRunIsGood(urls, rest);
      EveryRunIsExact(urls, rest);
      hide NoGhosts;
      assert IsTidy(Before(urls, steps, n), steps[n]);
      TidyStep(Before(urls, steps, n), steps[n]);
    }
  }

  // However many consumers came and went before, in both directions: in a tidy
  // run the last one brings every producer of the list to rest that is not
  // external, when its own tracks have at most two children.
  lemma LastOfTidyRun(urls: nat, steps: seq<Stream.Step>, c: nat, i: nat)
    requires Stream.Run(urls, steps).Some?
    requires var s := Stream.Run(urls, steps).value;
             c in s.consumers && s.consumers.Keys == {c} && s.calls == map[] && i in s.listed && i in s.producers && IsTidy(s, Remove(c))
    requires TidyRun(urls, steps)
    ensures var s := Stream.Run(urls, steps).value; var r := StopIdle(Apply(s, Remove(c)));
            i in r.producers && (s.producers[i].life.phase != External ==> r.producers[i].life.phase == Idle && r.producers[i].receivers == [] == r.producers[i].senders)
  {
    hide Stream.Run, Left, Idled, HasChild, TidyRun;
    TidyRunsHaveNoGhosts(urls, steps);
    LastConsumerLeaves(urls, steps, c, i);
    EveryRunIsGood(urls, steps);
    NothingRemains(Stream.Run(urls, steps).value, c, i);
  }

  lemma NothingRemains(s: State, c: nat, i: nat)
    requires Good(s) && NoGhosts(s) && s.consumers.Keys == {c} && s.calls == map[] && i in s.producers
    requires forall t :: t in s.tracks && s.tracks[t].owner == Cons(c) ==> |s.tracks[t].childs| <= 2
    ensures !Remains(s, c, i)
  {
    hide Heard, Owned, Named, Locked, Counted;
    forall t | t in s.producers[i].senders && t in s.tracks
      ensures if s.tracks[t].owner == Cons(c) then |s.tracks[t].childs| <= 2 else s.tracks[t].childs == []
    {
      SenderTrack(s, i, t);
      if s.tracks[t].owner != Cons(c) {
        assert s.tracks[t].owner.c !in s.consumers.Keys;
        NobodyIn(s.tracks[t].childs);
      }
    }
  }

  // ---- Matched without a track ----------------------------------------------------------------

  // A call ends, its stopProducers runs undisturbed, and start is called for a
  // producer that it matched only by a media that flows both ways. The producer
  // is up when another call is matching and a track was taken, and otherwise
  // when it has a child or is external.
  lemma BareIsUp(urls: nat, steps: seq<Stream.Step>, c: nat, i: nat)
    requires Stream.Run(urls, steps).Some?
    requires var s := Stream.Run(urls, steps).value;
             Busy(s, c) && i in s.calls[c].bare && i in s.listed && i in s.producers && s.due == 0
    ensures var s := Stream.Run(urls, steps).value; var e := Apply(s, End(c)); var r := if e.due > 0 then StopIdle(e) else e;
            && i in r.producers
            && var q := r.producers[i].(life := After(r.producers[i], Start));
               (Running(q) <==> if exists d :: d != c && Busy(s, d) then Taken(s.producers[i]) else s.producers[i].life.phase == External || HasChild(s, i))
  {
    hide Stream.Run, Known, Heard, Owned, HasChild, Idled, Running, Taken, After;
    EveryRunIsGood(urls, steps);
    var s := Stream.Run(urls, steps).value;
    EndKeeps(s, c);
    hide Named, Locked;
    var e := Ended(s, c);
    SameChildren(s, e, i);
    KnownLife(e, i);
    OthersPend(s, c);
    StartRuns(e.producers[i]);
    if e.due > 0 {
      IdledExactly(e, i);
      IdledIs(e, i);
      StoppedStays(e, i);
    }
  }

  lemma OthersPend(s: State, c: nat)
    requires Good(s) && Busy(s, c)
    ensures s.pending == 1 <==> !exists d :: d != c && Busy(s, d)
    ensures s.pending >= 1
  {
    hide Known, Heard, Owned, Named, Locked;
    assert c in Pending(s);
    if d :| d != c && Busy(s, d) {
      assert {c, d} <= Pending(s);
      SubsetSize({c, d}, Pending(s));
    } else {
      assert forall d :: d in Pending(s) ==> Busy(s, d);
      assert Pending(s) == {c};
    }
  }

  lemma SubsetSize(a: set<nat>, b: set<nat>)
    requires a <= b
    ensures |a| <= |b|
  {
    assert b == a + (b - a);
  }

  // start after the sweep.
  lemma StoppedStays(s: State, i: nat)
    requires Graph(s) && i in s.listed && i in s.producers && i in Idled(s).producers
    ensures var q := Idled(s).producers[i];
            Running(q.(life := After(q, Start))) <==> s.producers[i].life.phase == External || HasChild(s, i)
  {
    hide Idled, HasChild, Known, Heard, Owned;
    IdledExactly(s, i);
    KnownLife(s, i);
    StartRuns(s.producers[i]);
    if HasChild(s, i) {
      ChildIsTaken(s, i);
    }
  }

  lemma ChildIsTaken(s: State, i: nat)
    requires Known(s) && i in s.producers && HasChild(s, i)
    ensures Taken(s.producers[i])
  {
    hide Invariant, Taken;
  }
}
