// internal/streams: when every consumer keeps what it matched. The counter
// pending is there so that stopProducers leaves the tracks alone that a consumer
// is about to use; it does, unless a stopProducers that found nothing pending is
// still on its way when the consumer comes.

module StreamCalm {
  import opened Bytes
  import opened Lifecycle
  import opened Stream
  import opened StreamLinks
  import opened StreamRuns
  import Node

  // A stopProducers has found nothing pending and is not done.
  predicate SweepOpen(s: State) {
    s.waiting > 0 || s.lock.Some?
  }

  // Tracks are taken from the connection in use, and tracks are taken and given
  // while no stopProducers is on its way; a reconnect gives a new track for
  // every receiver with a child, listens again to every track that the old
  // connection listened to, does not happen while a consumer holds a track of
  // the producer that it has not added, and no stopProducers looks at the
  // producer while its tracks are moved.
  predicate IsCalm(s: State, step: Stream.Step)
    requires Enabled(s, step)
  {
    match step
    case TakeTrack(_, i, t) => !SweepOpen(s) && (t in s.tracks ==> Open(s, i, t))
    case AddToProducer(_, _, _) => !SweepOpen(s)
    case Swap(i, _, _, list, heard) =>
      && (forall k :: 0 <= k < |list| && s.tracks[s.producers[i].receivers[k]].childs != [] ==> list[k] !in s.tracks)
      && (forall t :: t in s.producers[i].senders && t in s.tracks && Prod(i) in s.tracks[t].childs ==> t in heard)
      && (forall c :: c in s.calls && s.calls[c].Matching? && s.calls[c].held.Took? ==> s.calls[c].held.i != i)
    case Glimpse(_) => false
    case _ => true
  }

  ghost predicate CalmRun(urls: nat, steps: seq<Stream.Step>)
    requires Stream.Run(urls, steps).Some?
  {
    forall k :: 0 <= k < |steps| ==> IsCalm(Before(urls, steps, k), steps[k])
  }

  // A track that a call holds can still be added.
  ghost predicate HeldIsGood(s: State) {
    forall c :: Busy(s, c) && s.calls[c].held.Took? ==> Usable(s, s.calls[c].held.i, s.calls[c].held.t)
  }

  predicate Usable(s: State, i: nat, t: nat) {
    !SweepOpen(s) && i in s.producers && t in s.tracks && Open(s, i, t)
  }

  ghost predicate AllLinked(s: State) {
    forall c, i :: Live(s, c) && Recorded(s, c, i) ==> Linked(s, c, i)
  }

  // The producer that is about to be stopped has nobody.
  ghost predicate DoomedIsAlone(s: State) {
    s.lock.Some? && s.lock.value.doomed.Some? && s.lock.value.doomed.value in s.producers ==> Alone(s, s.lock.value.doomed.value)
  }

  ghost predicate Alone(s: State, i: nat)
    requires i in s.producers
  {
    && (forall t, o :: t in s.producers[i].receivers && t in s.tracks ==> o !in s.tracks[t].childs)
    && (forall c :: Live(s, c) ==> !Linked(s, c, i))
  }

  // The connection listens to the tracks of the consumers that are there.
  ghost predicate Listening(s: State) {
    forall i, t :: i in s.producers && t in s.producers[i].senders ==> Listens(s, i, t)
  }

  predicate Listens(s: State, i: nat, t: nat) {
    t in s.tracks && s.tracks[t].owner.Cons? && Live(s, s.tracks[t].owner.c) ==> Prod(i) in s.tracks[t].childs
  }

  ghost predicate Safe(s: State) {
    HeldIsGood(s) && AllLinked(s) && DoomedIsAlone(s) && Listening(s)
  }

  // ---- Tracks that are held ---------------------------------------------------------------

  lemma SweepStaysShut(s: State, step: Stream.Step)
    requires Good(s) && Enabled(s, step) && !SweepOpen(s) && (!step.Check? || s.pending > 0)
    ensures !SweepOpen(Apply(s, step))
  {
    hide Good, Apply, Enabled;
    if IsOfSweep(step) {
      ShutSweep(s, step);
    } else {
      SameSweep(s, step);
    }
  }

  lemma ShutSweep(s: State, step: Stream.Step)
    requires IsOfSweep(step) && Enabled(s, step) && !SweepOpen(s) && (!step.Check? || s.pending > 0)
    ensures !SweepOpen(Apply(s, step))
  {
    hide HasChild;
  }

  lemma BusyIsPending(s: State, c: nat)
    requires Good(s) && Busy(s, c)
    ensures s.pending > 0
  {
    hide Known, Heard, Owned, Named, Locked;
    assert c in Pending(s);
  }

  // The connection of a producer stays, until it is stopped or reconnects.
  lemma ConnStays(s: State, step: Stream.Step, i: nat)
    requires Good(s) && Enabled(s, step) && i in s.producers && s.producers[i].life.conn.Some?
    requires !step.StopNow? && (step.Swap? ==> step.i != i)
    ensures i in Apply(s, step).producers && Apply(s, step).producers[i].life.conn == s.producers[i].life.conn
  {
    hide Good, Apply, Plain;
    assert Known(s) by { GoodGraph(s); }
    KnownLife(s, i);
    if step.Swap? {
      SwapApplies(s, step);
      SwappedIs(s, step.i, step.act, step.conn, step.list, step.heard);
    } else {
      var own := LifeAfter(s, step, i);
      if own.Some? {
        PlainConn(s.producers[i], own.value);
      }
    }
  }

  lemma StaysUsable(s: State, step: Stream.Step, i: nat, t: nat)
    requires Good(s) && Enabled(s, step) && Usable(s, i, t) && (!step.Check? || s.pending > 0) && (step.Swap? ==> step.i != i)
    ensures Usable(Apply(s, step), i, t)
  {
    hide Good, Apply;
    OwnersStay(s, step);
    SweepStaysShut(s, step);
    assert !step.StopNow?;
    ConnStays(s, step, i);
  }

  // What a call holds after a step: what it held, or the track just taken.
  lemma HeldAfter(s: State, step: Stream.Step, c: nat)
    requires Enabled(s, step) && Busy(Apply(s, step), c) && Apply(s, step).calls[c].held.Took?
    ensures step == TakeTrack(c, Apply(s, step).calls[c].held.i, Apply(s, step).calls[c].held.t)
            || (Busy(s, c) && s.calls[c].held == Apply(s, step).calls[c].held)
  {
    hide Apply, Enabled;
    if IsOfProducer(step) || IsOfSweep(step) {
      SameCalls(s, step);
    } else if step.Remove? {
      HeldOnLeave(s, step.c);
    } else {
      HeldGoesOn(s, step, c);
    }
  }

  lemma HeldOnLeave(s: State, d: nat)
    requires Enabled(s, Remove(d))
    ensures Apply(s, Remove(d)).calls == s.calls
  {
    hide CloseAll;
  }

  lemma HeldGoesOn(s: State, step: Stream.Step, c: nat)
    requires Enabled(s, step) && !IsOfProducer(step) && !IsOfSweep(step) && !step.Remove?
    requires Busy(Apply(s, step), c) && Apply(s, step).calls[c].held.Took?
    ensures step == TakeTrack(c, Apply(s, step).calls[c].held.i, Apply(s, step).calls[c].held.t)
            || (Busy(s, c) && s.calls[c].held == Apply(s, step).calls[c].held)
  {
    hide After, ConnOf;
  }

  lemma TakenIsUsable(s: State, c: nat, i: nat, t: nat)
    requires Good(s) && Enabled(s, TakeTrack(c, i, t)) && IsCalm(s, TakeTrack(c, i, t))
    ensures Usable(Apply(s, TakeTrack(c, i, t)), i, t)
  {
    hide Good;
    assert Known(s) by { GoodGraph(s); }
    KnownLife(s, i);
    OwnsConn(s.producers[i]);
    if t in s.tracks {
      assert Usable(s, i, t);
      StaysUsable(s, TakeTrack(c, i, t), i, t);
    } else {
      SweepStaysShut(s, TakeTrack(c, i, t));
      ConnStays(s, TakeTrack(c, i, t), i);
      TakenTrack(s, c, i, t);
    }
  }

  lemma TakenTrack(s: State, c: nat, i: nat, t: nat)
    requires Known(s) && Enabled(s, TakeTrack(c, i, t)) && t !in s.tracks
    ensures var r := Apply(s, TakeTrack(c, i, t));
            t in r.tracks && r.tracks[t] == Track(Prod(i), ConnOf(r.producers[i]), []) && ConnOf(r.producers[i]) == ConnOf(s.producers[i])
  {
    SenderTrack(s, i, t);
    PlainConn(s.producers[i], Lifecycle.GetTrack(false, true)) by { KnownLife(s, i); }
    KnownLife(s, i);
    OwnsConn(s.producers[i]);
    hide Known, After;
  }

  lemma HeldStep(s: State, step: Stream.Step)
    requires Good(s) && HeldIsGood(s) && Enabled(s, step) && IsCalm(s, step)
    ensures HeldIsGood(Apply(s, step))
  {
    hide Good, Apply, Enabled, Usable;
    var r := Apply(s, step);
    forall c | Busy(r, c) && r.calls[c].held.Took? ensures Usable(r, r.calls[c].held.i, r.calls[c].held.t) {
      HeldAfter(s, step, c);
      var held := r.calls[c].held;
      if step == TakeTrack(c, held.i, held.t) {
        TakenIsUsable(s, c, held.i, held.t);
      } else {
        BusyIsPending(s, c);
        StaysUsable(s, step, held.i, held.t);
      }
    }
  }

  // ---- Tracks of consumers ------------------------------------------------------------------

  lemma ListenStep(s: State, step: Stream.Step, i: nat, t: nat)
    requires Good(s) && Listening(s) && Enabled(s, step) && IsCalm(s, step)
    requires var r := Apply(s, step); i in r.producers && t in r.producers[i].senders
    ensures Listens(Apply(s, step), i, t)
  {
    hide Good, Apply, Enabled, IsCalm;
    assert Graph(s) by { GoodGraph(s); }
    SendersAfter(s, step, i, t);
    OwnersStay(s, step);
    var r := Apply(s, step);
    if t in r.tracks && r.tracks[t].owner.Cons? && Live(r, r.tracks[t].owner.c) && !(step.AddToProducer? && step.i == i && step.t == t) {
      SenderTrack(s, i, t);
      var c := s.tracks[t].owner.c;
      KeepsRecords(s, step);
      assert !Unseen(s, c);
      if step == Remove(c) { RemoveEnds(s, c); }
      assert Listens(s, i, t);
      ChildStays(s, step, i, t);
    }
  }

  lemma RemoveEnds(s: State, c: nat)
    requires Good(s) && Enabled(s, Remove(c))
    ensures !Live(Apply(s, Remove(c)), c)
  {
    hide Left, Good;
    Apart(s, c);
    LeftIs(s, c);
  }

  // A producer knows a track of a consumer that it knew before, or that was
  // just given to it.
  lemma SendersAfter(s: State, step: Stream.Step, i: nat, t: nat)
    requires Known(s) && Enabled(s, step)
    requires var r := Apply(s, step); i in r.producers && t in r.producers[i].senders
    ensures if step.AddToProducer? && step.i == i && step.t == t then t in Apply(s, step).tracks && Prod(i) in Apply(s, step).tracks[t].childs
            else i in s.producers && t in s.producers[i].senders
  {
    hide Known, Apply, Enabled;
    match step
    case AddToConsumer(_, _, _) => SendersOnAdd(s, step, i, t);
    case AddToProducer(_, _, _) => SendersOnAdd(s, step, i, t);
    case Remove(d) => OwnersOnLeave(s, d);
    case StopNow => SendersOnStop(s, i, t);
    case Swap(_, _, _, _, _) => SendersOnSwap(s, step, i, t);
    case _ => MildProducer(s, step, i, t);
  }

  lemma SendersOnAdd(s: State, step: Stream.Step, i: nat, t: nat)
    requires (step.AddToConsumer? || step.AddToProducer?) && Enabled(s, step)
    requires var r := Apply(s, step); i in r.producers && t in r.producers[i].senders
    ensures if step.AddToProducer? && step.i == i && step.t == t then t in Apply(s, step).tracks && Prod(i) in Apply(s, step).tracks[t].childs
            else i in s.producers && t in s.producers[i].senders
  {
    hide After;
  }

  lemma SendersOnStop(s: State, i: nat, t: nat)
    requires Known(s) && Enabled(s, StopNow)
    requires var r := Apply(s, StopNow); i in r.producers && t in r.producers[i].senders
    ensures i in s.producers && t in s.producers[i].senders
  {
    hide Known, Stopped, StopOne;
    var j := s.lock.value.doomed.value;
    StoppedIs(s, j);
    KnownLife(s, j);
    StopOneIs(s.producers[j]);
    IdleStays(s.producers[j]);
  }

  lemma SendersOnSwap(s: State, step: Stream.Step, i: nat, t: nat)
    requires step.Swap? && Enabled(s, step)
    requires var r := Apply(s, step); i in r.producers && t in r.producers[i].senders
    ensures i in s.producers && t in s.producers[i].senders
  {
    hide Swapped, CanSwap;
    SwapApplies(s, step);
    SwappedIs(s, step.i, step.act, step.conn, step.list, step.heard);
  }

  // The child of a producer on a track of another stays while the producer
  // knows the track and the consumer is there.
  lemma ChildStays(s: State, step: Stream.Step, i: nat, t: nat)
    requires Graph(s) && Enabled(s, step) && IsCalm(s, step) && i in s.producers && t in s.producers[i].senders
    requires t in s.tracks && s.tracks[t].owner.Cons? && Prod(i) in s.tracks[t].childs && step != Remove(s.tracks[t].owner.c)
    requires var r := Apply(s, step); i in r.producers && t in r.producers[i].senders
    ensures t in Apply(s, step).tracks && Prod(i) in Apply(s, step).tracks[t].childs
  {
    hide Graph, Apply, Enabled, IsCalm;
    match step
    case Remove(d) => ChildOnLeave(s, d, i, t);
    case StopNow => ChildOnStop(s, i, t);
    case Swap(j, act, conn, list, heard) => ChildOnSwap(s, step, i, t);
    case AddToConsumer(c, j, u) => ChildOnAdd(s, step, i, t);
    case AddToProducer(c, j, u) => ChildOnAdd(s, step, i, t);
    case _ => MildTracks(s, step);
  }

  lemma ChildOnLeave(s: State, d: nat, i: nat, t: nat)
    requires Enabled(s, Remove(d)) && t in s.tracks && s.tracks[t].owner != Cons(d) && Prod(i) in s.tracks[t].childs
    ensures t in Apply(s, Remove(d)).tracks && Prod(i) in Apply(s, Remove(d)).tracks[t].childs
  {
    hide Left;
    LeftIs(s, d);
    LeftTracks(s, d, t);
  }

  lemma ChildOnStop(s: State, i: nat, t: nat)
    requires Graph(s) && Enabled(s, StopNow) && t in s.tracks && s.tracks[t].owner.Cons? && Prod(i) in s.tracks[t].childs
    requires var r := Apply(s, StopNow); i in s.producers && i in r.producers && t in r.producers[i].senders
    ensures t in Apply(s, StopNow).tracks && Prod(i) in Apply(s, StopNow).tracks[t].childs
  {
    hide Known, Heard, Owned, Stopped, StopOne;
    var j := s.lock.value.doomed.value;
    StoppedTracks(s, j, t);
    StoppedIs(s, j);
    KnownLife(s, j);
    StopOneIs(s.producers[j]);
    IdleStays(s.producers[j]);
  }

  lemma ChildOnSwap(s: State, step: Stream.Step, i: nat, t: nat)
    requires step.Swap? && Enabled(s, step) && IsCalm(s, step) && i in s.producers && t in s.producers[i].senders
    requires t in s.tracks && s.tracks[t].owner.Cons? && Prod(i) in s.tracks[t].childs
    ensures t in Apply(s, step).tracks && Prod(i) in Apply(s, step).tracks[t].childs
  {
    hide Swapped;
    SwappedIs(s, step.i, step.act, step.conn, step.list, step.heard);
    OldTrack(s, step.i, step.conn, step.list, step.heard, t);
  }

  lemma ChildOnAdd(s: State, step: Stream.Step, i: nat, t: nat)
    requires (step.AddToConsumer? || step.AddToProducer?) && Enabled(s, step) && t in s.tracks && Prod(i) in s.tracks[t].childs
    ensures t in Apply(s, step).tracks && Prod(i) in Apply(s, step).tracks[t].childs
  {
    hide WithChild, After;
    if step.AddToConsumer? {
      ChildIs(s, step.t, Cons(step.c));
    } else {
      var j := step.i;
      ChildIs(WithSender(WithLife(s, j, After(s.producers[j], Lifecycle.AddTrack(true))), j, step.t), step.t, Prod(j));
    }
  }

  // ---- The producer that is about to be stopped ---------------------------------------------

  lemma LookFindsNobody(s: State, i: nat)
    requires Good(s) && Enabled(s, Look(i)) && !HasChild(s, i)
    ensures Alone(s, i)
  {
    hide Good;
    assert Graph(s) by { GoodGraph(s); }
    forall c | Live(s, c) ensures !Linked(s, c, i) {
      if Linked(s, c, i) {
        LinkedIsTaken(s, c, i);
      }
    }
    forall t, o | t in s.producers[i].receivers && t in s.tracks ensures o !in s.tracks[t].childs {
      if o in s.tracks[t].childs { ChildCounts(s, i, t); }
    }
  }

  // While a stopProducers is on its way nobody new is linked.
  lemma NobodyIsLinked(s: State, step: Stream.Step, i: nat, c: nat)
    requires Good(s) && HeldIsGood(s) && Listening(s) && Enabled(s, step) && IsCalm(s, step) && SweepOpen(s)
    requires i in s.producers && Alone(s, i) && Live(Apply(s, step), c)
    ensures !Linked(Apply(s, step), c, i)
  {
    hide Good, Apply, Linked, Swaps, IsNew, Carried, HeldIsGood;
    if step.AddToConsumer? {
      NoneIsAdded(s, step.c, step.i, step.t);
    }
    StepLinks(s, step, c, i);
    if !Live(s, c) { NotLinkedYet(s, step, c, i); }
    if step.Swap? && step.i == i && Live(s, c) {
      SwapApplies(s, step);
      NothingIsCarried(s, i, step.list, step.heard, c);
    }
  }

  lemma NothingIsCarried(s: State, i: nat, list: seq<nat>, heard: seq<nat>, c: nat)
    requires Listening(s) && i in s.producers && Alone(s, i) && Live(s, c) && |list| == |s.producers[i].receivers|
    requires forall t :: t in heard ==> t in s.producers[i].senders
    ensures !Carried(s, i, list, heard, c)
  {
    hide Linked;
    if t :| t in heard && t in s.tracks && s.tracks[t].owner == Cons(c) {
      assert Listens(s, i, t);
      SenderLinks(s, c, i, t);
    }
  }

  lemma SenderLinks(s: State, c: nat, i: nat, t: nat)
    requires i in s.producers && t in s.tracks && s.tracks[t].owner == Cons(c) && Prod(i) in s.tracks[t].childs
    ensures Linked(s, c, i)
  {
    assert LinkedBy(s, c, i, t);
  }

  lemma NoneIsAdded(s: State, c: nat, i: nat, t: nat)
    requires HeldIsGood(s) && Enabled(s, AddToConsumer(c, i, t))
    ensures !SweepOpen(s)
  {
    HeldIsUsable(s, c);
  }

  lemma HeldIsUsable(s: State, c: nat)
    requires HeldIsGood(s) && Busy(s, c) && s.calls[c].held.Took?
    ensures Usable(s, s.calls[c].held.i, s.calls[c].held.t)
  {
  }

  lemma NobodyIsAdded(s: State, step: Stream.Step, i: nat, t: nat, o: Owner)
    requires Good(s) && HeldIsGood(s) && Enabled(s, step) && IsCalm(s, step) && SweepOpen(s)
    requires i in s.producers && Alone(s, i)
    requires var r := Apply(s, step); i in r.producers && t in r.producers[i].receivers && t in r.tracks
    ensures o !in Apply(s, step).tracks[t].childs
  {
    hide Good, Graph, Known, Apply, Enabled, IsCalm, HeldIsGood, Alone, Swapped, CanSwap;
    assert Graph(s) && Known(s) by { GoodGraph(s); }
    match step
    case Remove(d) => NobodyOnLeave(s, d, i, t, o);
    case StopNow => NobodyOnStop(s, i, t, o);
    case Swap(j, act, conn, list, heard) =>
      SwapApplies(s, step);
      NobodyIsCarried(s, j, act, conn, list, heard, i, t, o);
    case AddToConsumer(c, j, u) => NoneIsAdded(s, c, j, u);
    case AddToProducer(c, j, u) => assert false by { NoneIsGiven(s, c, j, u); }
    case _ => NobodyElse(s, step, i, t, o);
  }

  lemma NoneIsGiven(s: State, c: nat, i: nat, t: nat)
    requires Enabled(s, AddToProducer(c, i, t)) && IsCalm(s, AddToProducer(c, i, t))
    ensures !SweepOpen(s)
  {
  }

  lemma NobodyElse(s: State, step: Stream.Step, i: nat, t: nat, o: Owner)
    requires Known(s) && Enabled(s, step) && IsMild(step) && i in s.producers && Alone(s, i)
    requires var r := Apply(s, step); i in r.producers && t in r.producers[i].receivers && t in r.tracks
    ensures o !in Apply(s, step).tracks[t].childs
  {
    hide Known, Apply, Enabled, Linked;
    MildTracks(s, step);
    MildProducer(s, step, i, t);
  }

  lemma NobodyOnLeave(s: State, d: nat, i: nat, t: nat, o: Owner)
    requires Known(s) && Enabled(s, Remove(d)) && i in s.producers && Alone(s, i)
    requires var r := Apply(s, Remove(d)); i in r.producers && t in r.producers[i].receivers && t in r.tracks
    ensures o !in Apply(s, Remove(d)).tracks[t].childs
  {
    hide Known, Left, Linked;
    LeftIs(s, d);
    SenderTrack(s, i, t);
    LeftTracks(s, d, t);
  }

  lemma NobodyOnStop(s: State, i: nat, t: nat, o: Owner)
    requires Known(s) && Enabled(s, StopNow) && i in s.producers && Alone(s, i)
    requires var r := Apply(s, StopNow); i in r.producers && t in r.producers[i].receivers && t in r.tracks
    ensures o !in Apply(s, StopNow).tracks[t].childs
  {
    hide Known, Stopped, StopOne, Linked;
    var j := s.lock.value.doomed.value;
    StoppedIs(s, j);
    KnownLife(s, j);
    StopOneIs(s.producers[j]);
    IdleStays(s.producers[j]);
    SenderTrack(s, i, t);
    StoppedTracks(s, j, t);
  }

  lemma NobodyIsCarried(s: State, j: nat, act: nat, conn: nat, list: seq<nat>, heard: seq<nat>, i: nat, t: nat, o: Owner)
    requires Graph(s) && CanSwap(s, j, act, conn, list, heard) && i in s.producers && Alone(s, i)
    requires var r := Swapped(s, j, act, conn, list, heard); i in r.producers && t in r.producers[i].receivers && t in r.tracks
    ensures o !in Swapped(s, j, act, conn, list, heard).tracks[t].childs
  {
    hide Known, Heard, Owned, Swapped, Renewed, Linked, Live, Swaps, IsNew, After;
    SwappedIs(s, j, act, conn, list, heard);
    if t in s.tracks {
      OldTrack(s, j, conn, list, heard, t);
      SenderTrack(s, j, t);
      if i != j {
        SenderTrack(s, i, t);
      } else {
        assert list[At(list, t)] == t;
      }
    } else {
      if i == j {
        NewTrack(s, i, conn, list, heard, t);
        SenderTrack(s, i, s.producers[i].receivers[At(list, t)]);
      } else {
        SenderTrack(s, i, t);
      }
    }
  }

  // Who is about to be stopped after a step.
  lemma DoomedAfter(s: State, step: Stream.Step)
    requires Enabled(s, step) && Apply(s, step).lock.Some? && Apply(s, step).lock.value.doomed.Some?
    ensures var i := Apply(s, step).lock.value.doomed.value;
            (step == Look(i) && !HasChild(s, i)) || step == Glimpse(i) || (!step.StopNow? && s.lock.Some? && s.lock.value.doomed == Some(i))
  {
    hide After, Left, Do, Swapped, Stopped, Swaps, HasChild;
    match step
    case Remove(d) => LeftIs(s, d);
    case Swap(i, act, conn, list, heard) => SwappedIs(s, i, act, conn, list, heard);
    case _ =>
  }

  lemma AloneStep(s: State, step: Stream.Step, i: nat)
    requires Good(s) && HeldIsGood(s) && Listening(s) && Enabled(s, step) && IsCalm(s, step) && SweepOpen(s)
    requires i in s.producers && Alone(s, i)
    ensures i in Apply(s, step).producers && Alone(Apply(s, step), i)
  {
    hide Good, Apply, Enabled, IsCalm, Linked;
    var r := Apply(s, step);
    OwnersStay(s, step);
    forall c | Live(r, c) ensures !Linked(r, c, i) {
      NobodyIsLinked(s, step, i, c);
    }
    forall t, o | t in r.producers[i].receivers && t in r.tracks ensures o !in r.tracks[t].childs {
      NobodyIsAdded(s, step, i, t, o);
    }
  }

  lemma DoomedStep(s: State, step: Stream.Step)
    requires Good(s) && HeldIsGood(s) && Listening(s) && DoomedIsAlone(s) && Enabled(s, step) && IsCalm(s, step)
    ensures DoomedIsAlone(Apply(s, step))
  {
    hide Good, Apply, Alone, HeldIsGood, Listening;
    var r := Apply(s, step);
    if r.lock.Some? && r.lock.value.doomed.Some? {
      var i := r.lock.value.doomed.value;
      DoomedAfter(s, step);
      if step == Look(i) {
        LookFindsNobody(s, i);
        LookChangesNothing(s, i);
      } else {
        DoomedIsThere(s);
        AloneStep(s, step, i);
      }
    }
  }

  lemma DoomedIsThere(s: State)
    requires Good(s) && s.lock.Some? && s.lock.value.doomed.Some?
    ensures s.lock.value.doomed.value in s.producers
  {
    hide Known, Heard, Owned, Named, Counted;
  }

  lemma LookChangesNothing(s: State, i: nat)
    requires Enabled(s, Look(i)) && Alone(s, i)
    ensures i in Apply(s, Look(i)).producers && Alone(Apply(s, Look(i)), i)
  {
    hide HasChild;
    var r := Apply(s, Look(i));
    forall c | Live(r, c) ensures !Linked(r, c, i) {
      SameLinks(s, r, c, i);
    }
  }

  // ---- Everybody is linked ------------------------------------------------------------------

  lemma LinkStays(s: State, step: Stream.Step, c: nat, i: nat)
    requires Good(s) && DoomedIsAlone(s) && Enabled(s, step) && IsCalm(s, step)
    requires Live(s, c) && Live(Apply(s, step), c) && Linked(s, c, i)
    ensures Linked(Apply(s, step), c, i)
  {
    hide Good, Apply, Linked, CanSwap, Carried;
    StepLinks(s, step, c, i);
    if step == Remove(c) {
      RemoveEnds(s, c);
    }
    if step.Swap? && step.i == i {
      SwapApplies(s, step);
      GoodGraph(s);
      CalmCarries(s, step, c);
    }
  }

  lemma CalmCarries(s: State, step: Stream.Step, c: nat)
    requires Graph(s) && step.Swap? && Enabled(s, step) && IsCalm(s, step) && Linked(s, c, step.i)
    ensures Carried(s, step.i, step.list, step.heard, c)
  {
    hide Known, Heard, Owned, Swaps, IsNew;
    var i := step.i;
    var t :| LinkedBy(s, c, i, t);
    if s.tracks[t].owner == Prod(i) {
      TrackOfConn(s, i, t);
      var k :| 0 <= k < |s.producers[i].receivers| && s.producers[i].receivers[k] == t;
      assert step.list[k] !in s.tracks;
    } else {
      HeardSender(s, i, t);
    }
  }

  // What is recorded now was recorded before, or is made now.
  lemma RecordedAfter(s: State, step: Stream.Step, c: nat, i: nat)
    requires Good(s) && Enabled(s, step) && Recorded(Apply(s, step), c, i)
    ensures (Live(s, c) && Recorded(s, c, i)) || (step.AddToConsumer? && step.c == c && step.i == i) || (step.AddToProducer? && step.c == c && step.i == i)
  {
    hide Known, Heard, Owned, Named, Locked, Counted, After, HasChild, Do, Swaps, StopOne, CloseAll, Renewed;
  }

  lemma LinkedStep(s: State, step: Stream.Step)
    requires Good(s) && Safe(s) && Enabled(s, step) && IsCalm(s, step)
    ensures AllLinked(Apply(s, step))
  {
    hide Good, Apply, Linked, IsCalm, DoomedIsAlone, Listening, Recorded;
    var r := Apply(s, step);
    forall c, i | Live(r, c) && Recorded(r, c, i) ensures Linked(r, c, i) {
      RecordedAfter(s, step, c, i);
      if Live(s, c) && Recorded(s, c, i) {
        LinkStays(s, step, c, i);
      } else {
        StepLinks(s, step, c, i);
        if step.AddToConsumer? {
          HeldIsUsable(s, c);
        }
      }
    }
  }

  lemma SafeStep(s: State, step: Stream.Step)
    requires Good(s) && Safe(s) && Enabled(s, step) && IsCalm(s, step)
    ensures Safe(Apply(s, step))
  {
    hide Good, Apply, Enabled, IsCalm, HeldIsGood, AllLinked, DoomedIsAlone, Listens;
    HeldStep(s, step);
    LinkedStep(s, step);
    DoomedStep(s, step);
    var r := Apply(s, step);
    forall i, t | i in r.producers && t in r.producers[i].senders ensures Listens(r, i, t) {
      ListenStep(s, step, i, t);
    }
  }

  // ---- Calm runs -----------------------------------------------------------------------------

  lemma CalmPrefix(urls: nat, steps: seq<Stream.Step>)
    requires Stream.Run(urls, steps).Some? && CalmRun(urls, steps) && steps != []
    ensures var rest := steps[..|steps| - 1]; Stream.Run(urls, rest).Some? && CalmRun(urls, rest)
  {
    hide IsCalm, Enabled, Apply;
    var rest := steps[..|steps| - 1];
    forall k | 0 <= k < |rest| ensures IsCalm(Before(urls, rest, k), rest[k]) {
      PrefixRun(urls, steps, k);
      assert IsCalm(Before(urls, steps, k), steps[k]);
    }
  }

  lemma NewIsSafe(urls: nat, steps: seq<Stream.Step>)
    requires steps == []
    ensures Stream.Run(urls, steps) == Some(NewStream(urls)) && Safe(NewStream(urls))
  {
  }

  lemma {:induction false} CalmRunsAreSafe(urls: nat, steps: seq<Stream.Step>)
    requires Stream.Run(urls, steps).Some? && CalmRun(urls, steps)
    ensures Safe(Stream.Run(urls, steps).value)
  {
    hide Good, Apply, Enabled, Safe, IsCalm;
    if steps == [] {
      NewIsSafe(urls, steps);
    } else {
      var rest, n := steps[..|steps| - 1], |steps| - 1;
      CalmPrefix(urls, steps);
      CalmRunsAreSafe(urls, rest);
      EveryRunIsGood(urls, rest);
      assert IsCalm(Before(urls, steps, n), steps[n]);
      SafeStep(Before(urls, steps, n), steps[n]);
    }
  }

  // In every calm run each consumer that was added and not removed is linked to
  // every producer it matched by a track, and to no other, and these are up.
  lemma CalmRunsServe(urls: nat, steps: seq<Stream.Step>, c: nat, i: nat)
    requires Stream.Run(urls, steps).Some? && CalmRun(urls, steps)
    requires var s := Stream.Run(urls, steps).value; c in s.consumers && i in s.producers
    ensures var s := Stream.Run(urls, steps).value;
            && (i in s.consumers[c] <==> Linked(s, c, i))
            && (i in s.consumers[c] ==> HasChild(s, i) && Running(s.producers[i]))
  {
    hide Stream.Run, CalmRun, Linked, HasChild, Running, MadeAndKept, DoomedIsAlone, HeldIsGood, Listening;
    CalmRunsAreSafe(urls, steps);
    ConsumersAreServed(urls, steps, c, i);
    LinkedExactly(urls, steps, c, i);
  }
}
