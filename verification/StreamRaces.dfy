// internal/streams: whether a track that a consumer has taken is safe from
// stopProducers.

module StreamRaces {
  import opened Bytes
  import opened Lifecycle
  import opened Stream
  import opened StreamLinks
  import opened StreamRuns
  import opened StreamCalm
  import Node

  // The consumer does not leave or come again and takes tracks of the
  // connection in use; the producer does not reconnect while its track is held,
  // nor without the link; and no stopProducers looks at it while a reconnect
  // moves its tracks.
  predicate Gentle(s: State, step: Stream.Step, c: nat, i: nat)
    requires Enabled(s, step)
  {
    && step != Remove(c) && step != Begin(c) && step != Glimpse(i)
    && (step.TakeTrack? && step.i == i && step.t in s.tracks ==> Open(s, i, step.t))
    && (step.Swap? && step.i == i ==>
          && !(Busy(s, c) && s.calls[c].held.Took? && s.calls[c].held.i == i)
          && (Recorded(s, c, i) ==> Carried(s, i, step.list, step.heard, c)))
  }

  predicate GentlePath(s: State, steps: seq<Stream.Step>, c: nat, i: nat)
    decreases |steps|
  {
    steps == [] || (Enabled(s, steps[0]) && Gentle(s, steps[0], c, i) && GentlePath(Apply(s, steps[0]), steps[1..], c, i))
  }

  // If the consumer has matched the producer by a track, it is linked to it,
  // and when AddConsumer has returned the producer is up.
  ghost predicate Serves(s: State, c: nat, i: nat) {
    Recorded(s, c, i) ==> Linked(s, c, i) && i in s.producers && (c in s.consumers ==> Running(s.producers[i]))
  }

  // ---- Safe -----------------------------------------------------------------------------------

  // A stopProducers that found nothing pending has yet to look at the producer,
  // or has it in hand.
  predicate Reaches(s: State, i: nat) {
    s.waiting > 0 || (s.lock.Some? && i in s.lock.value.todo)
  }

  predicate IsDoomed(s: State, i: nat) {
    s.lock.Some? && s.lock.value.doomed == Some(i)
  }

  lemma DoomedIsReached(s: State, i: nat)
    requires Good(s) && IsDoomed(s, i)
    ensures Reaches(s, i)
  {
    hide Known, Heard, Owned, Named, Counted;
  }

  // A track of the connection in use.
  predicate InUse(s: State, i: nat, t: nat) {
    i in s.producers && t in s.tracks && Open(s, i, t)
  }

  // What the call holds of the producer is in use and out of reach, or it is
  // linked to a producer that nobody is about to stop, or it has nothing of it.
  ghost predicate Guarded(s: State, c: nat, i: nat) {
    && (Recorded(s, c, i) ==> Live(s, c) && Linked(s, c, i) && !IsDoomed(s, i))
    && (Busy(s, c) ==> !Reaches(s, i))
    && (Busy(s, c) && s.calls[c].held.Took? && s.calls[c].held.i == i ==> InUse(s, i, s.calls[c].held.t))
  }

  lemma StaysOutOfReach(s: State, step: Stream.Step, i: nat)
    requires Good(s) && Enabled(s, step) && !Reaches(s, i) && s.pending > 0
    ensures !Reaches(Apply(s, step), i)
  {
    hide Good, Apply, Enabled;
    if IsOfSweep(step) {
      SweepOutOfReach(s, step, i);
    } else {
      SameSweep(s, step);
    }
  }

  lemma SweepOutOfReach(s: State, step: Stream.Step, i: nat)
    requires IsOfSweep(step) && Enabled(s, step) && !Reaches(s, i) && s.pending > 0
    ensures !Reaches(Apply(s, step), i)
  {
    hide HasChild, Stopped;
    if step.StopNow? {
      StoppedIs(s, s.lock.value.doomed.value);
    }
  }

  lemma StaysInUse(s: State, step: Stream.Step, i: nat, t: nat)
    requires Good(s) && Enabled(s, step) && InUse(s, i, t) && !Reaches(s, i) && (step.Swap? ==> step.i != i)
    ensures InUse(Apply(s, step), i, t)
  {
    hide Good, Apply, Reaches;
    OwnersStay(s, step);
    if step.StopNow? {
      if IsDoomed(s, i) { DoomedIsReached(s, i); }
      StopNowLife(s, i);
    } else {
      ConnStays(s, step, i);
    }
  }

  lemma TakenIsInUse(s: State, c: nat, i: nat, t: nat)
    requires Good(s) && Enabled(s, TakeTrack(c, i, t)) && (t in s.tracks ==> Open(s, i, t))
    ensures InUse(Apply(s, TakeTrack(c, i, t)), i, t)
  {
    hide Good;
    assert Known(s) by { GoodGraph(s); }
    KnownLife(s, i);
    OwnsConn(s.producers[i]);
    ConnStays(s, TakeTrack(c, i, t), i);
    if t in s.tracks {
      OwnersStay(s, TakeTrack(c, i, t));
    } else {
      TakenTrack(s, c, i, t);
    }
  }

  lemma StillBusy(s: State, step: Stream.Step, c: nat)
    requires Enabled(s, step) && Busy(Apply(s, step), c) && step != Begin(c)
    ensures Busy(s, c)
  {
    hide Apply, Enabled;
    if IsOfProducer(step) || IsOfSweep(step) {
      SameCalls(s, step);
    } else if step.Remove? {
      HeldOnLeave(s, step.c);
    } else {
      BusyGoesOn(s, step, c);
    }
  }

  lemma BusyGoesOn(s: State, step: Stream.Step, c: nat)
    requires Enabled(s, step) && !IsOfProducer(step) && !IsOfSweep(step) && !step.Remove? && step != Begin(c) && Busy(Apply(s, step), c)
    ensures Busy(s, c)
  {
    hide After, ConnOf;
  }

  // What is recorded after the step is linked, and nobody is about to stop the
  // producer.
  lemma GuardedLink(s: State, step: Stream.Step, c: nat, i: nat)
    requires Good(s) && Guarded(s, c, i) && Enabled(s, step) && Gentle(s, step, c, i) && Recorded(Apply(s, step), c, i)
    ensures Live(Apply(s, step), c) && Linked(Apply(s, step), c, i) && !IsDoomed(Apply(s, step), i)
  {
    hide Good, Apply, Linked, Carried, Swaps, IsNew, HasChild;
    var r := Apply(s, step);
    RecordedAfter(s, step, c, i);
    StepLinks(s, step, c, i);
    if r.lock.Some? && r.lock.value.doomed.Some? {
      DoomedAfter(s, step);
      if s.lock.Some? && s.lock.value.doomed == Some(i) {
        DoomedIsReached(s, i);
      }
      if step == Look(i) && Recorded(s, c, i) {
        GoodGraph(s);
        LinkedIsTaken(s, c, i);
      }
    }
  }

  lemma GuardedStep(s: State, step: Stream.Step, c: nat, i: nat)
    requires Good(s) && Guarded(s, c, i) && Enabled(s, step) && Gentle(s, step, c, i)
    ensures Guarded(Apply(s, step), c, i)
  {
    hide Good, Apply, Linked, Recorded, Carried, InUse, CanSwap, Reaches;
    var r := Apply(s, step);
    if Recorded(r, c, i) {
      GuardedLink(s, step, c, i);
    }
    if Busy(r, c) {
      StillBusy(s, step, c);
      BusyIsPending(s, c);
      StaysOutOfReach(s, step, i);
      if r.calls[c].held.Took? && r.calls[c].held.i == i {
        HeldAfter(s, step, c);
        if step == TakeTrack(c, i, r.calls[c].held.t) {
          TakenIsInUse(s, c, i, step.t);
        } else {
          StaysInUse(s, step, i, r.calls[c].held.t);
        }
      }
    }
  }

  lemma GuardedServes(s: State, c: nat, i: nat)
    requires Good(s) && Up(s) && Guarded(s, c, i)
    ensures Serves(s, c, i)
  {
    hide Good, Up, Linked, Running;
    if Recorded(s, c, i) {
      LinkedKnown(s, c, i);
      if c in s.consumers {
        UpAt(s, c, i);
      }
    }
  }

  lemma {:induction false} GuardedPath(s: State, steps: seq<Stream.Step>, c: nat, i: nat)
    requires Good(s) && Exact(s) && Up(s) && Guarded(s, c, i) && GentlePath(s, steps, c, i)
    ensures Path(s, steps).Some? && Serves(Path(s, steps).value, c, i)
    decreases |steps|
  {
    hide Good, Exact, Up, Apply, Enabled, Gentle, Guarded, Serves;
    if steps == [] {
      GuardedServes(s, c, i);
    } else {
      EveryStepKeeps(s, steps[0]);
      StepExact(s, steps[0]);
      StepUp(s, steps[0]);
      GuardedStep(s, steps[0], c, i);
      GuardedPath(Apply(s, steps[0]), steps[1..], c, i);
    }
  }

  // ---- Not safe ---------------------------------------------------------------------------------

  // The call holds the track of a producer that nobody listens to and that can
  // be stopped.
  ghost predicate Exposed(s: State, c: nat, i: nat, t: nat) {
    && Good(s) && Busy(s, c) && s.calls[c].held == Took(i, t)
    && i in s.listed && i in s.producers && s.producers[i].life.phase != External && !HasChild(s, i)
  }

  // Steps of stopProducers and of the reconnects that leave the tracks alone.
  predicate IsSilent(step: Stream.Step) {
    step.Lock? || step.Look? || step.Unlock? || step.Settle?
  }

  lemma SilentExposes(s: State, step: Stream.Step, c: nat, i: nat, t: nat)
    requires Exposed(s, c, i, t) && Enabled(s, step) && IsSilent(step)
    ensures Exposed(Apply(s, step), c, i, t) && Gentle(s, step, c, i)
  {
    hide Good, HasChild;
    EveryStepKeeps(s, step);
    SameChildren(s, Apply(s, step), i);
  }

  lemma OtherStopExposes(s: State, c: nat, i: nat, t: nat)
    requires Enabled(s, StopNow) && s.lock.value.doomed != Some(i)
    requires Exposed(s, c, i, t)
    ensures Exposed(Apply(s, StopNow), c, i, t) && Gentle(s, StopNow, c, i)
  {
    hide Good, HasChild, Stopped, StopOne;
    EveryStepKeeps(s, StopNow);
    var j := s.lock.value.doomed.value;
    StoppedIs(s, j);
    forall u | u in s.tracks ensures s.tracks[u].childs == [] ==> Apply(s, StopNow).tracks[u].childs == [] {
      StoppedTracks(s, j, u);
      NobodyIn(s.tracks[u].childs, Apply(s, StopNow).tracks[u].childs);
    }
    StillNobody(s, Apply(s, StopNow), i);
  }

  lemma NobodyIn(a: seq<Owner>, b: seq<Owner>)
    requires forall o :: o in b ==> o in a
    ensures a == [] ==> b == []
  {
    if b != [] {
      assert b[0] in b;
    }
  }

  lemma StillNobody(s: State, r: State, i: nat)
    requires i in s.producers && i in r.producers && r.producers[i] == s.producers[i] && r.tracks.Keys == s.tracks.Keys && !HasChild(s, i)
    requires forall u :: u in s.tracks && s.tracks[u].childs == [] ==> r.tracks[u].childs == []
    ensures !HasChild(r, i)
  {
    forall u | u in r.producers[i].receivers + r.producers[i].senders && u in r.tracks ensures r.tracks[u].childs == [] {
      assert u in s.producers[i].receivers + s.producers[i].senders;
    }
  }

  lemma StopNowIdles(s: State, i: nat)
    requires Good(s) && Enabled(s, StopNow) && s.lock.value.doomed == Some(i) && s.producers[i].life.phase != External
    ensures var r := Apply(s, StopNow);
            && i in r.producers && r.producers[i].life.phase == Idle && r.producers[i].life.conn == None
            && r.calls == s.calls && r.tracks.Keys == s.tracks.Keys && forall c :: Live(r, c) ==> !Linked(r, c, i)
  {
    hide Good, Linked, Stopped, StopOne;
    assert Graph(s) by { GoodGraph(s); }
    KnownLife(s, i);
    StopOneIs(s.producers[i]);
    IdleStays(s.producers[i]);
    StoppedIs(s, i);
    forall c | Live(Apply(s, StopNow), c) ensures !Linked(Apply(s, StopNow), c, i) {
      StepLinks(s, StopNow, c, i);
    }
  }

  // Adding a track of a connection that is gone makes no link.
  lemma LateLink(s: State, c: nat, i: nat, t: nat)
    requires Good(s) && Enabled(s, AddToConsumer(c, i, t)) && i in s.producers && s.producers[i].life.conn == None && !Linked(s, c, i)
    ensures var r := Apply(s, AddToConsumer(c, i, t));
            r.producers == s.producers && c in r.calls && i in r.calls[c].starts && !Linked(r, c, i)
  {
    hide Good, Linked;
    StepLinks(s, AddToConsumer(c, i, t), c, i);
  }

  lemma HeldIsThere(s: State, c: nat)
    requires Good(s) && Busy(s, c)
    ensures HeldIs(s, c, s.calls[c].held)
  {
    hide Known, Heard, Owned, Locked, Counted;
  }

  lemma Along(s: State, step: Stream.Step, rest: seq<Stream.Step>, c: nat, i: nat)
    requires Enabled(s, step) && Gentle(s, step, c, i)
    ensures Path(s, [step] + rest) == Path(Apply(s, step), rest)
    ensures GentlePath(s, [step] + rest, c, i) == GentlePath(Apply(s, step), rest, c, i)
  {
    hide Enabled, Apply, Gentle;
    assert ([step] + rest)[1..] == rest;
  }

  lemma NotServed(s: State, c: nat, i: nat)
    requires c in s.calls && i in s.calls[c].starts && !Linked(s, c, i)
    ensures !Serves(s, c, i)
  {
    hide Linked;
  }

  // These steps bring the consumer to match the producer by a track and be
  // without it.
  ghost predicate Fails(s: State, steps: seq<Stream.Step>, c: nat, i: nat) {
    GentlePath(s, steps, c, i) && Path(s, steps).Some? && !Serves(Path(s, steps).value, c, i)
  }

  lemma FailsAlong(s: State, step: Stream.Step, rest: seq<Stream.Step>, c: nat, i: nat)
    requires Enabled(s, step) && Gentle(s, step, c, i) && Fails(Apply(s, step), rest, c, i)
    ensures Fails(s, [step] + rest, c, i)
  {
    hide Enabled, Apply, Gentle, Serves;
    Along(s, step, rest, c, i);
  }

  // The producer is stopped, and then the track is added.
  lemma StopThenAdd(s: State, c: nat, i: nat, t: nat)
    requires Enabled(s, StopNow) && s.lock.value.doomed == Some(i)
    requires Exposed(s, c, i, t)
    ensures Fails(s, [StopNow] + ([AddToConsumer(c, i, t)] + []), c, i)
  {
    hide Good, Linked, HasChild, Stopped, Serves;
    HeldIsThere(s, c);
    StopNowIdles(s, i);
    EveryStepKeeps(s, StopNow);
    var r := Apply(s, StopNow);
    assert Gentle(s, StopNow, c, i);
    hide Apply;
    LateLink(r, c, i, t);
    EveryStepKeeps(r, AddToConsumer(c, i, t));
    NotServed(Apply(r, AddToConsumer(c, i, t)), c, i);
    FailsAlong(r, AddToConsumer(c, i, t), [], c, i);
    FailsAlong(s, StopNow, [AddToConsumer(c, i, t)] + [], c, i);
  }

  function Rank(s: State, i: nat): nat {
    if s.lock == None then 1 else if i in s.lock.value.todo then 0 else 2
  }

  function Left3(s: State): (nat, nat) {
    if s.lock == None then (0, 0) else (|s.lock.value.todo|, if s.lock.value.doomed == None then 1 else 0)
  }

  lemma Smaller(a: set<nat>, i: nat)
    requires i in a
    ensures |a - {i}| < |a|
  {
  }

  lemma DoomedTodo(s: State)
    requires Good(s) && s.lock.Some?
    ensures s.lock.value.todo <= s.producers.Keys
    ensures s.lock.value.doomed.Some? ==> s.lock.value.doomed.value in s.lock.value.todo && s.lock.value.doomed.value in s.producers
  {
    hide Known, Heard, Owned, Named, Counted;
  }

  // The work of the stopProducers that is on its way gets less.
  predicate Less(r: State, s: State, i: nat) {
    || Rank(r, i) < Rank(s, i)
    || (Rank(r, i) == Rank(s, i) && (Left3(r).0 < Left3(s).0 || (Left3(r).0 == Left3(s).0 &&
         (Left3(r).1 < Left3(s).1 || (Left3(r).1 == Left3(s).1 && |r.moving| < |s.moving|)))))
  }

  ghost predicate Leads(s: State, step: Stream.Step, c: nat, i: nat, t: nat) {
    && Enabled(s, step) && Gentle(s, step, c, i) && Exposed(Apply(s, step), c, i, t) && Reaches(Apply(s, step), i)
    && Less(Apply(s, step), s, i)
  }

  lemma LockLeads(s: State, c: nat, i: nat, t: nat)
    requires Exposed(s, c, i, t) && s.lock == None && s.waiting > 0
    ensures Leads(s, Lock, c, i, t)
  {
    hide Good, HasChild, Gentle;
    SilentExposes(s, Lock, c, i, t);
  }

  lemma SettleLeads(s: State, c: nat, i: nat, t: nat, j: nat)
    requires Exposed(s, c, i, t) && Reaches(s, i) && s.lock.Some? && j in s.moving
    ensures Leads(s, Settle(j), c, i, t)
  {
    hide Good, HasChild, Gentle;
    SilentExposes(s, Settle(j), c, i, t);
    Smaller(s.moving, j);
  }

  lemma StopLeads(s: State, c: nat, i: nat, t: nat)
    requires Enabled(s, StopNow) && s.lock.value.doomed != Some(i)
    requires Exposed(s, c, i, t) && Reaches(s, i)
    ensures Leads(s, StopNow, c, i, t)
  {
    hide HasChild, Stopped, Exposed, Gentle;
    OtherStopExposes(s, c, i, t);
    StoppedIs(s, s.lock.value.doomed.value);
    assert s.lock.value.doomed.value in s.lock.value.todo by { ExposedTodo(s, c, i, t); }
    Smaller(s.lock.value.todo, s.lock.value.doomed.value);
  }

  lemma ExposedTodo(s: State, c: nat, i: nat, t: nat)
    requires Exposed(s, c, i, t) && s.lock.Some?
    ensures s.lock.value.todo <= s.producers.Keys
    ensures s.lock.value.doomed.Some? ==> s.lock.value.doomed.value in s.lock.value.todo && s.lock.value.doomed.value in s.producers
  {
    hide Good;
    DoomedTodo(s);
  }

  lemma LookLeads(s: State, c: nat, i: nat, t: nat, j: nat)
    requires Enabled(s, Look(j)) && (j == i || i !in s.lock.value.todo)
    requires Exposed(s, c, i, t) && Reaches(s, i)
    ensures Leads(s, Look(j), c, i, t)
  {
    hide HasChild, Gentle, Good;
    SilentExposes(s, Look(j), c, i, t);
    Smaller(s.lock.value.todo, j);
  }

  lemma UnlockLeads(s: State, c: nat, i: nat, t: nat)
    requires Exposed(s, c, i, t) && Reaches(s, i) && s.lock == Some(Sweep({}, None))
    ensures Leads(s, Unlock, c, i, t)
  {
    hide HasChild, Gentle, Good;
    SilentExposes(s, Unlock, c, i, t);
  }

  // What it does next.
  lemma NextOfSweep(s: State, c: nat, i: nat, t: nat) returns (step: Stream.Step)
    requires !(Enabled(s, StopNow) && s.lock.value.doomed == Some(i))
    requires Exposed(s, c, i, t) && Reaches(s, i)
    ensures Leads(s, step, c, i, t)
  {
    hide Exposed, Leads;
    if s.lock == None {
      LockLeads(s, c, i, t);
      return Lock;
    }
    ExposedTodo(s, c, i, t);
    var todo, doomed := s.lock.value.todo, s.lock.value.doomed;
    if doomed.Some? && doomed.value in s.moving {
      SettleLeads(s, c, i, t, doomed.value);
      return Settle(doomed.value);
    } else if doomed.Some? {
      StopLeads(s, c, i, t);
      return StopNow;
    } else if i in todo {
      LookLeads(s, c, i, t, i);
      return Look(i);
    } else if todo != {} {
      var j :| j in todo;
      LookLeads(s, c, i, t, j);
      return Look(j);
    } else {
      UnlockLeads(s, c, i, t);
      return Unlock;
    }
  }

  // Whenever such a stopProducers is on its way, the consumer can lose the
  // producer.
  lemma {:induction false} SweepCuts(s: State, c: nat, i: nat, t: nat) returns (steps: seq<Stream.Step>)
    requires Exposed(s, c, i, t) && Reaches(s, i)
    ensures Fails(s, steps, c, i)
    decreases Rank(s, i), Left3(s).0, Left3(s).1, |s.moving|
  {
    hide Exposed, Apply, Gentle, Fails, Reaches, Rank, Left3;
    if Enabled(s, StopNow) && s.lock.value.doomed == Some(i) {
      StopThenAdd(s, c, i, t);
      return [StopNow] + ([AddToConsumer(c, i, t)] + []);
    }
    var step := NextOfSweep(s, c, i, t);
    var rest := SweepCuts(Apply(s, step), c, i, t);
    hide Enabled;
    FailsAlong(s, step, rest, c, i);
    steps := [step] + rest;
  }

  // ---- Exactly ------------------------------------------------------------------------------------

  lemma NotRecordedYet(s: State, c: nat, i: nat)
    requires Good(s) && Busy(s, c) && i !in s.calls[c].starts
    ensures !Recorded(s, c, i)
  {
    NotBoth(s, c);
    hide Good;
  }

  // A consumer has taken a track of a producer that nobody else listens to. On
  // every gentle path it gets the producer and keeps it, if and only if no
  // stopProducers that found nothing pending has yet to deal with the producer:
  // one that waits for the mutex, or has it and this producer before it.
  lemma TakenIsKept(urls: nat, steps: seq<Stream.Step>, c: nat, i: nat, t: nat)
    requires Stream.Run(urls, steps).Some?
    requires var s := Stream.Run(urls, steps).value;
             && Busy(s, c) && s.calls[c].held == Took(i, t) && i !in s.calls[c].starts
             && i in s.listed && i in s.producers && t in s.tracks && Open(s, i, t) && s.producers[i].life.phase != External && !HasChild(s, i)
    ensures var s := Stream.Run(urls, steps).value;
            (forall more :: GentlePath(s, more, c, i) ==> Path(s, more).Some? && Serves(Path(s, more).value, c, i))
            <==> s.waiting == 0 && !(s.lock.Some? && i in s.lock.value.todo)
  {
    hide Stream.Run, Good, Exact, Up, HasChild, Gentle, Enabled, Apply, Serves;
    var s := Stream.Run(urls, steps).value;
    EveryRunIsGood(urls, steps);
    EveryRunIsExact(urls, steps);
    if Reaches(s, i) {
      var more := SweepCuts(s, c, i, t);
      assert GentlePath(s, more, c, i) && !Serves(Path(s, more).value, c, i);
    } else {
      NotRecordedYet(s, c, i);
      assert Guarded(s, c, i);
      forall more | GentlePath(s, more, c, i) ensures Path(s, more).Some? && Serves(Path(s, more).value, c, i) {
        GuardedPath(s, more, c, i);
      }
    }
  }
}
