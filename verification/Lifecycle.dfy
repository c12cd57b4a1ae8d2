// internal/streams/producer.go: the life of a producer. Callers dial, take
// tracks, start and stop it; a worker goroutine runs the connection, and when it
// returns, a chain of retry timers reconnects. Each step below is one critical
// section of the producer's mutex.

module Lifecycle {
  import opened Bytes

  datatype Phase = Idle | Medias | Tracks | Started | External | Internal

  // A goroutine in conn.Start(), or a call of reconnect that is due: at once
  // when the worker has returned, or when a timer fires.
  datatype Activity = Worker(conn: nat, id: nat) | Due(id: nat, retry: nat)

  // conn is nil or a connection; acts are the goroutines and timers by number.
  // owned and stopped are the connections it dialled or was given, and
  // those whose Stop was called.
  datatype Life = Life(phase: Phase, conn: Option<nat>, workerID: nat, acts: map<nat, Activity>, spawned: nat,
                       owned: multiset<nat>, stopped: multiset<nat>)

  // dialled is what GetProducer returns, None for an error. GetTrack and
  // AddTrack say whether the codec is known already and whether the connection
  // accepts it.
  datatype Step =
    | Dial(dialled: Option<nat>)
    | GetTrack(known: bool, accepted: bool)
    | AddTrack(accepted: bool)
    | Start
    | Returns(act: nat, failed: bool)
    | Reconnect(act: nat, dialled: Option<nat>)
    | Stop

  // Impossible: there is no such activity, or the dialled connection is not new.
  datatype Outcome = Next(life: Life) | Impossible | Panic

  function NewProducer(): Life {
    Life(Idle, None, 0, map[], 0, multiset{}, multiset{})
  }

  // AddProducer and AddInternalProducer wrap an open connection.
  function Given(phase: Phase, conn: nat): Life {
    Life(phase, Some(conn), 0, map[], 0, multiset{conn}, multiset{})
  }

  predicate IsNew(p: Life, dialled: Option<nat>) {
    dialled.Some? ==> dialled.value !in p.owned
  }

  function Do(p: Life, step: Step): Outcome {
    match step
    case Dial(dialled) =>
      if p.phase != Idle then Next(p)
      else if !IsNew(p, dialled) then Impossible
      else if dialled == None then Next(p)
      else Next(p.(phase := Medias, conn := dialled, owned := p.owned + multiset{dialled.value}))
    case GetTrack(known, accepted) =>
      if p.phase == Idle || known then Next(p) else UseConn(p, accepted)
    case AddTrack(accepted) =>
      if p.phase == Idle then Next(p) else UseConn(p, accepted)
    case Start =>
      if p.phase != Tracks then Next(p)
      else if p.conn == None then Panic
      else
        Next(p.(phase := Started, workerID := p.workerID + 1, spawned := p.spawned + 1,
                acts := p.acts[p.spawned := Worker(p.conn.value, p.workerID + 1)]))
    case Returns(act, failed) =>
      if act !in p.acts || !p.acts[act].Worker? then Impossible
      else if failed && p.workerID != p.acts[act].id then Next(p.(acts := p.acts - {act}))
      else Next(p.(acts := p.acts[act := Due(p.acts[act].id, 0)]))
    case Reconnect(act, dialled) =>
      if act !in p.acts || !p.acts[act].Due? then Impossible
      else if p.workerID != p.acts[act].id then Next(p.(acts := p.acts - {act}))
      else if !IsNew(p, dialled) then Impossible
      else if dialled == None then Next(p.(acts := p.acts[act := Due(p.workerID, p.acts[act].retry + 1)]))
      else if p.conn == None then Panic
      else
        Next(p.(conn := dialled, acts := p.acts[act := Worker(dialled.value, p.workerID)],
                owned := p.owned + multiset{dialled.value}, stopped := p.stopped + multiset{p.conn.value}))
    case Stop =>
      if p.phase == External || p.phase == Idle then Next(p)
      else
        Next(p.(phase := Idle, conn := None, workerID := if p.phase == Started then p.workerID + 1 else p.workerID,
                stopped := p.stopped + if p.conn.Some? then multiset{p.conn.value} else multiset{}))
  }

  function UseConn(p: Life, accepted: bool): Outcome {
    if p.conn == None then Panic
    else if accepted && p.phase == Medias then Next(p.(phase := Tracks)) else Next(p)
  }

  // ---- Every interleaving -----------------------------------------------------------

  // An activity is current when it carries the producer's worker number.
  predicate IsCurrent(p: Life, act: nat) {
    act in p.acts && p.acts[act].id == p.workerID
  }

  ghost predicate Invariant(p: Life) {
    && (p.conn.Some? <==> p.phase != Idle)
    && (forall a, b :: IsCurrent(p, a) && IsCurrent(p, b) ==> a == b)
    && ((exists a :: IsCurrent(p, a)) <==> p.phase == Started)
    && (forall a :: a in p.acts ==> a < p.spawned && p.acts[a].id <= p.workerID)
    && (forall a :: IsCurrent(p, a) && p.acts[a].Worker? ==> p.conn == Some(p.acts[a].conn))
    && p.owned == p.stopped + (if p.conn.Some? then multiset{p.conn.value} else multiset{})
    && forall c :: c in p.owned ==> p.owned[c] == 1
  }

  // A producer from a URL, from outside, or from play.
  predicate Initial(p: Life) {
    p == NewProducer() || (p.conn.Some? && (p == Given(External, p.conn.value) || p == Given(Internal, p.conn.value)))
  }

  function Run(from: Life, steps: seq<Step>): Outcome {
    if steps == [] then Next(from)
    else
      var before := Run(from, steps[..|steps| - 1]);
      if before.Next? then Do(before.life, steps[|steps| - 1]) else before
  }

  // When the activities of the current worker are the same, it is enough to
  // look at the connections.
  lemma SameActs(p: Life, q: Life)
    requires Invariant(p) && q.acts == p.acts && q.workerID == p.workerID && q.spawned == p.spawned
    requires (q.phase == Started <==> p.phase == Started) && (q.conn == p.conn || p.phase != Started)
    requires (q.conn.Some? <==> q.phase != Idle)
    requires q.owned == q.stopped + (if q.conn.Some? then multiset{q.conn.value} else multiset{})
    requires forall c :: c in q.owned ==> q.owned[c] == 1
    ensures Invariant(q)
  {
    assert forall a :: IsCurrent(q, a) <==> IsCurrent(p, a);
  }

  lemma StartKeeps(p: Life)
    requires Invariant(p)
    ensures Do(p, Start).Next? && Invariant(Do(p, Start).life)
  {
    var q := Do(p, Start).life;
    if p.phase == Tracks {
      assert IsCurrent(q, p.spawned);
    }
  }

  lemma StopKeeps(p: Life)
    requires Invariant(p)
    ensures Invariant(Do(p, Stop).life)
  {
    var q := Do(p, Stop).life;
    if p.phase != Started {
      SameActs(p, q);
    }
  }

  lemma ReturnKeeps(p: Life, act: nat, failed: bool)
    requires Invariant(p) && Do(p, Returns(act, failed)).Next?
    ensures Invariant(Do(p, Returns(act, failed)).life)
  {
    var q := Do(p, Returns(act, failed)).life;
    assert forall a :: a != act ==> (IsCurrent(q, a) <==> IsCurrent(p, a));
    if p.acts[act].id == p.workerID {
      assert IsCurrent(p, act) && IsCurrent(q, act);
    }
  }

  lemma ReconnectKeeps(p: Life, act: nat, dialled: Option<nat>)
    requires Invariant(p)
    ensures var r := Do(p, Reconnect(act, dialled)); !r.Panic? && (r.Next? ==> Invariant(r.life))
  {
    if act in p.acts && p.acts[act].Due? && p.acts[act].id == p.workerID {
      assert IsCurrent(p, act);
    }
    var r := Do(p, Reconnect(act, dialled));
    if r.Next? {
      var q := r.life;
      assert forall a :: a != act ==> (IsCurrent(q, a) <==> IsCurrent(p, a));
      if p.acts[act].id == p.workerID {
        assert IsCurrent(p, act) && IsCurrent(q, act);
      }
    }
  }

  lemma StepKeeps(p: Life, step: Step)
    requires Invariant(p)
    ensures !Do(p, step).Panic?
    ensures Do(p, step).Next? ==> Invariant(Do(p, step).life)
  {
    if Do(p, step).Next? {
      match step
      case Start => StartKeeps(p);
      case Stop => StopKeeps(p);
      case Returns(act, failed) => ReturnKeeps(p, act, failed);
      case Reconnect(act, dialled) => ReconnectKeeps(p, act, dialled);
      case _ => SameActs(p, Do(p, step).life);
    } else {
      match step
      case Start => StartKeeps(p);
      case Reconnect(act, dialled) => ReconnectKeeps(p, act, dialled);
      case _ =>
    }
  }

  // No interleaving dereferences a nil connection; at most one activity is
  // current, exactly one while the producer is started; every connection is
  // stopped exactly once, except the one in use.
  lemma {:induction false} EveryRun(from: Life, steps: seq<Step>)
    requires Initial(from)
    ensures !Run(from, steps).Panic?
    ensures Run(from, steps).Next? ==> Invariant(Run(from, steps).life)
  {
    if steps != [] {
      EveryRun(from, steps[..|steps| - 1]);
      var before := Run(from, steps[..|steps| - 1]);
      if before.Next? {
        StepKeeps(before.life, steps[|steps| - 1]);
      }
    }
  }

  // A worker or timer that is not current changes nothing but itself.
  lemma StaleIsHarmless(p: Life, step: Step)
    requires Invariant(p) && (step.Returns? || step.Reconnect?) && Do(p, step).Next?
    requires p.acts[step.act].id != p.workerID
    ensures Do(p, step).life.(acts := p.acts) == p
    ensures Do(p, step).life.acts - {step.act} == p.acts - {step.act}
  {
  }

  // Steps of the goroutines and timers.
  predicate OwnSteps(steps: seq<Step>) {
    forall i :: 0 <= i < |steps| ==> steps[i].Returns? || steps[i].Reconnect? || steps[i].Stop?
  }

  // After stop, whatever the old goroutines and timers do, the producer stays
  // stopped and dials nothing.
  lemma {:induction false} StopIsFinal(p: Life, steps: seq<Step>)
    requires Invariant(p) && p.phase != External && OwnSteps(steps)
    ensures var stopped := Do(p, Stop).life; var r := Run(stopped, steps);
            !r.Panic? && (r.Next? ==> Invariant(r.life) && r.life.(acts := stopped.acts) == stopped && r.life.phase == Idle)
  {
    StepKeeps(p, Stop);
    if steps != [] {
      var rest, step := steps[..|steps| - 1], steps[|steps| - 1];
      StopIsFinal(p, rest);
      var before := Run(Do(p, Stop).life, rest);
      if before.Next? {
        StepKeeps(before.life, step);
        if !step.Stop? && Do(before.life, step).Next? {
          assert !IsCurrent(before.life, step.act);
          StaleIsHarmless(before.life, step);
        }
      }
    }
  }

  // While it is not stopped, a started producer stays started, under the same
  // worker number, however often it reconnects.
  predicate NoStop(steps: seq<Step>) {
    forall i :: 0 <= i < |steps| ==> !steps[i].Stop?
  }

  lemma {:induction false} StartIsKept(p: Life, steps: seq<Step>)
    requires Invariant(p) && p.phase == Started && NoStop(steps)
    ensures var r := Run(p, steps);
            !r.Panic? && (r.Next? ==> Invariant(r.life) && r.life.phase == Started && r.life.workerID == p.workerID)
  {
    hide Invariant, Do;
    if steps != [] {
      var rest, step := steps[..|steps| - 1], steps[|steps| - 1];
      StartIsKept(p, rest);
      var before := Run(p, rest);
      if before.Next? {
        StepKeeps(before.life, step);
        if Do(before.life, step).Next? {
          StartedStep(before.life, step);
        }
      }
    }
  }

  lemma StartedStep(p: Life, step: Step)
    requires p.phase == Started && !step.Stop? && Do(p, step).Next?
    ensures Do(p, step).life.phase == Started && Do(p, step).life.workerID == p.workerID
  {
  }
}
