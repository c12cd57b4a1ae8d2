// pkg/core/track.go: the queue of a Sender. Producers call Input, a goroutine
// hands the packets to Output, Start and Close come from other goroutines; each
// step below is one critical section or one channel operation.

module Sender {
  import opened Bytes

  // ---- The protocol ---------------------------------------------------------------

  datatype Worker = NotStarted | Idle | Busy(packet: Data) | Finished

  datatype Done = NoChannel | Waiting | Signalled

  // buf is nil once the sender is closed; the worker keeps the channel.
  datatype State = State(capacity: nat, hasBuf: bool, queue: seq<Data>, closed: bool, done: Done, worker: Worker,
                         handled: seq<Data>, bytes: nat, packets: nat, drops: nat)

  datatype Step = Input(packet: Data) | Start | Close | Take | Handle | Finish

  // A step may have to wait; using a closed channel panics.
  datatype Outcome = Next(state: State) | Blocked | Panic

  function NewState(capacity: nat): State {
    State(capacity, true, [], false, NoChannel, NotStarted, [], 0, 0, 0)
  }

  function Do(s: State, step: Step): Outcome {
    match step
    case Input(p) =>
      if s.hasBuf && s.closed then Panic
      else if s.hasBuf && |s.queue| < s.capacity then
        Next(s.(queue := s.queue + [p], bytes := s.bytes + |p|, packets := s.packets + 1))
      else Next(s.(drops := s.drops + 1))
    case Start =>
      if !s.hasBuf || s.done != NoChannel then Next(s) else Next(s.(done := Waiting, worker := Idle))
    case Close =>
      if !s.hasBuf then Next(s)
      else if s.closed then Panic
      else Next(s.(closed := true, hasBuf := false))
    case Take =>
      if s.worker != Idle || s.queue == [] then Blocked
      else Next(s.(queue := s.queue[1..], worker := Busy(s.queue[0])))
    case Handle =>
      if !s.worker.Busy? then Blocked
      else Next(s.(handled := s.handled + [s.worker.packet], worker := Idle))
    case Finish =>
      if s.worker != Idle || s.queue != [] || !s.closed then Blocked
      else if s.done != Waiting then Panic
      else Next(s.(done := Signalled, worker := Finished))
  }

  // Kinds of codecs, and the room NewSender gives them.
  datatype Kind = RtpVideo | OtherVideo | NotVideo

  function BufSize(kind: Kind): nat {
    match kind
    case RtpVideo => 4096
    case OtherVideo => 64
    case NotVideo => 128
  }

  // ---- The objects ------------------------------------------------------------------

  // A buffered Go channel. The preconditions are where Go panics.
  class Channel {
    const capacity: nat
    var queue: seq<Data>
    var closed: bool

    constructor (capacity: nat)
      ensures this.capacity == capacity && queue == [] && !closed
    {
      this.capacity, queue, closed := capacity, [], false;
    }

    method TrySend(p: Data) returns (ok: bool)
      requires !closed
      modifies this`queue
      ensures ok == (old(|queue|) < capacity)
      ensures queue == if ok then old(queue) + [p] else old(queue)
    {
      ok := |queue| < capacity;
      if ok {
        queue := queue + [p];
      }
    }

    method Shut()
      requires !closed
      modifies this`closed
      ensures closed
    {
      closed := true;
    }
  }

  class Sender {
    var buf: Channel?
    var done: Channel?
    var bytes: nat
    var packets: nat
    var drops: nat
    // The channel the worker was given, and what it is doing.
    const chan: Channel
    var worker: Worker
    var handled: seq<Data>

    ghost function Current(): State
      reads this, chan, done
    {
      var d := if done == null then NoChannel else if done.closed then Signalled else Waiting;
      State(chan.capacity, buf != null, chan.queue, chan.closed, d, worker, handled, bytes, packets, drops)
    }

    ghost predicate Valid()
      reads this, chan, done
    {
      && (buf != null ==> buf == chan) && done != chan
      && Invariant(Current())
    }

    constructor (kind: Kind)
      ensures Valid() && Current() == NewState(BufSize(kind)) && fresh(chan)
    {
      var c := new Channel(BufSize(kind));
      chan, buf, done := c, c, null;
      bytes, packets, drops := 0, 0, 0;
      worker, handled := NotStarted, [];
    }

    method Input(p: Data)
      requires Valid()
      modifies this, chan
      ensures Valid() && Do(old(Current()), Step.Input(p)) == Next(Current())
    {
      var sent := false;
      if buf != null {
        sent := buf.TrySend(p);
      }
      if sent {
        bytes := bytes + |p|;
        packets := packets + 1;
      } else {
        drops := drops + 1;
      }
    }

    method Start()
      requires Valid()
      modifies this
      ensures Valid() && Do(old(Current()), Step.Start) == Next(Current())
    {
      if buf == null || done != null {
        return;
      }
      done := new Channel(0);
      worker := Idle;
    }

    method Close()
      requires Valid()
      modifies this, chan
      ensures Valid() && Do(old(Current()), Step.Close) == Next(Current())
    {
      if buf != null {
        buf.Shut();
        buf := null;
      }
    }

    // One turn of the worker's loop: receive, call Output, or leave the loop.
    method Turn()
      requires Valid() && worker != NotStarted && worker != Finished
      modifies this, chan, done
      ensures Valid()
      ensures var before, after := old(Current()), Current();
              after == before || Do(before, Take) == Next(after) || Do(before, Handle) == Next(after) || Do(before, Finish) == Next(after)
      ensures old(worker.Busy? || chan.queue != [] || chan.closed) ==> Current() != old(Current())
    {
      if worker.Busy? {
        handled := handled + [worker.packet];
        worker := Idle;
      } else if chan.queue != [] {
        worker := Busy(chan.queue[0]);
        chan.queue := chan.queue[1..];
      } else if chan.closed {
        done.Shut();
        worker := Finished;
      }
    }
  }

  // ---- Every interleaving -----------------------------------------------------------

  // What every step keeps: the channel is closed exactly when buf is nil, and
  // done exists exactly when there is a worker.
  predicate Invariant(s: State) {
    && s.closed == !s.hasBuf && |s.queue| <= s.capacity
    && (s.done == NoChannel <==> s.worker == NotStarted)
    && (s.done == Signalled <==> s.worker == Finished)
    && (s.done == Signalled ==> s.closed && s.queue == [])
  }

  function Run(capacity: nat, steps: seq<Step>): Outcome {
    if steps == [] then Next(NewState(capacity))
    else
      var before := Run(capacity, steps[..|steps| - 1]);
      if before.Next? then Do(before.state, steps[|steps| - 1]) else before
  }

  // The packets offered before the first Close that found room.
  function Accepted(capacity: nat, steps: seq<Step>): seq<Data>
    requires Run(capacity, steps).Next?
  {
    if steps == [] then []
    else
      var rest, step := steps[..|steps| - 1], steps[|steps| - 1];
      var s := Run(capacity, rest).state;
      if step.Input? && Close !in rest && |s.queue| < capacity then Accepted(capacity, rest) + [step.packet]
      else Accepted(capacity, rest)
  }

  function Inputs(steps: seq<Step>): nat {
    if steps == [] then 0
    else Inputs(steps[..|steps| - 1]) + if steps[|steps| - 1].Input? then 1 else 0
  }

  function Length(packets: seq<Data>): nat {
    if packets == [] then 0 else Length(packets[..|packets| - 1]) + |packets[|packets| - 1]|
  }

  function InHand(w: Worker): seq<Data> {
    if w.Busy? then [w.packet] else []
  }

  lemma {:induction false} NeverPanics(capacity: nat, steps: seq<Step>)
    ensures !Run(capacity, steps).Panic?
    ensures Run(capacity, steps).Next? ==>
              Invariant(Run(capacity, steps).state) && Run(capacity, steps).state.hasBuf == (Close !in steps)
              && Run(capacity, steps).state.capacity == capacity
  {
    if steps != [] {
      var rest, step := steps[..|steps| - 1], steps[|steps| - 1];
      assert steps == rest + [step];
      NeverPanics(capacity, rest);
    }
  }

  ghost predicate Balanced(s: State, accepted: seq<Data>, inputs: nat) {
    && accepted == s.handled + InHand(s.worker) + s.queue
    && s.packets == |accepted| && s.bytes == Length(accepted) && s.packets + s.drops == inputs
  }

  // Accepted packets are handled, in the worker's hands or queued, in the order
  // they came; the counters say how many and how long they are.
  lemma {:induction false} Conserved(capacity: nat, steps: seq<Step>)
    requires Run(capacity, steps).Next?
    ensures Balanced(Run(capacity, steps).state, Accepted(capacity, steps), Inputs(steps))
  {
    if steps != [] {
      var rest, step := steps[..|steps| - 1], steps[|steps| - 1];
      Conserved(capacity, rest);
      NeverPanics(capacity, rest);
      StepBalances(Run(capacity, rest).state, Accepted(capacity, rest), Inputs(rest), step);
      hide Balanced, Do;
    }
  }

  lemma StepBalances(s: State, accepted: seq<Data>, inputs: nat, step: Step)
    requires Balanced(s, accepted, inputs) && Invariant(s) && Do(s, step).Next?
    ensures var more := if step.Input? && s.hasBuf && |s.queue| < s.capacity then accepted + [step.packet] else accepted;
            Balanced(Do(s, step).state, more, inputs + if step.Input? then 1 else 0)
  {
    match step
    case Input(p) =>
      assert (accepted + [p])[..|accepted|] == accepted;
      assert (accepted + [p]) == s.handled + InHand(s.worker) + (s.queue + [p]);
    case Start =>
      assert InHand(NotStarted) == InHand(Idle);
    case Close =>
    case Take =>
      assert s.handled + [] + s.queue == s.handled + [s.queue[0]] + s.queue[1..];
    case Handle =>
      var p := s.worker.packet;
      assert s.handled + [p] + s.queue == (s.handled + [p]) + [] + s.queue;
    case Finish =>
  }

  // done is signalled only after Close, and when every accepted packet is
  // handled; nothing is accepted afterwards.
  lemma DoneMeansHandled(capacity: nat, steps: seq<Step>)
    requires Run(capacity, steps).Next? && Run(capacity, steps).state.done == Signalled
    ensures Close in steps && Run(capacity, steps).state.handled == Accepted(capacity, steps)
  {
    NeverPanics(capacity, steps);
    Conserved(capacity, steps);
  }

  // The worker alone brings a started and closed sender to its end.
  function Left(s: State): nat {
    2 * |s.queue| + if s.worker.Busy? then 1 else 0
  }

  function Drain(s: State): (steps: seq<Step>)
    decreases Left(s)
  {
    if s.worker.Busy? then [Handle] + Drain(s.(handled := s.handled + [s.worker.packet], worker := Idle))
    else if s.queue != [] then [Take] + Drain(s.(queue := s.queue[1..], worker := Busy(s.queue[0])))
    else [Finish]
  }

  lemma RunLast(capacity: nat, steps: seq<Step>, step: Step)
    requires Run(capacity, steps).Next?
    ensures Run(capacity, steps + [step]) == Do(Run(capacity, steps).state, step)
    ensures Run(capacity, steps + [step]).Next? && !step.Input? ==> Accepted(capacity, steps + [step]) == Accepted(capacity, steps)
  {
    assert (steps + [step])[..|steps|] == steps;
  }

  lemma {:induction false} WorkerFinishes(capacity: nat, steps: seq<Step>, s: State) returns (end: State)
    requires Run(capacity, steps) == Next(s) && s.closed && s.done == Waiting
    ensures Run(capacity, steps + Drain(s)) == Next(end)
    ensures end.done == Signalled && end.handled == Accepted(capacity, steps)
    decreases Left(s)
  {
    NeverPanics(capacity, steps);
    hide Run, Accepted;
    if s.worker.Busy? || s.queue != [] {
      var step := if s.worker.Busy? then Handle else Take;
      var more := steps + [step];
      RunLast(capacity, steps, step);
      var t := Do(s, step).state;
      end := WorkerFinishes(capacity, more, t);
      assert steps + ([step] + Drain(t)) == more + Drain(t);
    } else {
      Conserved(capacity, steps);
      RunLast(capacity, steps, Finish);
      end := Do(s, Finish).state;
      assert s.handled + [] + [] == s.handled;
    }
  }
}
