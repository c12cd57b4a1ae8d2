// internal/streams/stream.go and add_consumer.go: the methods of a stream, each
// a run of the steps that other goroutines see.

module StreamMethods {
  import opened Bytes
  import opened Lifecycle
  import opened Stream
  import opened StreamLinks
  import opened StreamRuns
  import opened StreamSweeps
  import opened StreamMatching
  import opened Connection
  import Node

  // ---- The class --------------------------------------------------------------------------

  class Streams {
    var order: seq<nat>
    var producers: map<nat, Stream.Producer>
    var made: nat
    var tracks: map<nat, Track>
    var consumers: map<nat, set<nat>>
    var calls: map<nat, Call>
    var pending: int
    var due: nat
    var waiting: nat
    var lock: Option<Sweep>

    ghost function Current(): State
      reads this
    {
      State(producers, Listed(), made, tracks, consumers, calls, pending, due, waiting, lock, {})
    }

    function Listed(): set<nat>
      reads this`order
    {
      set i | i in order
    }

    // The slice of producers holds each of them once; the mutex is free.
    ghost predicate Valid()
      reads this
    {
      Good(Current()) && Node.Distinct(order) && lock == None
    }

    // len(track.Senders()) > 0 for a track of the list.
    method AnyChild(list: seq<nat>) returns (found: bool)
      ensures found <==> exists t :: t in list && t in tracks && tracks[t].childs != []
    {
      for k := 0 to |list|
        invariant forall j :: 0 <= j < k ==> list[j] in tracks ==> tracks[list[j]].childs == []
      {
        if list[k] in tracks && tracks[list[k]].childs != [] {
          return true;
        }
      }
      return false;
    }

    // The body of the loop: a producer without children is stopped.
    method Visit(i: nat, ghost s: State, ghost steps: seq<Stream.Step>) returns (ghost more: seq<Stream.Step>)
      requires Good(Current()) && Path(s, steps) == Some(Current()) && i in producers
      requires lock.Some? && lock.value.doomed == None && i in lock.value.todo
      modifies this`producers, this`tracks, this`lock
      ensures Good(Current()) && Path(s, more) == Some(Current())
      ensures lock == Some(Sweep(old(lock).value.todo - {i}, None)) && tracks == old(tracks)
      ensures producers == old(producers)[i := if HasChild(old(Current()), i) then old(producers)[i] else StopOne(old(producers)[i])]
      ensures steps <= more && forall k :: |steps| <= k < |more| ==> IsSweeping(more[k])
    {
      hide Good, HasChild, StopOne, CloseAll, Path;
      ghost var before := Current();
      var busy := AnyChild(producers[i].receivers);
      if !busy {
        busy := AnyChild(producers[i].senders);
      }
      HasChildIs(before, i, busy);
      EveryStepKeeps(before, Look(i));
      PathSnoc(s, steps, Look(i));
      more := steps + [Look(i)];
      if busy {
        lock := Some(Sweep(lock.value.todo - {i}, None));
        return;
      }
      lock := Some(Sweep(lock.value.todo, Some(i)));
      assert Current() == Apply(before, Look(i));
      SameChildren(before, Current(), i);
      more := StopIt(i, s, more);
    }

    // producer.stop()
    method StopIt(i: nat, ghost s: State, ghost steps: seq<Stream.Step>) returns (ghost more: seq<Stream.Step>)
      requires Good(Current()) && Path(s, steps) == Some(Current()) && i in producers && !HasChild(Current(), i)
      requires lock.Some? && lock.value.doomed == Some(i)
      modifies this`producers, this`tracks, this`lock
      ensures Good(Current()) && Path(s, more) == Some(Current()) && more == steps + [StopNow]
      ensures lock == Some(Sweep(old(lock).value.todo - {i}, None)) && tracks == old(tracks) && producers == old(producers)[i := StopOne(old(producers)[i])]
    {
      hide Good, HasChild, StopOne, CloseAll, Path, Apply;
      ghost var doomed := Current();
      EveryStepKeeps(doomed, StopNow);
      PathSnoc(s, steps, StopNow);
      more := steps + [StopNow];
      StoppedIsQuiet(doomed, i);
      StopNowIs(doomed, i);
      if producers[i].life.phase != External && producers[i].life.phase != Idle {
        tracks := CloseAll(tracks, Prod(i), ConnOf(producers[i]));
      }
      producers := producers[i := StopOne(producers[i])];
      lock := Some(Sweep(lock.value.todo - {i}, None));
      assert Current() == Apply(doomed, StopNow);
    }

    // Looking at pending, and taking the mutex.
    method Enter(ghost s: State, ghost steps: seq<Stream.Step>) returns (enters: bool, ghost more: seq<Stream.Step>)
      requires Valid() && due > 0 && Path(s, steps) == Some(Current())
      modifies this`due, this`lock
      ensures Good(Current()) && Path(s, more) == Some(Current()) && enters == (pending <= 0) && due == old(due) - 1
      ensures lock == if enters then Some(Sweep(Listed(), None)) else None
      ensures steps <= more && forall k :: |steps| <= k < |more| ==> IsSweeping(more[k])
    {
      hide Good, Path;
      EveryStepKeeps(Current(), Check);
      PathSnoc(s, steps, Check);
      more := steps + [Check];
      due := due - 1;
      if pending > 0 {
        return false, more;
      }
      ghost var waits := Current().(waiting := waiting + 1);
      EveryStepKeeps(waits, Lock);
      PathSnoc(s, more, Lock);
      more := more + [Lock];
      lock := Some(Sweep(Listed(), None));
      assert Current() == Apply(waits, Lock);
      enters := true;
    }

    method StopProducers(ghost s: State, ghost steps: seq<Stream.Step>) returns (ghost more: seq<Stream.Step>)
      requires Valid() && due > 0 && Path(s, steps) == Some(Current())
      modifies this`producers, this`tracks, this`due, this`lock
      ensures Valid() && Current() == StopIdle(old(Current())) && Path(s, more) == Some(Current())
      ensures steps <= more && forall k :: |steps| <= k < |more| ==> IsSweeping(more[k])
    {
      hide Good, HasChild, StopOne, CloseAll, Path, Idled, Rest;
      ghost var before := Current();
      var enters;
      enters, more := Enter(s, steps);
      if !enters {
        return;
      }
      ghost var swept := Current();
      more := VisitAll(s, more);
      EveryStepKeeps(Current(), Unlock);
      PathSnoc(s, more, Unlock);
      more := more + [Unlock];
      lock := None;
      IdledKeys(before);
      SameIdled(before, swept);
      IdledKeys(swept);
    }

    // The loop over the producers.
    method VisitAll(ghost s: State, ghost steps: seq<Stream.Step>) returns (ghost more: seq<Stream.Step>)
      requires Good(Current()) && Path(s, steps) == Some(Current()) && Node.Distinct(order) && lock == Some(Sweep(Listed(), None))
      modifies this`producers, this`tracks, this`lock
      ensures Good(Current()) && Path(s, more) == Some(Current()) && lock == Some(Sweep({}, None))
      ensures Current() == Idled(old(Current())).(lock := lock)
      ensures steps <= more && forall k :: |steps| <= k < |more| ==> IsSweeping(more[k])
    {
      hide Good, HasChild, StopOne, Path, Idled, Rest, IdledTo, Node.Distinct;
      more := steps;
      ghost var swept := Current();
      InList(swept);
      IdledKeys(swept);
      WholeList(order);
      assert Listed() == Rest(order, 0);
      NobodyIdled(swept, order);
      var k := 0;
      while k < |order|
        invariant k <= |order| && Good(Current()) && Path(s, more) == Some(Current())
        invariant Current() == swept.(producers := producers, lock := lock) && IdledTo(swept, producers, order, k)
        invariant lock == Some(Sweep(Rest(order, k), None))
        invariant steps <= more && forall k :: |steps| <= k < |more| ==> IsSweeping(more[k])
      {
        var i := order[k];
        NotIdledYet(swept, producers, order, k);
        SameChildren(swept, Current(), i);
        RestOfList(order, k);
        ghost var before := producers;
        more := Visit(i, s, more);
        IdledNext(swept, before, order, k);
        k := k + 1;
      }
      AllIdled(swept, producers, order);
    }

    // cons.Stop() closes the tracks the consumer gave and leaves those it
    // listened to.
    method RemoveConsumer(c: nat) returns (ghost steps: seq<Stream.Step>)
      requires Valid() && c in consumers
      modifies this
      ensures Valid() && order == old(order) && Current() == StopIdle(Apply(old(Current()), Remove(c)))
      ensures Path(old(Current()), steps) == Some(Current())
      ensures steps != [] && steps[0] == Remove(c) && forall k :: 0 < k < |steps| ==> IsSweeping(steps[k])
    {
      hide Good, StopIdle, CloseAll, Path;
      ghost var before := Current();
      EveryStepKeeps(before, Remove(c));
      FirstStep(before, Remove(c));
      tracks := CloseAll(tracks, Cons(c), 0);
      consumers := consumers - {c};
      due := due + 1;
      assert Current() == Apply(before, Remove(c));
      steps := StopProducers(before, [Remove(c)]);
    }

    // The codecs of the tracks, and the tracks each consumer gave.
    var codecs: map<nat, Node.Codec>
    var given: map<nat, seq<nat>>
    var next: nat

    ghost predicate Numbered()
      reads this
    {
      AllNumbered(tracks, next, codecs.Keys) && AllGiven(tracks, given)
    }

    // After the steps of one call, from a state s.
    ghost predicate During(s: State, steps: seq<Stream.Step>, c: nat)
      reads this
    {
      && Path(s, steps) == Some(Current()) && Valid() && Numbered() && Busy(Current(), c)
      && SoFar(steps, c) && consumers == s.consumers && producers.Keys == s.producers.Keys
    }

    // prod.Dial()
    method DialStep(c: nat, i: nat, dialled: Option<nat>, ghost s: State, ghost steps: seq<Stream.Step>) returns (ghost more: seq<Stream.Step>)
      requires During(s, steps, c) && Enabled(Current(), DialFor(c, i, dialled))
      modifies this`producers
      ensures During(s, more, c) && Current() == Apply(old(Current()), DialFor(c, i, dialled)) && more == steps + [DialFor(c, i, dialled)]
    {
      hide Good, Path, After, SoFar;
      ghost var before := Current();
      NextStep(s, steps, before, DialFor(c, i, dialled), c, next, codecs.Keys, given);
      more := steps + [DialFor(c, i, dialled)];
      producers := producers[i := producers[i].(life := After(producers[i], Lifecycle.Dial(dialled)))];
      assert Current() == Apply(before, DialFor(c, i, dialled));
      hide Apply, Enabled;
    }

    // The producer knows the track.
    method KeepStep(c: nat, i: nat, t: nat, ghost s: State, ghost steps: seq<Stream.Step>) returns (ghost more: seq<Stream.Step>)
      requires During(s, steps, c) && Enabled(Current(), Stream.Step.TakeTrack(c, i, t)) && t in producers[i].receivers && t < next && t in codecs
      modifies this`calls
      ensures During(s, more, c) && Current() == Apply(old(Current()), Stream.Step.TakeTrack(c, i, t)) && more == steps + [Stream.Step.TakeTrack(c, i, t)]
    {
      hide Good, Path, SoFar;
      ghost var before := Current();
      NextStep(s, steps, before, Stream.Step.TakeTrack(c, i, t), c, next, codecs.Keys, given);
      more := steps + [Stream.Step.TakeTrack(c, i, t)];
      calls := calls[c := Matching(calls[c].starts, calls[c].bare, Took(i, t))];
      assert Current() == Apply(before, Stream.Step.TakeTrack(c, i, t));
      hide Apply, Enabled;
    }

    // The connection of the producer makes a new track.
    method TakeStep(c: nat, i: nat, t: nat, ghost s: State, ghost steps: seq<Stream.Step>) returns (ghost more: seq<Stream.Step>)
      requires During(s, steps, c) && i in producers && Enabled(Current(), Stream.Step.TakeTrack(c, i, t)) && t !in producers[i].receivers && t < next && t in codecs
      modifies this`producers, this`tracks, this`calls
      ensures During(s, more, c) && Current() == Apply(old(Current()), Stream.Step.TakeTrack(c, i, t)) && more == steps + [Stream.Step.TakeTrack(c, i, t)]
    {
      hide Good, Path, After, SoFar, Apply, Enabled;
      ghost var before := Current();
      NextStep(s, steps, before, Stream.Step.TakeTrack(c, i, t), c, next, codecs.Keys, given);
      TakeFields(before, c, i, t);
      more := steps + [Stream.Step.TakeTrack(c, i, t)];
      var p := producers[i];
      var life := After(p, Lifecycle.GetTrack(false, true));
      producers := producers[i := Stream.Producer(life, p.receivers + [t], p.senders)];
      tracks := tracks[t := Track(Prod(i), if life.conn.Some? then life.conn.value else 0, [])];
      calls := calls[c := Matching(calls[c].starts, calls[c].bare, Took(i, t))];
      assert Current() == Apply(before, Stream.Step.TakeTrack(c, i, t));
    }

    // cons.AddTrack: the consumer becomes a child of the track.
    method AddStep(c: nat, i: nat, t: nat, ghost s: State, ghost steps: seq<Stream.Step>) returns (ghost more: seq<Stream.Step>)
      requires During(s, steps, c) && Enabled(Current(), AddToConsumer(c, i, t))
      modifies this`tracks, this`calls
      ensures During(s, more, c) && Current() == Apply(old(Current()), AddToConsumer(c, i, t)) && more == steps + [AddToConsumer(c, i, t)]
    {
      hide Good, Path, SoFar;
      ghost var before := Current();
      NextStep(s, steps, before, AddToConsumer(c, i, t), c, next, codecs.Keys, given);
      more := steps + [AddToConsumer(c, i, t)];
      tracks := tracks[t := tracks[t].(childs := tracks[t].childs + [Cons(c)])];
      calls := calls[c := Matching(calls[c].starts + {i}, calls[c].bare, Nothing)];
      assert Current() == Apply(before, AddToConsumer(c, i, t));
      hide Apply, Enabled;
    }

    // The consumer gives a track that it has, or a new one.
    method GiveStep(c: nat, t: nat, ghost s: State, ghost steps: seq<Stream.Step>) returns (ghost more: seq<Stream.Step>)
      requires During(s, steps, c) && Enabled(Current(), GetBack(c, t)) && t < next && t in codecs
      modifies this`tracks, this`calls
      ensures During(s, more, c) && Current() == Apply(old(Current()), GetBack(c, t)) && more == steps + [GetBack(c, t)]
    {
      hide Good, Path, SoFar;
      ghost var before := Current();
      NextStep(s, steps, before, GetBack(c, t), c, next, codecs.Keys, given);
      more := steps + [GetBack(c, t)];
      if t !in tracks {
        tracks := tracks[t := Track(Cons(c), 0, [])];
      }
      calls := calls[c := Matching(calls[c].starts, calls[c].bare, Got(t))];
      assert Current() == Apply(before, GetBack(c, t));
      hide Apply, Enabled;
    }

    // prod.AddTrack: the producer becomes a child of the track and knows it.
    method HearStep(c: nat, i: nat, t: nat, ghost s: State, ghost steps: seq<Stream.Step>) returns (ghost more: seq<Stream.Step>)
      requires During(s, steps, c) && i in producers && t in tracks && Enabled(Current(), AddToProducer(c, i, t))
      modifies this`producers, this`tracks, this`calls
      ensures During(s, more, c) && Current() == Apply(old(Current()), AddToProducer(c, i, t)) && more == steps + [AddToProducer(c, i, t)]
    {
      hide Good, Path, After, SoFar, Apply, Enabled;
      ghost var before := Current();
      NextStep(s, steps, before, AddToProducer(c, i, t), c, next, codecs.Keys, given);
      HearFields(before, c, i, t);
      more := steps + [AddToProducer(c, i, t)];
      var p := producers[i];
      producers := producers[i := Stream.Producer(After(p, Lifecycle.AddTrack(true)), p.receivers, p.senders + [t])];
      tracks := tracks[t := tracks[t].(childs := tracks[t].childs + [Prod(i)])];
      calls := calls[c := Matching(calls[c].starts + {i}, calls[c].bare, Nothing)];
      assert Current() == Apply(before, AddToProducer(c, i, t));
    }

    // A match without a track.
    method BareStep(c: nat, i: nat, ghost s: State, ghost steps: seq<Stream.Step>) returns (ghost more: seq<Stream.Step>)
      requires During(s, steps, c) && Enabled(Current(), MatchBare(c, i))
      modifies this`calls
      ensures During(s, more, c) && Current() == Apply(old(Current()), MatchBare(c, i)) && more == steps + [MatchBare(c, i)]
    {
      hide Good, Path, SoFar;
      ghost var before := Current();
      NextStep(s, steps, before, MatchBare(c, i), c, next, codecs.Keys, given);
      more := steps + [MatchBare(c, i)];
      calls := calls[c := Matching(calls[c].starts, calls[c].bare + {i}, calls[c].held)];
      assert Current() == Apply(before, MatchBare(c, i));
      hide Apply, Enabled;
    }

    // conn.GetTrack of a producer: the known track of a codec, a new one, or
    // none.
    method TakeTrack(c: nat, i: nat, codec: Node.Codec, ghost s: State, ghost steps: seq<Stream.Step>)
      returns (t: Option<nat>, ghost more: seq<Stream.Step>)
      requires During(s, steps, c) && i in producers && producers[i].life.phase != Idle
      modifies this`producers, this`tracks, this`calls, this`consumers, this`pending, this`codecs, this`next
      ensures During(s, more, c) && order == old(order) && i in producers && producers[i].life.phase != Idle
      ensures SameFound(calls[c], old(calls[c]))
      ensures t == None ==> more == steps
      ensures t.Some? ==>
                && calls[c].held == Took(i, t.value) && t.value in tracks && t.value in codecs && codecs[t.value] == codec
                && more == steps + [Stream.Step.TakeTrack(c, i, t.value)]
    {
      hide Good, Apply, Path, Enabled;
      var known := producers[i].receivers;
      more := steps;
      for k := 0 to |known|
        invariant Current() == old(Current()) && codecs == old(codecs) && next == old(next)
      {
        if known[k] in codecs && codecs[known[k]] == codec {
          KnownTrack(Current(), i, known[k]);
          TakeIs(Current(), c, i, known[k]);
          more := KeepStep(c, i, known[k], s, steps);
          return Some(known[k]), more;
        }
      }
      var refused: bool := *;
      if refused {
        return None, more;
      }
      t := Some(next);
      TakeIs(Current(), c, i, next);
      if next in producers[i].receivers { KnownTrack(Current(), i, next); }
      codecs := codecs[next := codec];
      next := next + 1;
      more := TakeStep(c, i, next - 1, s, steps);
    }

    // cons.GetTrack of a consumer that sends.
    method GiveTrack(c: nat, codec: Node.Codec, ghost s: State, ghost steps: seq<Stream.Step>)
      returns (t: Option<nat>, ghost more: seq<Stream.Step>)
      requires During(s, steps, c)
      modifies this`producers, this`tracks, this`calls, this`consumers, this`pending, this`codecs, this`next, this`given
      ensures During(s, more, c) && order == old(order) && producers == old(producers)
      ensures SameFound(calls[c], old(calls[c]))
      ensures t == None ==> more == steps
      ensures t.Some? ==>
                && calls[c].held == Got(t.value) && t.value in tracks && tracks[t.value].owner == Cons(c) && t.value in codecs && codecs[t.value] == codec
                && more == steps + [GetBack(c, t.value)]
    {
      hide Good, Path, Apply, Enabled;
      more := steps;
      var known := if c in given then given[c] else [];
      for k := 0 to |known|
        invariant Current() == old(Current()) && codecs == old(codecs) && next == old(next) && given == old(given)
      {
        if known[k] in codecs && codecs[known[k]] == codec {
          GiveIs(Current(), c, known[k]);
          more := GiveStep(c, known[k], s, steps);
          return Some(known[k]), more;
        }
      }
      var refused: bool := *;
      if refused {
        return None, more;
      }
      t := Some(next);
      more := GiveNew(c, codec, known, s, steps);
    }

    // A track that the consumer has not given yet.
    method GiveNew(c: nat, codec: Node.Codec, known: seq<nat>, ghost s: State, ghost steps: seq<Stream.Step>) returns (ghost more: seq<Stream.Step>)
      requires During(s, steps, c) && known == (if c in given then given[c] else [])
      modifies this`tracks, this`calls, this`codecs, this`next, this`given
      ensures During(s, more, c) && next == old(next) + 1 && SameFound(calls[c], old(calls[c])) && more == steps + [GetBack(c, old(next))]
      ensures calls[c].held == Got(old(next)) && old(next) in tracks && tracks[old(next)].owner == Cons(c) && old(next) in codecs && codecs[old(next)] == codec
    {
      hide Good, Path, Apply, Enabled, SoFar, AllNumbered, AllGiven;
      OneMoreNumber(tracks, next, codecs.Keys);
      GiveIs(Current(), c, next);
      assert codecs[next := codec].Keys == codecs.Keys + {next};
      codecs := codecs[next := codec];
      next := next + 1;
      more := GiveStep(c, next - 1, s, steps);
      OneMoreGiven(tracks, given, c, next - 1);
      given := given[c := known + [next - 1]];
    }

    // Steps 3 to 5 of the matching loop, for one media of a producer. Matching
    // medias are linked by a track of the codec that matched, unless one side
    // refuses; for a media that flows both ways nobody is asked for a track.
    method TryMedia(c: nat, i: nat, media: Media, consMedia: Media, ghost s: State, ghost steps: seq<Stream.Step>)
      returns (outcome: MediaOutcome, ghost more: seq<Stream.Step>)
      requires During(s, steps, c) && i in producers && producers[i].life.phase != Idle
      modifies this
      ensures During(s, more, c) && order == old(order) && i in producers && producers[i].life.phase != Idle
      ensures outcome == NoMatch <==> MatchMedia(media, consMedia) == None
      ensures media.direction == Sendrecv ==> outcome == NoMatch || outcome == Accepted
      ensures calls[c].starts == old(calls[c].starts) + if outcome == Accepted && media.direction != Sendrecv then {i} else {}
      ensures calls[c].bare == old(calls[c].bare) + if outcome == Accepted && media.direction == Sendrecv then {i} else {}
      ensures Handed(more) == Handed(steps) + (if outcome == Accepted then [i] else []) && Dialled(more) == Dialled(steps)
      ensures outcome == Accepted ==> steps < more && HandsOver(more[|more| - 1], i, media, consMedia, codecs)
    {
      hide Good, Path, Apply, Enabled, Handed, Dialled;
      outcome, more := NoMatch, steps;
      var pair := MatchMedia(media, consMedia);
      if pair == None {
        assert Handed(steps) + [] == Handed(steps);
        return;
      }
      if media.direction == Recvonly {
        outcome, more := TryTake(c, i, pair.value.0, s, more);
      } else if media.direction == Sendonly {
        outcome, more := TryGive(c, i, pair.value.1, s, more);
      } else {
        BareIs(Current(), c, i);
        more := BareStep(c, i, s, more);
        OneMore(steps, MatchBare(c, i));
        outcome := Accepted;
      }
    }

    // A track of the producer for the consumer. Either can refuse.
    method TryTake(c: nat, i: nat, codec: Node.Codec, ghost s: State, ghost steps: seq<Stream.Step>)
      returns (outcome: MediaOutcome, ghost more: seq<Stream.Step>)
      requires During(s, steps, c) && i in producers && producers[i].life.phase != Idle
      modifies this
      ensures During(s, more, c) && order == old(order) && i in producers && producers[i].life.phase != Idle
      ensures calls[c].starts == old(calls[c].starts) + (if outcome == Accepted then {i} else {}) && calls[c].bare == old(calls[c].bare)
      ensures Handed(more) == Handed(steps) + (if outcome == Accepted then [i] else []) && Dialled(more) == Dialled(steps)
      ensures outcome != NoMatch
      ensures outcome == Accepted ==>
                steps < more && var last := more[|more| - 1]; last.AddToConsumer? && last.i == i && last.t in codecs && codecs[last.t] == codec
    {
      hide Good, Path, Apply, Enabled, SoFar, AllNumbered, AllGiven, Handed, Dialled;
      assert Handed(steps) + [] == Handed(steps);
      var refused: bool := *;
      var t: Option<nat>;
      t, more := TakeTrack(c, i, codec, s, steps);
      if t == None {
        return ProducerRefused, more;
      }
      OneMore(steps, Stream.Step.TakeTrack(c, i, t.value));
      if refused {
        return ConsumerRefused, more;
      }
      AddIs(Current(), c, i, t.value);
      OneMore(more, AddToConsumer(c, i, t.value));
      more := AddStep(c, i, t.value, s, more);
      outcome := Accepted;
    }

    // A track of the consumer for the producer. Either can refuse.
    method TryGive(c: nat, i: nat, codec: Node.Codec, ghost s: State, ghost steps: seq<Stream.Step>)
      returns (outcome: MediaOutcome, ghost more: seq<Stream.Step>)
      requires During(s, steps, c) && i in producers && producers[i].life.phase != Idle
      modifies this
      ensures During(s, more, c) && order == old(order) && i in producers && producers[i].life.phase != Idle
      ensures calls[c].starts == old(calls[c].starts) + (if outcome == Accepted then {i} else {}) && calls[c].bare == old(calls[c].bare)
      ensures Handed(more) == Handed(steps) + (if outcome == Accepted then [i] else []) && Dialled(more) == Dialled(steps)
      ensures outcome != NoMatch
      ensures outcome == Accepted ==>
                steps < more && var last := more[|more| - 1]; last.AddToProducer? && last.i == i && last.t in codecs && codecs[last.t] == codec
    {
      hide Good, Path, Apply, Enabled, SoFar, AllNumbered, AllGiven, Handed, Dialled;
      assert Handed(steps) + [] == Handed(steps);
      var refused: bool := *;
      var t: Option<nat>;
      t, more := GiveTrack(c, codec, s, steps);
      if t == None {
        return ConsumerRefused, more;
      }
      OneMore(steps, GetBack(c, t.value));
      if refused {
        return ProducerRefused, more;
      }
      HearIs(Current(), c, i, t.value);
      OneMore(more, AddToProducer(c, i, t.value));
      more := HearStep(c, i, t.value, s, more);
      outcome := Accepted;
    }

    // GetProducer: a new connection, or an error.
    method GetProducer(life: Life) returns (dialled: Option<nat>)
      ensures IsNew(life, dialled)
    {
      var failed: bool, conn: nat := *, *;
      dialled := if failed || conn in life.owned then None else Some(conn);
    }

    // The body of the loop over the producers: dial, then try each media that
    // its connection offers.
    method TryProducer(c: nat, i: nat, consMedia: Media, medias: nat -> seq<Media>, ghost s: State, ghost steps: seq<Stream.Step>)
      returns (visit: Visit, found: bool, ghost more: seq<Stream.Step>)
      requires During(s, steps, c) && i in producers
      modifies this
      ensures During(s, more, c) && order == old(order)
      ensures visit.NotDialled? || (visit.Looked? && LooksAt(visit.outcomes, medias(i), consMedia))
      ensures found <==> IsMatch(visit) && !WantsAll(consMedia)
      ensures calls[c].starts == old(calls[c].starts) + if HasTrack(visit, medias(i)) then {i} else {}
      ensures calls[c].bare == old(calls[c].bare) + if HasBare(visit, medias(i)) then {i} else {}
      ensures Handed(more) == Handed(steps) + if visit.Looked? then Times(i, Count(visit.outcomes)) else []
      ensures Dialled(more) == Dialled(steps) + if visit.Looked? then [i] else []
    {
      hide Good, Path, Apply, Enabled, Handed, Dialled, LooksAt, Looking, WantsAll, HasTrack, HasBare, Count, Times, MatchMedia;
      more := steps;
      var dialled: Option<nat> := None;
      if producers[i].life.phase == Idle {
        dialled := GetProducer(producers[i].life);
        if dialled == None {
          NotLooked(medias(i));
          assert Handed(steps) + [] == Handed(steps) && Dialled(steps) + [] == Dialled(steps);
          return NotDialled, false, more;
        }
      }
      DialIs(Current(), c, i, dialled);
      OneMore(steps, DialFor(c, i, dialled));
      assert Handed(steps) + [] == Handed(steps);
      more := DialStep(c, i, dialled, s, more);
      var outcomes;
      outcomes, found, more := TryMedias(c, i, consMedia, medias(i), s, more);
      visit := Looked(outcomes);
    }

    // The loop over the medias of one producer.
    method TryMedias(c: nat, i: nat, consMedia: Media, list: seq<Media>, ghost s: State, ghost steps: seq<Stream.Step>)
      returns (outcomes: seq<MediaOutcome>, found: bool, ghost more: seq<Stream.Step>)
      requires During(s, steps, c) && i in producers && producers[i].life.phase != Idle
      modifies this
      ensures During(s, more, c) && order == old(order)
      ensures LooksAt(outcomes, list, consMedia)
      ensures found <==> IsMatch(Looked(outcomes)) && !WantsAll(consMedia)
      ensures calls[c].starts == old(calls[c].starts) + if HasTrack(Looked(outcomes), list) then {i} else {}
      ensures calls[c].bare == old(calls[c].bare) + if HasBare(Looked(outcomes), list) then {i} else {}
      ensures Handed(more) == Handed(steps) + Times(i, Count(outcomes)) && Dialled(more) == Dialled(steps)
    {
      hide Good, Path, Apply, Enabled, Handed, Dialled, LooksAt, Looking, WantsAll, HasTrack, HasBare, Count, Times, MatchMedia;
      outcomes, found, more := [], false, steps;
      NothingLooked(i, list, consMedia);
      assert Handed(steps) + [] == Handed(steps);
      while |outcomes| < |list|
        invariant |outcomes| <= |list| && During(s, more, c) && order == old(order) && i in producers && producers[i].life.phase != Idle
        invariant Looking(outcomes, list, consMedia)
        invariant calls[c].starts == old(calls[c].starts) + if HasTrack(Looked(outcomes), list) then {i} else {}
        invariant calls[c].bare == old(calls[c].bare) + if HasBare(Looked(outcomes), list) then {i} else {}
        invariant Handed(more) == Handed(steps) + Times(i, Count(outcomes)) && Dialled(more) == Dialled(steps)
        decreases |list| - |outcomes|
      {
        var outcome;
        outcome, more := TryMedia(c, i, list[|outcomes|], consMedia, s, more);
        LookedNext(outcomes, outcome, list, consMedia);
        NextTrack(outcomes, outcome, list);
        TimesNext(i, Count(outcomes), Handed(steps));
        outcomes := outcomes + [outcome];
        if outcome == Accepted {
          var all := MatchAll(consMedia);
          if !all {
            assert outcomes[|outcomes| - 1] == Accepted;
            return outcomes, true, more;
          }
        }
      }
      LookedAll(outcomes, list, consMedia);
    }

    // Some producer but the consumer itself offers what it wants.
    ghost predicate Wanted(consMedias: seq<Media>, selves: set<nat>, medias: nat -> seq<Media>)
      reads this`order
    {
      exists m, n :: 0 <= m < |consMedias| && 0 <= n < |order| && order[n] !in selves && Offers(medias(order[n]), consMedias[m])
    }

    // It wants what producer i offers.
    ghost predicate WantedFrom(i: nat, consMedias: seq<Media>, selves: set<nat>, medias: nat -> seq<Media>) {
      i !in selves && exists m :: 0 <= m < |consMedias| && Offers(medias(i), consMedias[m])
    }

    // The loop over the producers for one media of the consumer. failed are the
    // producers with an error.
    method TryProducers(c: nat, consMedia: Media, selves: set<nat>, medias: nat -> seq<Media>, failed: seq<bool>, ghost s: State, ghost steps: seq<Stream.Step>)
      returns (visits: seq<Visit>, ghost more: seq<Stream.Step>)
      requires During(s, steps, c) && |failed| == |order|
      modifies this
      ensures During(s, more, c) && order == old(order)
      ensures Visits(visits, order, selves, failed, medias, consMedia) && |visits| <= |order|
      ensures forall i :: i in calls[c].starts <==> i in old(calls[c].starts) || TrackOf(visits, order, medias, i)
      ensures forall i :: i in calls[c].bare <==> i in old(calls[c].bare) || BareOf(visits, order, medias, i)
      ensures Handed(more) == Handed(steps) + TakenOf(visits, order) && Dialled(more) == Dialled(steps) + DialledOf(visits, order)
    {
      hide Good, Path, Apply, Enabled, Handed, Dialled, Visits, Visiting, TrackOf, BareOf, TakenOf, DialledOf, LooksAt, HasTrack, HasBare, WantsAll, IsMatch, Count, Times;
      visits, more := [], steps;
      ghost var starts, bare := calls[c].starts, calls[c].bare;
      NothingVisited(order, selves, failed, medias, consMedia);
      assert Handed(steps) + [] == Handed(steps) && Dialled(steps) + [] == Dialled(steps);
      while |visits| < |order|
        invariant |visits| <= |order| && During(s, more, c) && order == old(order)
        invariant Visiting(visits, order, selves, failed, medias, consMedia)
        invariant forall i :: i in calls[c].starts <==> i in starts || TrackOf(visits, order, medias, i)
        invariant forall i :: i in calls[c].bare <==> i in bare || BareOf(visits, order, medias, i)
        invariant Handed(more) == Handed(steps) + TakenOf(visits, order) && Dialled(more) == Dialled(steps) + DialledOf(visits, order)
        decreases |order| - |visits|
      {
        var i := order[|visits|];
        var visit, found := PassedOver, false;
        ghost var before := more;
        NotLooked(medias(i));
        if i !in selves && !failed[|visits|] {
          InList(Current());
          visit, found, more := TryProducer(c, i, consMedia, medias, s, more);
        }
        VisitNext(visits, visit, order, selves, failed, medias, consMedia);
        AddTaken(visits, visit, order, Handed(steps), Dialled(steps));
        AddTracks(visits, visit, order, medias);
        visits := visits + [visit];
        if found {
          return;
        }
      }
      VisitedAll(visits, order, selves, failed, medias, consMedia);
    }

    // consN := s.pending.Add(1) - 1
    method BeginStep(c: nat) returns (ghost steps: seq<Stream.Step>)
      requires Valid() && Numbered() && Enabled(Current(), Begin(c))
      modifies this`calls, this`pending
      ensures During(old(Current()), steps, c) && calls[c] == Matching({}, {}, Nothing)
      ensures Handed(steps) == [] && Dialled(steps) == [] && order == old(order)
    {
      hide Good, Path, Enabled, Apply, Handed, Dialled;
      NothingHanded(c);
      ghost var s := Current();
      EveryStepKeeps(s, Begin(c));
      StartPath(s, c);
      pending := pending + 1;
      calls := calls[c := Matching({}, {}, Nothing)];
      steps := [Begin(c)];
      assert Current() == Apply(s, Begin(c));
    }

    // selves are the producers whose URL is the consumer's own source. The table
    // has, for each media of the consumer, what came of each producer.
    method AddConsumer(c: nat, consMedias: seq<Media>, selves: set<nat>, medias: nat -> seq<Media>)
      returns (ok: bool, table: seq<seq<Visit>>, ghost steps: seq<Stream.Step>)
      requires Valid() && Numbered() && Enabled(Current(), Begin(c))
      modifies this
      ensures order == old(order) && |table| == |consMedias| && AllVisits(table, order, selves, medias, consMedias)
      ensures forall m :: 0 <= m < |table| ==> |table[m]| <= |order|
      ensures Handed(steps) == TakenOfAll(table, order) && Dialled(steps) == DialledOfAll(table, order)
      ensures ok <==> Handed(steps) != []
      ensures ok ==> c in consumers && forall i :: i in consumers[c] <==> AllTracks(table, order, medias, i)
      ensures (forall m :: 0 <= m < |table| ==> AllSmooth(table[m])) ==>
                forall i :: i in Handed(steps) <==> exists m :: 0 <= m < |consMedias| && Chosen(i, order, selves, medias, consMedias[m])
      ensures ok && (forall m :: 0 <= m < |table| ==> AllSmooth(table[m])) && (forall i :: i in order ==> !TwoWay(medias(i))) ==>
                forall i :: i in consumers[c] <==> exists m :: 0 <= m < |consMedias| && Chosen(i, order, selves, medias, consMedias[m])
      ensures ok ==> Wanted(consMedias, selves, medias)
      ensures (forall m :: 0 <= m < |table| ==> AllSmooth(table[m])) && Wanted(consMedias, selves, medias) ==> ok
      ensures ok ==> forall i :: i in consumers[c] ==> WantedFrom(i, consMedias, selves, medias)
      ensures ok && (forall i :: i in order ==> !TwoWay(medias(i))) ==> consumers[c] != {}
      ensures Valid() && Path(old(Current()), steps) == Some(Current()) && |steps| > 1 && steps[0] == Begin(c)
      ensures forall k :: 0 < k < |steps| ==> IsOf(steps[k], c)
      ensures End(c) in steps && (if ok then steps[|steps| - 1] == Return(c) && c in consumers else consumers == old(consumers) && c !in calls)
    {
      hide Good, Path, Apply, Enabled, IsOf, Handed, Dialled, Wanted, WantedFrom, AllVisits, AllTracks, AllBares, AllSmooth, Chosen, TakenOfAll, DialledOfAll, TwoWay;
      ghost var s := Current();
      steps := BeginStep(c);
      table, steps := MatchMedias(c, consMedias, selves, medias, s, steps);
      ghost var matching, starts, bare := steps, calls[c].starts, calls[c].bare;
      assert Handed(matching) == TakenOfAll(table, order) && Dialled(matching) == DialledOfAll(table, order);
      ok, steps := Finish(c, s, steps);
      WholeCall(matching, steps, c);
      SameHands(matching, steps);
      TakenAre(table, order, selves, medias, consMedias, starts, bare);
      TakenAreWanted(table, selves, medias, consMedias, starts, bare);
    }

    // The loop over the medias of the consumer.
    method MatchMedias(c: nat, consMedias: seq<Media>, selves: set<nat>, medias: nat -> seq<Media>, ghost s: State, ghost steps: seq<Stream.Step>)
      returns (table: seq<seq<Visit>>, ghost more: seq<Stream.Step>)
      requires During(s, steps, c) && calls[c].starts == {} && calls[c].bare == {}
      modifies this
      ensures During(s, more, c) && order == old(order)
      ensures |table| == |consMedias| && AllVisits(table, order, selves, medias, consMedias)
      ensures forall m :: 0 <= m < |table| ==> |table[m]| <= |order|
      ensures forall i :: i in calls[c].starts <==> AllTracks(table, order, medias, i)
      ensures forall i :: i in calls[c].bare <==> AllBares(table, order, medias, i)
      ensures Handed(more) == Handed(steps) + TakenOfAll(table, order) && Dialled(more) == Dialled(steps) + DialledOfAll(table, order)
    {
      hide Good, Path, Apply, Enabled, Handed, Dialled, AllVisits, AllTracks, AllBares, TakenOfAll, DialledOfAll, AllFailed, Failed,
        TakenOf, DialledOf, Visits, TrackOf, BareOf, SoFar, AllNumbered, AllGiven, Node.Distinct;
      table, more := [], steps;
      var failed := seq(|order|, _ => false);
      NothingTried(order, selves, medias, consMedias);
      assert failed == AllFailed(table, |order|);
      assert Handed(steps) + [] == Handed(steps) && Dialled(steps) + [] == Dialled(steps);
      while |table| < |consMedias|
        invariant |table| <= |consMedias| && During(s, more, c) && order == old(order)
        invariant AllVisits(table, order, selves, medias, consMedias) && failed == AllFailed(table, |order|)
        invariant forall m :: 0 <= m < |table| ==> |table[m]| <= |order|
        invariant forall i :: i in calls[c].starts <==> AllTracks(table, order, medias, i)
        invariant forall i :: i in calls[c].bare <==> AllBares(table, order, medias, i)
        invariant Handed(more) == Handed(steps) + TakenOfAll(table, order) && Dialled(more) == Dialled(steps) + DialledOfAll(table, order)
        decreases |consMedias| - |table|
      {
        var visits;
        visits, more := TryProducers(c, consMedias[|table|], selves, medias, failed, s, more);
        TableNext(table, visits, order, selves, medias, consMedias);
        AddAllTracks(table, visits, order, medias);
        failed := Failed(failed, visits);
        table := table + [visits];
      }
    }

    lemma TakenAreWanted(table: seq<seq<Visit>>, selves: set<nat>, medias: nat -> seq<Media>, consMedias: seq<Media>, starts: set<nat>, bare: set<nat>)
      requires |table| == |consMedias| && AllVisits(table, order, selves, medias, consMedias) && forall m :: 0 <= m < |table| ==> |table[m]| <= |order|
      requires forall i :: i in starts <==> AllTracks(table, order, medias, i)
      requires forall i :: i in bare <==> AllBares(table, order, medias, i)
      ensures forall i :: i in starts + bare ==> i in order && WantedFrom(i, consMedias, selves, medias)
      ensures starts + bare != {} ==> Wanted(consMedias, selves, medias)
      ensures (forall m :: 0 <= m < |table| ==> AllSmooth(table[m])) && Wanted(consMedias, selves, medias) ==> starts + bare != {}
      ensures (forall i :: i in order ==> !TwoWay(medias(i))) ==> bare == {}
    {
      hide Offers, AllTracks, AllBares, AllVisits, AllSmooth, TwoWay, TakenOfAll;
      forall i | i in starts + bare ensures i in order && WantedFrom(i, consMedias, selves, medias) {
        TakenOffers(table, order, selves, medias, consMedias, i);
      }
      if i :| i in starts + bare {
        var n :| 0 <= n < |order| && order[n] == i;
        var m :| 0 <= m < |consMedias| && Offers(medias(i), consMedias[m]);
        assert order[n] !in selves && Offers(medias(order[n]), consMedias[m]);
      }
      TakenAre(table, order, selves, medias, consMedias, starts, bare);
      if (forall m :: 0 <= m < |table| ==> AllSmooth(table[m])) && Wanted(consMedias, selves, medias) {
        var m, n :| 0 <= m < |consMedias| && 0 <= n < |order| && order[n] !in selves && Offers(medias(order[n]), consMedias[m]);
        var i := SomebodyChosen(order, selves, medias, consMedias[m], n);
        AllTaken(table, order, selves, medias, consMedias, i);
      }
      if i :| i in bare {
        BareIsTwoWay(table, order, medias, i);
      }
    }

    // s.pending.Add(-1); the last call owes a sweep.
    method EndStep(c: nat, ghost s: State, ghost steps: seq<Stream.Step>) returns (starts: set<nat>, bare: set<nat>, ghost more: seq<Stream.Step>)
      requires During(s, steps, c)
      modifies this`calls, this`pending, this`due
      ensures starts == old(calls[c].starts) && bare == old(calls[c].bare) && more == steps + [End(c)]
      ensures Current() == Ended(old(Current()), c) && Valid() && Path(s, more) == Some(Current()) && lock == None
      ensures if starts + bare == {} then c !in calls else c in calls && calls[c] == Matched(starts, bare)
      ensures pending == 0 ==> due > 0
    {
      hide Good, Path, Apply, Enabled;
      ghost var before := Current();
      EndIs(before, c);
      PathSnoc(s, steps, End(c));
      starts, bare := calls[c].starts, calls[c].bare;
      due := due + if pending == 1 then 1 else 0;
      pending := pending - 1;
      calls := if starts + bare == {} then calls - {c} else calls[c := Matched(starts, bare)];
      assert Current() == Ended(before, c);
      more := steps + [End(c)];
    }

    // From the end of the matching to the return.
    method Finish(c: nat, ghost s: State, ghost steps: seq<Stream.Step>) returns (ok: bool, ghost more: seq<Stream.Step>)
      requires During(s, steps, c)
      modifies this
      ensures Valid() && order == old(order) && Path(s, more) == Some(Current())
      ensures ok == (old(Found(calls[c])) != {})
      ensures steps + [End(c)] <= more && forall k :: |steps| < k < |more| ==> IsSweeping(more[k]) || (IsReturning(more[k]) && more[k].c == c)
      ensures if ok then more[|more| - 1] == Return(c) && c in consumers && consumers[c] == old(calls[c].starts)
              else consumers == old(consumers) && c !in calls
    {
      hide Good, Path, Apply, Enabled, StopIdle, Ended;
      var starts, bare;
      starts, bare, more := EndStep(c, s, steps);
      if pending == 0 {
        SweptSame(Current());
        more := StopProducers(s, more);
      }
      ok := starts + bare != {};
      if ok {
        more := Run(c, starts, bare, s, more);
      }
    }

    // The consumer joins the list, and every producer that matched is started.
    method Run(c: nat, starts: set<nat>, bare: set<nat>, ghost s: State, ghost steps: seq<Stream.Step>) returns (ghost more: seq<Stream.Step>)
      requires Valid() && Path(s, steps) == Some(Current()) && c in calls && calls[c] == Matched(starts, bare)
      modifies this`producers, this`calls, this`consumers
      ensures Valid() && Path(s, more) == Some(Current()) && c in consumers && consumers[c] == starts
      ensures steps <= more && |more| > 0 && more[|more| - 1] == Return(c)
      ensures forall k :: |steps| <= k < |more| ==> IsReturning(more[k]) && more[k].c == c
    {
      hide Good, Path, Apply, Enabled;
      ghost var before := Current();
      CommitIs(before, c, starts, bare);
      EveryStepKeeps(before, Commit(c));
      PathSnoc(s, steps, Commit(c));
      var left := starts + bare;
      calls := calls[c := Starting(starts, bare, left)];
      more := steps + [Commit(c)];
      while left != {}
        invariant Valid() && Path(s, more) == Some(Current()) && c in calls && calls[c] == Starting(starts, bare, left)
        invariant steps <= more && forall k :: |steps| <= k < |more| ==> IsReturning(more[k]) && more[k].c == c
      {
        var i :| i in left;
        StartsOf(Current(), c, i);
        more := StartStep(c, i, s, more);
        left := left - {i};
      }
      before := Current();
      ReturnIs(before, c);
      EveryStepKeeps(before, Return(c));
      PathSnoc(s, more, Return(c));
      calls := calls - {c};
      consumers := consumers[c := starts];
      more := more + [Return(c)];
    }

    // prod.start()
    method StartStep(c: nat, i: nat, ghost s: State, ghost steps: seq<Stream.Step>) returns (ghost more: seq<Stream.Step>)
      requires Valid() && Path(s, steps) == Some(Current()) && c in calls && calls[c].Starting? && i in calls[c].left && i in producers
      modifies this`producers, this`calls
      ensures Valid() && Path(s, more) == Some(Current()) && more == steps + [StartOne(c, i)] && c in calls
      ensures calls[c] == Starting(old(calls[c].starts), old(calls[c].bare), old(calls[c].left) - {i})
    {
      hide Good, Path, After;
      ghost var before := Current();
      EveryStepKeeps(before, StartOne(c, i));
      PathSnoc(s, steps, StartOne(c, i));
      more := steps + [StartOne(c, i)];
      producers := producers[i := producers[i].(life := After(producers[i], Start))];
      calls := calls[c := Starting(calls[c].starts, calls[c].bare, calls[c].left - {i})];
      assert Current() == Apply(before, StartOne(c, i));
    }
  }

  // prodStarts: the producers that matched.
  function Found(call: Call): set<nat> {
    call.starts + call.bare
  }

  // The producers to which steps hand something over, or which they match
  // without a track, and the producers they dial.
  function Handed(steps: seq<Stream.Step>): seq<nat> {
    if steps == [] then []
    else
      var last := steps[|steps| - 1];
      Handed(steps[..|steps| - 1]) + if last.AddToConsumer? || last.AddToProducer? || last.MatchBare? then [last.i] else []
  }

  function Dialled(steps: seq<Stream.Step>): seq<nat> {
    if steps == [] then []
    else
      var last := steps[|steps| - 1];
      Dialled(steps[..|steps| - 1]) + if last.DialFor? then [last.i] else []
  }

  // The step hands over a track of the codec that the two medias share: the
  // producer's codec when it sends, the consumer's when the consumer does.
  predicate HandsOver(step: Stream.Step, i: nat, media: Media, consMedia: Media, codecs: map<nat, Node.Codec>) {
    var pair := MatchMedia(media, consMedia);
    pair.Some? &&
    match media.direction
    case Recvonly => step.AddToConsumer? && step.i == i && step.t in codecs && codecs[step.t] == pair.value.0
    case Sendonly => step.AddToProducer? && step.i == i && step.t in codecs && codecs[step.t] == pair.value.1
    case Sendrecv => step.MatchBare? && step.i == i
  }

  lemma OneMore(steps: seq<Stream.Step>, step: Stream.Step)
    ensures Handed(steps + [step])
            == Handed(steps) + if step.AddToConsumer? || step.AddToProducer? || step.MatchBare? then [step.i] else []
    ensures Dialled(steps + [step]) == Dialled(steps) + if step.DialFor? then [step.i] else []
  {
    assert (steps + [step])[..|steps|] == steps;
  }

  lemma NothingHanded(c: nat)
    ensures Handed([Begin(c)]) == [] && Dialled([Begin(c)]) == []
  {
    assert [Begin(c)][..0] == [];
  }

  // What follows the matching hands nothing over.
  lemma {:induction false} SameHands(matching: seq<Stream.Step>, steps: seq<Stream.Step>)
    requires matching <= steps
    requires forall k :: |matching| <= k < |steps| ==> steps[k].End? || IsSweeping(steps[k]) || IsReturning(steps[k])
    ensures Handed(steps) == Handed(matching) && Dialled(steps) == Dialled(matching)
    decreases |steps|
  {
    if |steps| > |matching| {
      var n := |steps| - 1;
      SameHands(matching, steps[..n]);
      OneMore(steps[..n], steps[n]);
      assert steps[..n] + [steps[n]] == steps;
    } else {
      assert steps == matching;
    }
  }

  lemma NotLooked(list: seq<Media>)
    ensures !HasTrack(NotDialled, list) && !HasBare(NotDialled, list) && !IsMatch(NotDialled)
    ensures !HasTrack(PassedOver, list) && !HasBare(PassedOver, list) && !IsMatch(PassedOver)
  {
  }

  lemma NothingLooked(i: nat, list: seq<Media>, consMedia: Media)
    ensures Looking([], list, consMedia) && !HasTrack(Looked([]), list) && !HasBare(Looked([]), list)
    ensures Times(i, Count([])) == []
  {
  }

  lemma TimesNext(i: nat, n: nat, front: seq<nat>)
    ensures Times(i, n + 1) == Times(i, n) + [i] && (front + Times(i, n)) + [i] == front + Times(i, n + 1)
    ensures (front + Times(i, n)) + [] == front + Times(i, n)
  {
  }

  lemma NothingVisited(order: seq<nat>, selves: set<nat>, failed: seq<bool>, medias: nat -> seq<Media>, consMedia: Media)
    requires |failed| == |order|
    ensures Visiting([], order, selves, failed, medias, consMedia) && TakenOf([], order) == [] && DialledOf([], order) == []
    ensures forall i :: !TrackOf([], order, medias, i) && !BareOf([], order, medias, i)
  {
  }

  lemma AddTaken(visits: seq<Visit>, next: Visit, order: seq<nat>, handed: seq<nat>, dialled: seq<nat>)
    requires |visits| < |order|
    ensures (handed + TakenOf(visits, order)) + (if next.Looked? then Times(order[|visits|], Count(next.outcomes)) else [])
            == handed + TakenOf(visits + [next], order)
    ensures (dialled + DialledOf(visits, order)) + (if next.Looked? then [order[|visits|]] else []) == dialled + DialledOf(visits + [next], order)
    ensures !next.Looked? ==> TakenOf(visits + [next], order) == TakenOf(visits, order) && DialledOf(visits + [next], order) == DialledOf(visits, order)
  {
    hide Times, Count, TakenOf, DialledOf;
    TakenNext(visits, next, order);
  }

  lemma AddTracks(visits: seq<Visit>, next: Visit, order: seq<nat>, medias: nat -> seq<Media>)
    requires |visits| < |order|
    ensures forall i :: TrackOf(visits + [next], order, medias, i) <==> TrackOf(visits, order, medias, i) || (i == order[|visits|] && HasTrack(next, medias(i)))
    ensures forall i :: BareOf(visits + [next], order, medias, i) <==> BareOf(visits, order, medias, i) || (i == order[|visits|] && HasBare(next, medias(i)))
  {
    hide HasTrack, HasBare, TrackOf, BareOf;
    forall i
      ensures TrackOf(visits + [next], order, medias, i) <==> TrackOf(visits, order, medias, i) || (i == order[|visits|] && HasTrack(next, medias(i)))
      ensures BareOf(visits + [next], order, medias, i) <==> BareOf(visits, order, medias, i) || (i == order[|visits|] && HasBare(next, medias(i)))
    {
      TracksNext(visits, next, order, medias, i);
    }
  }

  lemma NothingTried(order: seq<nat>, selves: set<nat>, medias: nat -> seq<Media>, consMedias: seq<Media>)
    ensures AllVisits([], order, selves, medias, consMedias) && AllFailed([], |order|) == seq(|order|, _ => false)
    ensures TakenOfAll([], order) == [] && DialledOfAll([], order) == []
    ensures forall i :: !AllTracks([], order, medias, i) && !AllBares([], order, medias, i)
  {
  }

  lemma AddAllTracks(table: seq<seq<Visit>>, next: seq<Visit>, order: seq<nat>, medias: nat -> seq<Media>)
    requires |next| <= |order| && forall m :: 0 <= m < |table| ==> |table[m]| <= |order|
    ensures forall m :: 0 <= m < |table + [next]| ==> |(table + [next])[m]| <= |order|
    ensures forall i :: AllTracks(table + [next], order, medias, i) <==> AllTracks(table, order, medias, i) || TrackOf(next, order, medias, i)
    ensures forall i :: AllBares(table + [next], order, medias, i) <==> AllBares(table, order, medias, i) || BareOf(next, order, medias, i)
  {
    hide TrackOf, BareOf, AllTracks, AllBares;
    forall i
      ensures AllTracks(table + [next], order, medias, i) <==> AllTracks(table, order, medias, i) || TrackOf(next, order, medias, i)
      ensures AllBares(table + [next], order, medias, i) <==> AllBares(table, order, medias, i) || BareOf(next, order, medias, i)
    {
      TracksOfAll(table, next, order, medias, i);
    }
  }

  // A step of a call of AddConsumer after its begin.
  predicate IsOf(step: Stream.Step, c: nat) {
    IsSweeping(step) || step == End(c) || ((IsMatching(step) || IsReturning(step)) && step.c == c)
  }

  lemma WholeCall(matching: seq<Stream.Step>, steps: seq<Stream.Step>, c: nat)
    requires matching != [] && matching[0] == Begin(c) && forall k :: 0 < k < |matching| ==> IsMatching(matching[k]) && matching[k].c == c
    requires matching + [End(c)] <= steps
    requires forall k :: |matching| < k < |steps| ==> IsSweeping(steps[k]) || (IsReturning(steps[k]) && steps[k].c == c)
    ensures |steps| > 1 && steps[0] == Begin(c) && End(c) in steps && forall k :: 0 < k < |steps| ==> IsOf(steps[k], c)
  {
    assert steps[|matching|] == (matching + [End(c)])[|matching|];
    assert forall k :: 0 <= k < |matching| ==> steps[k] == (matching + [End(c)])[k];
  }

  // What the call has matched is the same.
  predicate SameFound(a: Call, b: Call) {
    a.starts == b.starts && a.bare == b.bare
  }

  // Steps of the matching loop, of the rest of AddConsumer and of stopProducers.
  predicate IsMatching(step: Stream.Step) {
    step.DialFor? || step.TakeTrack? || step.AddToConsumer? || step.GetBack? || step.AddToProducer? || step.MatchBare?
  }

  predicate IsReturning(step: Stream.Step) {
    step.Commit? || step.StartOne? || step.Return?
  }

  predicate IsSweeping(step: Stream.Step) {
    step.Check? || step.Lock? || step.Look? || step.StopNow? || step.Unlock?
  }

  // ---- Lists of producers -----------------------------------------------------------------------

  lemma HasChildIs(s: State, i: nat, busy: bool)
    requires i in s.producers
    requires var p := s.producers[i];
             busy <==> (exists t :: t in p.receivers && t in s.tracks && s.tracks[t].childs != []) ||
                       (exists t :: t in p.senders && t in s.tracks && s.tracks[t].childs != [])
    ensures busy == HasChild(s, i)
  {
    var p := s.producers[i];
    assert forall t :: t in p.receivers + p.senders <==> t in p.receivers || t in p.senders;
  }

  // Stopping a producer without children touches no track.
  lemma StoppedIsQuiet(s: State, i: nat)
    requires Good(s) && i in s.producers && !HasChild(s, i)
    ensures s.producers[i].life.phase != Idle ==> CloseAll(s.tracks, Prod(i), ConnOf(s.producers[i])) == s.tracks
  {
    hide HasChild, CloseAll, Good;
    if s.producers[i].life.phase != Idle {
      GoodGraph(s);
      StopTouchesNothing(s, i);
    }
  }

  lemma StopNowIs(s: State, i: nat)
    requires Enabled(s, StopNow) && s.lock.value.doomed == Some(i)
    ensures var p := s.producers[i]; var r := Apply(s, StopNow);
            && r.producers == s.producers[i := StopOne(p)] && r.lock == Some(Sweep(s.lock.value.todo - {i}, None))
            && r.tracks == (if p.life.phase != External && p.life.phase != Idle then CloseAll(s.tracks, Prod(i), ConnOf(p)) else s.tracks)
            && r == s.(producers := r.producers, tracks := r.tracks, lock := r.lock)
  {
    hide CloseAll, StopOne;
    IdleStays(s.producers[i]);
  }

  lemma InList(s: State)
    requires Good(s)
    ensures s.listed <= s.producers.Keys
  {
    hide Known, Heard, Owned, Named, Counted;
  }

  lemma IdledKeys(s: State)
    ensures Idled(s) == s.(producers := Idled(s).producers) && Idled(s).producers.Keys == s.producers.Keys
  {
    hide HasChild, StopOne;
  }

  // The producers of the list from the k-th on.
  function Rest(order: seq<nat>, k: nat): set<nat> {
    set j | k <= j < |order| :: order[j]
  }

  lemma WholeList(order: seq<nat>)
    ensures (set i | i in order) == Rest(order, 0) && Rest(order, |order|) == {}
  {
  }

  lemma NotEarlier(order: seq<nat>, k: nat)
    requires Node.Distinct(order) && k < |order|
    ensures order[k] !in order[..k]
  {
  }

  lemma RestOfList(order: seq<nat>, k: nat)
    requires Node.Distinct(order) && k < |order|
    ensures order[k] in Rest(order, k) && Rest(order, k) - {order[k]} == Rest(order, k + 1)
  {
  }

  // The first k producers of the list have been dealt with, the others have not.
  ghost predicate IdledTo(s: State, producers: map<nat, Stream.Producer>, order: seq<nat>, k: nat)
    requires k <= |order|
  {
    && producers.Keys == s.producers.Keys == Idled(s).producers.Keys
    && (forall i :: i in order ==> i in producers)
    && (forall j :: 0 <= j < k ==> producers[order[j]] == Idled(s).producers[order[j]])
    && forall i :: i in producers && i !in order[..k] ==> producers[i] == s.producers[i]
  }

  lemma NobodyIdled(s: State, order: seq<nat>)
    requires s.listed == (set i | i in order) && s.listed <= s.producers.Keys
    ensures IdledTo(s, s.producers, order, 0)
  {
    IdledKeys(s);
    hide Idled;
    forall i | i in order ensures i in s.producers {
      assert i in s.listed;
    }
  }

  lemma NotIdledYet(s: State, producers: map<nat, Stream.Producer>, order: seq<nat>, k: nat)
    requires Node.Distinct(order) && k < |order| && IdledTo(s, producers, order, k)
    ensures order[k] in producers && order[k] in s.producers && producers[order[k]] == s.producers[order[k]]
  {
    NotEarlier(order, k);
    hide Idled;
  }

  lemma IdledNext(s: State, producers: map<nat, Stream.Producer>, order: seq<nat>, k: nat)
    requires Node.Distinct(order) && k < |order| && IdledTo(s, producers, order, k) && s.listed == (set i | i in order)
    requires order[k] in producers && order[k] in s.producers
    ensures var p := s.producers[order[k]];
            IdledTo(s, producers[order[k] := if HasChild(s, order[k]) then p else StopOne(p)], order, k + 1)
  {
    hide HasChild, StopOne, Idled;
    NotEarlier(order, k);
    IdledIs(s, order[k]);
    assert order[..k + 1] == order[..k] + [order[k]];
  }

  lemma AllIdled(s: State, producers: map<nat, Stream.Producer>, order: seq<nat>)
    requires s.listed == (set i | i in order) && IdledTo(s, producers, order, |order|)
    ensures producers == Idled(s).producers
  {
    hide Idled;
    assert order[..|order|] == order;
    forall i | i in producers ensures producers[i] == Idled(s).producers[i] {
      IdledIs(s, i);
    }
  }

  lemma SameIdled(s: State, r: State)
    requires r.producers == s.producers && r.tracks == s.tracks && r.listed == s.listed
    ensures Idled(r).producers == Idled(s).producers
  {
    hide StopOne;
    forall i | i in s.producers ensures HasChild(r, i) == HasChild(s, i) {
      SameChildren(s, r, i);
    }
    hide HasChild;
  }

  // ---- Single steps --------------------------------------------------------------------------------

  lemma FirstStep(s: State, step: Stream.Step)
    requires Enabled(s, step)
    ensures Path(s, [step]) == Some(Apply(s, step))
  {
    hide Enabled, Apply;
    assert [step][1..] == [];
  }

  predicate AllNumbered(tracks: map<nat, Track>, next: nat, codecs: set<nat>) {
    forall t :: t in tracks ==> t < next && t in codecs
  }

  predicate AllGiven(tracks: map<nat, Track>, given: map<nat, seq<nat>>) {
    forall c, t :: c in given && t in given[c] ==> t in tracks && tracks[t].owner == Cons(c)
  }

  lemma OneMoreNumber(tracks: map<nat, Track>, next: nat, codecs: set<nat>)
    requires AllNumbered(tracks, next, codecs)
    ensures next !in tracks && AllNumbered(tracks, next + 1, codecs + {next})
  {
  }

  lemma OneMoreGiven(tracks: map<nat, Track>, given: map<nat, seq<nat>>, c: nat, t: nat)
    requires AllGiven(tracks, given) && t in tracks && tracks[t].owner == Cons(c)
    ensures AllGiven(tracks, given[c := (if c in given then given[c] else []) + [t]])
  {
  }

  lemma GivenIs(tracks: map<nat, Track>, given: map<nat, seq<nat>>, c: nat, t: nat)
    requires AllGiven(tracks, given) && c in given && t in given[c]
    ensures t in tracks && tracks[t].owner == Cons(c)
  {
  }

  // The steps of a call so far: its begin, and steps of the matching loop.
  predicate SoFar(steps: seq<Stream.Step>, c: nat) {
    steps != [] && steps[0] == Begin(c) && forall k :: 0 < k < |steps| ==> IsMatching(steps[k]) && steps[k].c == c
  }

  // One step more.
  lemma NextStep(s: State, steps: seq<Stream.Step>, before: State, step: Stream.Step, c: nat, next: nat, codecs: set<nat>, given: map<nat, seq<nat>>)
    requires Path(s, steps) == Some(before) && Good(before) && before.lock == None && before.moving == {} && SoFar(steps, c)
    requires Enabled(before, step) && IsMatching(step) && step.c == c
    requires step.TakeTrack? || step.GetBack? ==> step.t < next && step.t in codecs
    requires AllNumbered(before.tracks, next, codecs) && AllGiven(before.tracks, given)
    ensures var r := Apply(before, step);
            && Path(s, steps + [step]) == Some(r) && Good(r) && SoFar(steps + [step], c)
            && r.consumers == before.consumers && r.producers.Keys == before.producers.Keys && Busy(r, c)
            && AllNumbered(r.tracks, next, codecs) && AllGiven(r.tracks, given)
  {
    hide Good, Enabled, Apply, Path, IsMatching;
    PathSnoc(s, steps, step);
    EveryStepKeeps(before, step);
    MatchKeeps(before, step, next, codecs, given);
  }

  lemma TakeFields(s: State, c: nat, i: nat, t: nat)
    requires Good(s) && Enabled(s, Stream.Step.TakeTrack(c, i, t)) && t !in s.producers[i].receivers
    ensures var p := s.producers[i]; var life := After(p, Lifecycle.GetTrack(false, true)); var r := Apply(s, Stream.Step.TakeTrack(c, i, t));
            && r.producers == s.producers[i := Stream.Producer(life, p.receivers + [t], p.senders)]
            && r.tracks == s.tracks[t := Track(Prod(i), if life.conn.Some? then life.conn.value else 0, [])]
            && r == s.(producers := r.producers, tracks := r.tracks, calls := s.calls[c := Matching(s.calls[c].starts, s.calls[c].bare, Took(i, t))])
  {
    hide Good, After;
  }

  lemma HearFields(s: State, c: nat, i: nat, t: nat)
    requires Enabled(s, AddToProducer(c, i, t))
    ensures var p := s.producers[i]; var r := Apply(s, AddToProducer(c, i, t));
            && r.producers == s.producers[i := Stream.Producer(After(p, Lifecycle.AddTrack(true)), p.receivers, p.senders + [t])]
            && r.tracks == s.tracks[t := s.tracks[t].(childs := s.tracks[t].childs + [Prod(i)])]
            && r == s.(producers := r.producers, tracks := r.tracks, calls := s.calls[c := Matching(s.calls[c].starts + {i}, s.calls[c].bare, Nothing)])
  {
    hide After;
  }

  lemma MatchKeeps(s: State, step: Stream.Step, next: nat, codecs: set<nat>, given: map<nat, seq<nat>>)
    requires Enabled(s, step) && IsMatching(step)
    requires step.TakeTrack? || step.GetBack? ==> step.t < next && step.t in codecs
    requires AllNumbered(s.tracks, next, codecs) && AllGiven(s.tracks, given)
    ensures var r := Apply(s, step);
            && r.consumers == s.consumers && r.pending == s.pending && r.producers.Keys == s.producers.Keys && Busy(r, step.c)
            && AllNumbered(r.tracks, next, codecs) && AllGiven(r.tracks, given)
  {
    hide After;
  }

  lemma TakeIs(s: State, c: nat, i: nat, t: nat)
    requires s.moving == {}
    requires Good(s) && Busy(s, c) && i in s.producers && s.producers[i].life.phase != Idle && (t in s.producers[i].receivers || t !in s.tracks)
    ensures Enabled(s, Stream.Step.TakeTrack(c, i, t))
    ensures var r := Apply(s, Stream.Step.TakeTrack(c, i, t));
            && i in r.producers && r.producers[i].life.phase != Idle && t in r.tracks
            && r.calls == Holds(s, c, Took(i, t)).calls
  {
    hide Heard, Owned, Named, Locked, Counted;
    KnownLife(s, i);
    SenderTrack(s, i, t);
    GetTrackTakes(s.producers[i]);
    hide Known;
  }

  lemma GiveIs(s: State, c: nat, t: nat)
    requires Busy(s, c) && (t in s.tracks ==> s.tracks[t].owner == Cons(c))
    ensures Enabled(s, GetBack(c, t))
    ensures var r := Apply(s, GetBack(c, t));
            r.producers == s.producers && t in r.tracks && r.tracks[t].owner == Cons(c) && r.calls == Holds(s, c, Got(t)).calls
  {
  }

  lemma AddIs(s: State, c: nat, i: nat, t: nat)
    requires Busy(s, c) && s.calls[c].held == Took(i, t) && t in s.tracks
    ensures Enabled(s, AddToConsumer(c, i, t))
    ensures var r := Apply(s, AddToConsumer(c, i, t)); r.producers == s.producers && r.calls == Starts(s, c, i).calls
  {
  }

  lemma HearIs(s: State, c: nat, i: nat, t: nat)
    requires s.moving == {}
    requires Good(s) && Busy(s, c) && s.calls[c].held == Got(t) && i in s.producers && t in s.tracks && s.producers[i].life.phase != Idle
    ensures Enabled(s, AddToProducer(c, i, t))
    ensures var r := Apply(s, AddToProducer(c, i, t));
            i in r.producers && r.producers[i].life.phase != Idle && r.calls == Starts(s, c, i).calls
  {
    hide Heard, Owned, Named, Locked, Counted;
    KnownLife(s, i);
    GetTrackTakes(s.producers[i]);
    hide Known;
  }

  lemma BareIs(s: State, c: nat, i: nat)
    requires Busy(s, c) && i in s.producers
    ensures Enabled(s, MatchBare(c, i))
    ensures var r := Apply(s, MatchBare(c, i));
            r.producers == s.producers && r.calls == s.calls[c := Matching(s.calls[c].starts, s.calls[c].bare + {i}, s.calls[c].held)]
  {
  }

  lemma DialIs(s: State, c: nat, i: nat, dialled: Option<nat>)
    requires s.moving == {}
    requires Good(s) && Busy(s, c) && i in s.producers
    requires s.producers[i].life.phase == Idle ==> dialled.Some? && IsNew(s.producers[i].life, dialled)
    ensures Enabled(s, DialFor(c, i, dialled))
    ensures var r := Apply(s, DialFor(c, i, dialled));
            i in r.producers && r.producers[i].life.phase != Idle && r.producers[i].life.conn.Some? && r.calls == s.calls
  {
    hide Heard, Owned, Named, Locked, Counted;
    KnownLife(s, i);
    OwnsConn(s.producers[i]);
    hide Known;
  }

  lemma StartPath(s: State, c: nat)
    requires Enabled(s, Begin(c))
    ensures Path(s, [Begin(c)]) == Some(Apply(s, Begin(c)))
    ensures var r := Apply(s, Begin(c));
            && Busy(r, c) && r.producers == s.producers && r.tracks == s.tracks && r.consumers == s.consumers
            && r.calls[c] == Matching({}, {}, Nothing)
    ensures Apply(s, Begin(c)) == s.(calls := s.calls[c := Matching({}, {}, Nothing)], pending := s.pending + 1)
  {
    FirstStep(s, Begin(c));
  }

  lemma EndIs(s: State, c: nat)
    requires Good(s) && Busy(s, c)
    ensures Enabled(s, End(c)) && Apply(s, End(c)) == Ended(s, c) && Good(Ended(s, c)) && s.pending >= 1
  {
    hide Good;
    EndKeeps(s, c);
    BusyIsCounted(s, c);
  }

  lemma BusyIsCounted(s: State, c: nat)
    requires Good(s) && Busy(s, c)
    ensures s.pending >= 1
  {
    hide Known, Heard, Owned, Named, Locked;
    assert c in Pending(s);
  }

  lemma SweptSame(s: State)
    requires s.due > 0
    ensures var r := StopIdle(s); r.consumers == s.consumers && r.calls == s.calls && r.listed == s.listed
  {
    hide HasChild, StopOne;
  }

  lemma CommitIs(s: State, c: nat, starts: set<nat>, bare: set<nat>)
    requires c in s.calls && s.calls[c] == Matched(starts, bare) && s.lock == None
    ensures Enabled(s, Commit(c)) && Apply(s, Commit(c)) == WithCall(s, c, Starting(starts, bare, starts + bare))
  {
  }

  lemma StartsOf(s: State, c: nat, i: nat)
    requires Good(s) && c in s.calls && s.calls[c].Starting? && i in s.calls[c].left
    ensures i in s.producers
  {
    hide Good;
    GoodNamed(s, c);
  }

  lemma ReturnIs(s: State, c: nat)
    requires c in s.calls && s.calls[c].Starting? && s.calls[c].left == {}
    ensures Enabled(s, Return(c)) && Apply(s, Return(c)) == Returned(s, c)
  {
  }

  lemma KnownTrack(s: State, i: nat, t: nat)
    requires Good(s) && i in s.producers && t in s.producers[i].receivers
    ensures t in s.tracks
  {
    hide Heard, Owned, Named, Locked, Counted, Invariant, Taken;
  }
}
