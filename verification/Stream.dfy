// internal/streams/stream.go, add_consumer.go and producer.go: consumers come and
// go, the producers they need are dialled, started, reconnected and stopped. Every
// step is what one goroutine does between two points where others can act: a
// section under one of the mutexes, an access to pending, or a call of a
// connection. A track is a number; its children are the consumers, or for a
// track of a consumer the producers, that listen to it.

module Stream {
  import opened Bytes
  import opened Lifecycle
  import Node

  datatype Owner = Prod(p: nat) | Cons(c: nat)

  // conn is the connection of a producer that made the track, 0 for a consumer.
  datatype Track = Track(owner: Owner, conn: nat, childs: seq<Owner>)

  datatype Producer = Producer(life: Life, receivers: seq<nat>, senders: seq<nat>)

  // The variable track of AddConsumer: from the producer or from the consumer.
  datatype Held = Nothing | Took(i: nat, t: nat) | Got(t: nat)

  // An AddConsumer that has not returned: before and after it gives up its
  // share of pending, and when it has joined the list and starts producers.
  // starts are the producers it took or gave a track, bare those it matched by
  // a media that flows both ways, for which there is no track.
  datatype Call =
    | Matching(starts: set<nat>, bare: set<nat>, held: Held)
    | Matched(starts: set<nat>, bare: set<nat>)
    | Starting(starts: set<nat>, bare: set<nat>, left: set<nat>)

  // The loop of stopProducers: the producers still to be looked at, and the one
  // that was found without children and is about to be stopped.
  datatype Sweep = Sweep(todo: set<nat>, doomed: Option<nat>)

  // listed are the producers of the stream; a producer that was removed may
  // still be in use. A consumer counts from the return of AddConsumer to the
  // begin of RemoveConsumer. due are the calls of stopProducers that have not
  // looked at pending, waiting those that found none pending, and lock the one
  // that has the mutex of the stream. moving are the producers whose reconnect is
  // exchanging tracks, with the mutex of the producer.
  datatype State = State(producers: map<nat, Producer>, listed: set<nat>, made: nat, tracks: map<nat, Track>,
                         consumers: map<nat, set<nat>>, calls: map<nat, Call>, pending: int,
                         due: nat, waiting: nat, lock: Option<Sweep>, moving: set<nat>)

  predicate HasChild(s: State, i: nat)
    requires i in s.producers
  {
    exists t :: t in s.producers[i].receivers + s.producers[i].senders && t in s.tracks && s.tracks[t].childs != []
  }

  // ---- The parts of the methods ---------------------------------------------------------

  // A step of the producer that cannot fail.
  function After(p: Producer, step: Lifecycle.Step): Life {
    var r := Do(p.life, step);
    if r.Next? then r.life else p.life
  }

  function ConnOf(p: Producer): nat {
    if p.life.conn.Some? then p.life.conn.value else 0
  }

  // producer.stop()
  function StopOne(p: Producer): Producer {
    if p.life.phase == External || p.life.phase == Idle then p else Producer(After(p, Stop), [], [])
  }

  // What conn.Stop does to the tracks: those of the connection close, and its
  // own senders leave the tracks they listen to.
  function Detach(childs: seq<Owner>, who: Owner): seq<Owner> {
    if childs == [] then []
    else (if childs[0] == who then [] else [childs[0]]) + Detach(childs[1..], who)
  }

  function CloseAll(tracks: map<nat, Track>, who: Owner, conn: nat): map<nat, Track> {
    map t | t in tracks ::
      if tracks[t].owner == who && tracks[t].conn == conn then tracks[t].(childs := Node.EverySecond(tracks[t].childs))
      else tracks[t].(childs := Detach(tracks[t].childs, who))
  }

  function Stopped(s: State, i: nat): State
    requires i in s.producers
  {
    var p := s.producers[i];
    if p.life.phase == External || p.life.phase == Idle then s
    else s.(producers := s.producers[i := StopOne(p)], tracks := CloseAll(s.tracks, Prod(i), ConnOf(p)))
  }

  // A producer in another phase of its life, with the tracks it had.
  function WithLife(s: State, i: nat, life: Life): State
    requires i in s.producers
  {
    s.(producers := s.producers[i := s.producers[i].(life := life)])
  }

  function WithTrack(s: State, t: nat, track: Track): State {
    s.(tracks := s.tracks[t := track])
  }

  // The connection makes one more track, which the producer knows.
  function WithReceiver(s: State, i: nat, t: nat): State
    requires i in s.producers
  {
    s.(producers := s.producers[i := s.producers[i].(receivers := s.producers[i].receivers + [t])],
       tracks := s.tracks[t := Track(Prod(i), ConnOf(s.producers[i]), [])])
  }

  function WithSender(s: State, i: nat, t: nat): State
    requires i in s.producers
  {
    s.(producers := s.producers[i := s.producers[i].(senders := s.producers[i].senders + [t])])
  }

  function WithChild(s: State, t: nat, child: Owner): State
    requires t in s.tracks
  {
    WithTrack(s, t, s.tracks[t].(childs := s.tracks[t].childs + [child]))
  }

  function WithCall(s: State, c: nat, call: Call): State {
    s.(calls := s.calls[c := call])
  }

  function Holds(s: State, c: nat, held: Held): State
    requires Busy(s, c)
  {
    WithCall(s, c, Matching(s.calls[c].starts, s.calls[c].bare, held))
  }

  function Starts(s: State, c: nat, i: nat): State
    requires Busy(s, c)
  {
    WithCall(s, c, Matching(s.calls[c].starts + {i}, s.calls[c].bare, Nothing))
  }

  // p.GetTrack for a codec that the producer does not know.
  function TakeNew(s: State, i: nat, t: nat): State
    requires i in s.producers
  {
    WithReceiver(WithLife(s, i, After(s.producers[i], Lifecycle.GetTrack(false, true))), i, t)
  }

  // A call gives up its share of pending, and is forgotten when it matched
  // nothing.
  function Ended(s: State, c: nat): State
    requires Busy(s, c)
  {
    var starts, bare := s.calls[c].starts, s.calls[c].bare;
    s.(pending := s.pending - 1, due := s.due + if s.pending == 1 then 1 else 0,
       calls := if starts + bare == {} then s.calls - {c} else s.calls[c := Matched(starts, bare)])
  }

  // AddConsumer returns.
  function Returned(s: State, c: nat): State
    requires c in s.calls
  {
    s.(calls := s.calls - {c}, consumers := s.consumers[c := s.calls[c].starts])
  }

  // cons.Stop()
  function Left(s: State, c: nat): State {
    s.(tracks := CloseAll(s.tracks, Cons(c), 0), consumers := s.consumers - {c})
  }

  function Joined(s: State, p: Producer): State {
    s.(producers := s.producers[s.made := p], listed := s.listed + {s.made}, made := s.made + 1)
  }

  // ---- Reconnect ------------------------------------------------------------------------

  function At(list: seq<nat>, t: nat): (k: nat)
    requires t in list
    ensures k < |list| && list[k] == t
  {
    if list[0] == t then 0 else 1 + At(list[1..], t)
  }

  function Copies(heard: seq<nat>, t: nat, child: Owner): seq<Owner> {
    if heard == [] then [] else (if heard[0] == t then [child] else []) + Copies(heard[1..], t, child)
  }

  // A receiver that got a new track gives its children to it; the others of the
  // old connection close. The old senders leave, and the new connection listens
  // to the tracks it accepted.
  function Renewed(s: State, i: nat, conn: nat, list: seq<nat>, heard: seq<nat>): map<nat, Track>
    requires i in s.producers && |list| == |s.producers[i].receivers|
    requires forall t :: t in s.producers[i].receivers ==> t in s.tracks
  {
    var p := s.producers[i];
    map t | t in s.tracks.Keys + (set u | u in list) ::
      if t !in s.tracks then Track(Prod(i), conn, s.tracks[p.receivers[At(list, t)]].childs)
      else
        var track := s.tracks[t];
        if track.owner != Prod(i) then track.(childs := Detach(track.childs, Prod(i)) + Copies(heard, t, Prod(i)))
        else if t in p.receivers && t !in list then track.(childs := [])
        else if track.conn == ConnOf(p) then track.(childs := Node.EverySecond(track.childs))
        else track
  }

  function Swapped(s: State, i: nat, act: nat, conn: nat, list: seq<nat>, heard: seq<nat>): State
    requires i in s.producers && |list| == |s.producers[i].receivers|
    requires forall t :: t in s.producers[i].receivers ==> t in s.tracks
  {
    var p := s.producers[i];
    s.(producers := s.producers[i := Producer(After(p, Reconnect(act, Some(conn))), list, p.senders)],
       tracks := Renewed(s, i, conn, list, heard))
  }

  // Reconnect finds its worker number and dials a connection.
  predicate Swaps(life: Life, step: Lifecycle.Step) {
    step.Reconnect? && step.act in life.acts && life.acts[step.act].Due? && life.workerID == life.acts[step.act].id && step.dialled.Some?
  }

  // Each receiver stays or gets a new track of its own; the new connection
  // listens to tracks of p.senders.
  predicate CanSwap(s: State, i: nat, act: nat, conn: nat, list: seq<nat>, heard: seq<nat>) {
    && i in s.producers && i in s.moving && Swaps(s.producers[i].life, Reconnect(act, Some(conn))) && IsNew(s.producers[i].life, Some(conn))
    && |list| == |s.producers[i].receivers| && Node.Distinct(list)
    && (forall t :: t in s.producers[i].receivers ==> t in s.tracks)
    && (forall k :: 0 <= k < |list| ==> list[k] == s.producers[i].receivers[k] || list[k] !in s.tracks)
    && forall t :: t in heard ==> t in s.producers[i].senders
  }

  // ---- Steps ----------------------------------------------------------------------------

  datatype Step =
    | Begin(c: nat)
    | DialFor(c: nat, i: nat, dialled: Option<nat>)
    | TakeTrack(c: nat, i: nat, t: nat)
    | AddToConsumer(c: nat, i: nat, t: nat)
    | GetBack(c: nat, t: nat)
    | AddToProducer(c: nat, i: nat, t: nat)
    | MatchBare(c: nat, i: nat)
    | End(c: nat)
    | Commit(c: nat)
    | StartOne(c: nat, i: nat)
    | Return(c: nat)
    | Remove(c: nat)
    | AddProducer(external: bool, conn: nat)
    | RemoveProducer(i: nat)
    | Own(i: nat, step: Lifecycle.Step)
    | Moving(i: nat)
    | Swap(i: nat, act: nat, conn: nat, list: seq<nat>, heard: seq<nat>)
    | Settle(i: nat)
    | Check
    | Lock
    | Look(i: nat)
    | Glimpse(i: nat)
    | StopNow
    | Unlock

  predicate Busy(s: State, c: nat) {
    c in s.calls && s.calls[c].Matching?
  }

  // The steps of an AddConsumer need its call to be at that point, the steps of
  // a goroutine of a producer need the goroutine, and those under a mutex need it
  // free. stopProducers reads the tracks of a producer without its mutex: while a
  // reconnect moves them it can find them empty.
  predicate Enabled(s: State, step: Step) {
    match step
    case Begin(c) => c !in s.calls && c !in s.consumers && forall t :: t in s.tracks ==> s.tracks[t].owner != Cons(c) && Cons(c) !in s.tracks[t].childs
    case DialFor(c, i, dialled) => Busy(s, c) && i in s.producers && i !in s.moving && Do(s.producers[i].life, Lifecycle.Dial(dialled)).Next?
    case TakeTrack(c, i, t) =>
      Busy(s, c) && i in s.producers && i !in s.moving && s.producers[i].life.phase != Idle && (t in s.producers[i].receivers || t !in s.tracks)
    case AddToConsumer(c, i, t) => Busy(s, c) && s.calls[c].held == Took(i, t) && t in s.tracks
    case GetBack(c, t) => Busy(s, c) && (t in s.tracks ==> s.tracks[t].owner == Cons(c))
    case AddToProducer(c, i, t) =>
      Busy(s, c) && s.calls[c].held == Got(t) && i in s.producers && i !in s.moving && s.producers[i].life.phase != Idle && t in s.tracks
    case MatchBare(c, i) => Busy(s, c) && i in s.producers
    case End(c) => Busy(s, c)
    case Commit(c) => c in s.calls && s.calls[c].Matched? && s.lock == None
    case StartOne(c, i) => c in s.calls && s.calls[c].Starting? && i in s.calls[c].left && i in s.producers && i !in s.moving
    case Return(c) => c in s.calls && s.calls[c].Starting? && s.calls[c].left == {}
    case Remove(c) => c in s.consumers
    case AddProducer(_, _) => s.lock == None
    case RemoveProducer(i) => i in s.listed && s.lock == None
    case Own(i, step) =>
      i in s.producers && i !in s.moving && (step.Returns? || step.Reconnect?) && Do(s.producers[i].life, step).Next? && !Swaps(s.producers[i].life, step)
    case Moving(i) => i in s.producers && i !in s.moving
    case Swap(i, act, conn, list, heard) => CanSwap(s, i, act, conn, list, heard)
    case Settle(i) => i in s.moving
    case Check => s.due > 0
    case Lock => s.waiting > 0 && s.lock == None
    case Look(i) => s.lock.Some? && s.lock.value.doomed == None && i in s.lock.value.todo && i in s.producers
    case Glimpse(i) => s.lock.Some? && s.lock.value.doomed == None && i in s.lock.value.todo && i in s.moving
    case StopNow =>
      s.lock.Some? && s.lock.value.doomed.Some? && s.lock.value.doomed.value in s.producers && s.lock.value.doomed.value !in s.moving
    case Unlock => s.lock.Some? && s.lock.value == Sweep({}, None)
  }

  function Apply(s: State, step: Step): State
    requires Enabled(s, step)
  {
    match step
    case Begin(c) => WithCall(s, c, Matching({}, {}, Nothing)).(pending := s.pending + 1)
    case DialFor(c, i, dialled) => WithLife(s, i, After(s.producers[i], Lifecycle.Dial(dialled)))
    case TakeTrack(c, i, t) => Holds(if t in s.producers[i].receivers then s else TakeNew(s, i, t), c, Took(i, t))
    case AddToConsumer(c, i, t) => Starts(WithChild(s, t, Cons(c)), c, i)
    case GetBack(c, t) => Holds(if t in s.tracks then s else WithTrack(s, t, Track(Cons(c), 0, [])), c, Got(t))
    case AddToProducer(c, i, t) =>
      Starts(WithChild(WithSender(WithLife(s, i, After(s.producers[i], Lifecycle.AddTrack(true))), i, t), t, Prod(i)), c, i)
    case MatchBare(c, i) => WithCall(s, c, Matching(s.calls[c].starts, s.calls[c].bare + {i}, s.calls[c].held))
    case End(c) => Ended(s, c)
    case Commit(c) => WithCall(s, c, Starting(s.calls[c].starts, s.calls[c].bare, s.calls[c].starts + s.calls[c].bare))
    case StartOne(c, i) => WithCall(WithLife(s, i, After(s.producers[i], Start)), c, Starting(s.calls[c].starts, s.calls[c].bare, s.calls[c].left - {i}))
    case Return(c) => Returned(s, c)
    case Remove(c) => Left(s, c).(due := s.due + 1)
    case AddProducer(external, conn) => Joined(s, Producer(Given(if external then External else Internal, conn), [], []))
    case RemoveProducer(i) => s.(listed := s.listed - {i})
    case Own(i, step) => WithLife(s, i, After(s.producers[i], step))
    case Moving(i) => s.(moving := s.moving + {i})
    case Swap(i, act, conn, list, heard) => Swapped(s, i, act, conn, list, heard)
    case Settle(i) => s.(moving := s.moving - {i})
    case Check => s.(due := s.due - 1, waiting := s.waiting + if s.pending > 0 then 0 else 1)
    case Lock => s.(waiting := s.waiting - 1, lock := Some(Sweep(s.listed, None)))
    case Look(i) => s.(lock := Some(if HasChild(s, i) then Sweep(s.lock.value.todo - {i}, None) else s.lock.value.(doomed := Some(i))))
    case Glimpse(i) => s.(lock := Some(s.lock.value.(doomed := Some(i))))
    case StopNow =>
      var i := s.lock.value.doomed.value;
      Stopped(s, i).(lock := Some(Sweep(s.lock.value.todo - {i}, None)))
    case Unlock => s.(lock := None)
  }

  // ---- Invariant -----------------------------------------------------------------------

  predicate Running(p: Producer) {
    p.life.phase == Started || p.life.phase == External || p.life.phase == Internal
  }

  predicate Taken(p: Producer) {
    p.life.phase != Idle && p.life.phase != Medias
  }

  // Producers: their lives, and whose tracks they know.
  ghost predicate Known(s: State) {
    && (forall i :: i in s.producers ==> i < s.made && Invariant(s.producers[i].life))
    && (forall i :: i in s.producers && !Taken(s.producers[i]) ==> s.producers[i].receivers == [] && s.producers[i].senders == [])
    && (forall i, t :: i in s.producers && t in s.producers[i].receivers ==> t in s.tracks && s.tracks[t].owner == Prod(i))
    && (forall i, t :: i in s.producers && t in s.producers[i].senders ==> t in s.tracks && s.tracks[t].owner.Cons?)
  }

  // The track is of the connection that its producer has now.
  predicate Open(s: State, i: nat, t: nat)
    requires i in s.producers && t in s.tracks
  {
    s.tracks[t].owner == Prod(i) && s.producers[i].life.conn == Some(s.tracks[t].conn)
  }

  // Children: consumers listen to tracks of producers, and producers to tracks
  // of consumers that they know; producers know the tracks of their connection.
  ghost predicate Heard(s: State) {
    && (forall t, o :: t in s.tracks && o in s.tracks[t].childs ==> (o.Cons? <==> s.tracks[t].owner.Prod?))
    && (forall t, o :: t in s.tracks && o in s.tracks[t].childs && o.Prod? ==> o.p in s.producers && t in s.producers[o.p].senders)
    && (forall t, o :: t in s.tracks && o in s.tracks[t].childs && o.Cons? ==> o.c in s.consumers || (o.c in s.calls && s.calls[o.c].starts != {}))
  }

  ghost predicate Owned(s: State) {
    && (forall t :: t in s.tracks && s.tracks[t].owner.Cons? ==> s.tracks[t].conn == 0)
    && (forall t :: t in s.tracks && s.tracks[t].owner.Prod? ==> OwnedBy(s, t, s.tracks[t].owner.p))
  }

  predicate OwnedBy(s: State, t: nat, i: nat)
    requires t in s.tracks
  {
    && i in s.producers && s.tracks[t].conn in s.producers[i].life.owned
    && (s.producers[i].life.conn == Some(s.tracks[t].conn) ==> t in s.producers[i].receivers)
  }

  // Calls and consumers name producers and tracks that there are.
  ghost predicate Named(s: State) {
    && (forall c, i :: c in s.calls && i in s.calls[c].starts + s.calls[c].bare ==> i in s.producers)
    && (forall c, i :: c in s.consumers && i in s.consumers[c] ==> i in s.producers)
    && (forall c :: c in s.calls && s.calls[c].Starting? ==> s.calls[c].left <= s.calls[c].starts + s.calls[c].bare)
    && (forall c :: c in s.calls ==> c !in s.consumers)
    && (forall c :: c in s.calls && s.calls[c].Matching? ==> HeldIs(s, c, s.calls[c].held))
  }

  predicate HeldIs(s: State, c: nat, held: Held) {
    match held
    case Nothing => true
    case Took(i, t) => i in s.producers && t in s.tracks && s.tracks[t].owner == Prod(i)
    case Got(t) => t in s.tracks && s.tracks[t].owner == Cons(c)
  }

  ghost predicate Locked(s: State) {
    && s.listed <= s.producers.Keys
    && (s.lock.Some? ==> s.lock.value.todo <= s.producers.Keys)
    && (s.lock.Some? && s.lock.value.doomed.Some? ==> s.lock.value.doomed.value in s.lock.value.todo)
  }

  function Pending(s: State): set<nat> {
    set c | c in s.calls && s.calls[c].Matching?
  }

  ghost predicate Counted(s: State) {
    s.pending == |Pending(s)|
  }

  ghost predicate Good(s: State) {
    Known(s) && Heard(s) && Owned(s) && Named(s) && Locked(s) && Counted(s)
  }

  // ---- Facts about lists ----------------------------------------------------------------

  lemma {:induction false} DetachKeeps(childs: seq<Owner>, who: Owner)
    ensures forall o :: o in Detach(childs, who) <==> o in childs && o != who
  {
    if childs != [] {
      DetachKeeps(childs[1..], who);
      forall o ensures o in Detach(childs, who) <==> o in childs && o != who {
        assert o in childs <==> o == childs[0] || o in childs[1..];
      }
    }
  }

  lemma {:induction false} EverySecondSubset(childs: seq<Owner>)
    ensures forall o :: o in Node.EverySecond(childs) ==> o in childs
    decreases |childs|
  {
    if |childs| > 2 {
      EverySecondSubset(childs[2..]);
    }
  }

  lemma {:induction false} CopiesAre(heard: seq<nat>, t: nat, child: Owner)
    ensures forall o :: o in Copies(heard, t, child) <==> o == child && t in heard
  {
    if heard != [] {
      CopiesAre(heard[1..], t, child);
      forall o ensures o in Copies(heard, t, child) <==> o == child && t in heard {
        assert t in heard <==> t == heard[0] || t in heard[1..];
      }
    }
  }

  lemma CloseOf(tracks: map<nat, Track>, who: Owner, conn: nat, t: nat)
    requires t in tracks
    ensures var u := CloseAll(tracks, who, conn)[t];
            && u.owner == tracks[t].owner && u.conn == tracks[t].conn && (forall o :: o in u.childs ==> o in tracks[t].childs)
            && (tracks[t].owner != who || tracks[t].conn != conn ==> forall o :: o in u.childs <==> o in tracks[t].childs && o != who)
  {
    DetachKeeps(tracks[t].childs, who);
    EverySecondSubset(tracks[t].childs);
  }

  // ---- Every step keeps the invariant ----------------------------------------------------

  // Producers and tracks stay, with their owners.
  ghost predicate Grows(s: State, r: State) {
    && s.producers.Keys <= r.producers.Keys
    && forall t :: t in s.tracks ==> t in r.tracks && r.tracks[t].owner == s.tracks[t].owner
  }

  lemma NamedGrows(s: State, r: State)
    requires Named(s) && Grows(s, r) && r.calls == s.calls && r.consumers == s.consumers
    ensures Named(r)
  {
  }

  // The tracks and producers alone.
  ghost predicate Graph(s: State) {
    Known(s) && Heard(s) && Owned(s)
  }

  lemma SameGraph(s: State, r: State)
    requires Graph(s) && r.producers == s.producers && r.tracks == s.tracks && s.made <= r.made
    requires forall c :: c in s.consumers || (c in s.calls && s.calls[c].starts != {}) ==> c in r.consumers || (c in r.calls && r.calls[c].starts != {})
    ensures Graph(r)
  {
    SameKnown(s, r);
    SameHeard(s, r);
    SameOwned(s, r);
    hide Known, Heard, Owned;
  }

  lemma SameKnown(s: State, r: State)
    requires Known(s) && r.producers == s.producers && r.tracks == s.tracks && s.made <= r.made
    ensures Known(r)
  {
    hide Invariant, Taken;
  }

  lemma SameHeard(s: State, r: State)
    requires Heard(s) && r.producers == s.producers && r.tracks == s.tracks
    requires forall c :: c in s.consumers || (c in s.calls && s.calls[c].starts != {}) ==> c in r.consumers || (c in r.calls && r.calls[c].starts != {})
    ensures Heard(r)
  {
  }

  lemma SameOwned(s: State, r: State)
    requires Owned(s) && r.producers == s.producers && r.tracks == s.tracks
    ensures Owned(r)
  {
    forall t, i | t in s.tracks && OwnedBy(s, t, i) ensures OwnedBy(r, t, i) {}
    hide OwnedBy;
  }

  // A life after a step: its connection is the same, none, or a new one.
  ghost predicate Follows(p: Producer, life: Life) {
    && Invariant(life) && (Taken(p) ==> Taken(p.(life := life)))
    && (forall k :: k in p.life.owned ==> k in life.owned)
    && (life.conn.Some? ==> life.conn == p.life.conn || life.conn.value !in p.life.owned)
  }

  lemma LifeKeeps(s: State, i: nat, life: Life)
    requires Graph(s) && i in s.producers && Follows(s.producers[i], life)
    ensures Graph(WithLife(s, i, life))
  {
    LifeKnown(s, i, life);
    LifeHeard(s, i, life);
    LifeOwned(s, i, life);
    hide Known, Heard, Owned, Follows;
  }

  lemma LifeKnown(s: State, i: nat, life: Life)
    requires Known(s) && i in s.producers && Follows(s.producers[i], life)
    ensures Known(WithLife(s, i, life))
  {
    hide Invariant, Taken;
  }

  lemma LifeHeard(s: State, i: nat, life: Life)
    requires Heard(s) && i in s.producers
    ensures Heard(WithLife(s, i, life))
  {
    var r := WithLife(s, i, life);
    assert r.producers.Keys == s.producers.Keys && forall k :: k in s.producers ==> r.producers[k].senders == s.producers[k].senders;
    hide WithLife;
  }

  lemma LifeOwned(s: State, i: nat, life: Life)
    requires Owned(s) && i in s.producers && Follows(s.producers[i], life)
    ensures Owned(WithLife(s, i, life))
  {
    hide Invariant, Taken;
    var r := WithLife(s, i, life);
    forall t, j | t in s.tracks && OwnedBy(s, t, j) ensures OwnedBy(r, t, j) {
      if j == i {
        assert r.producers[j].receivers == s.producers[j].receivers;
      }
    }
    hide OwnedBy, Follows;
  }

  // The steps of a life but stop and a reconnect that dials.
  predicate Plain(p: Producer, step: Lifecycle.Step) {
    !step.Stop? && !Swaps(p.life, step)
  }

  lemma StepFollows(p: Producer, step: Lifecycle.Step)
    requires Invariant(p.life) && Plain(p, step)
    ensures Follows(p, After(p, step)) && (Running(p) ==> Running(p.(life := After(p, step))))
  {
    StepKeeps(p.life, step);
    StartedOnly(p);
    hide Invariant;
    PhaseOf(p, step);
  }

  lemma StartedOnly(p: Producer)
    requires Invariant(p.life)
    ensures forall a :: IsCurrent(p.life, a) ==> p.life.phase == Started
  {
  }

  lemma PhaseOf(p: Producer, step: Lifecycle.Step)
    requires Plain(p, step)
    ensures var life := After(p, step); var q := p.(life := life);
            && (Taken(p) ==> Taken(q)) && (Running(p) ==> Running(q)) && (forall k :: k in p.life.owned ==> k in life.owned)
            && (life.conn.Some? ==> life.conn == p.life.conn || life.conn.value !in p.life.owned)
  {
  }

  lemma ReceiverKeeps(s: State, i: nat, t: nat)
    requires Graph(s) && i in s.producers && Taken(s.producers[i]) && t !in s.tracks
    ensures Graph(WithReceiver(s, i, t))
  {
    ReceiverKnown(s, i, t);
    ReceiverHeard(s, i, t);
    ReceiverOwned(s, i, t);
    hide Known, Heard, Owned;
  }

  lemma ReceiverIs(s: State, i: nat, t: nat)
    requires i in s.producers
    ensures var r := WithReceiver(s, i, t);
            && r.producers.Keys == s.producers.Keys && (forall k :: k in s.producers && k != i ==> r.producers[k] == s.producers[k])
            && r.producers[i] == s.producers[i].(receivers := s.producers[i].receivers + [t])
            && r == s.(producers := r.producers, tracks := s.tracks[t := Track(Prod(i), ConnOf(s.producers[i]), [])])
  {
  }

  lemma ReceiverKnown(s: State, i: nat, t: nat)
    requires Known(s) && i in s.producers && Taken(s.producers[i]) && t !in s.tracks
    ensures Known(WithReceiver(s, i, t))
  {
    hide WithReceiver, Invariant, Known;
    ReceiverIs(s, i, t);
    assert Taken(WithReceiver(s, i, t).producers[i]);
    OneMoreKnown(s, WithReceiver(s, i, t), i, t);
  }

  lemma OneMoreKnown(s: State, r: State, i: nat, t: nat)
    requires Known(s) && i in s.producers && t !in s.tracks && r.made == s.made && r.producers.Keys == s.producers.Keys
    requires t in r.tracks && r.tracks[t].owner == Prod(i) && Taken(r.producers[i])
    requires forall u :: u in s.tracks ==> u in r.tracks && r.tracks[u].owner == s.tracks[u].owner
    requires forall k :: k in s.producers && k != i ==> r.producers[k] == s.producers[k]
    requires r.producers[i] == s.producers[i].(receivers := s.producers[i].receivers + [t])
    ensures Known(r)
  {
    hide Invariant, Taken;
  }

  lemma ReceiverHeard(s: State, i: nat, t: nat)
    requires Heard(s) && i in s.producers && t !in s.tracks
    ensures Heard(WithReceiver(s, i, t))
  {
    ReceiverIs(s, i, t);
    hide WithReceiver;
  }

  lemma ReceiverOwned(s: State, i: nat, t: nat)
    requires Owned(s) && Known(s) && i in s.producers && Taken(s.producers[i]) && t !in s.tracks
    ensures Owned(WithReceiver(s, i, t))
  {
    hide WithReceiver, Known, Owned, Invariant;
    ReceiverIs(s, i, t);
    KnownLife(s, i);
    OwnsConn(s.producers[i]);
    OneMoreOwned(s, WithReceiver(s, i, t), i, t);
  }

  lemma OneMoreOwned(s: State, r: State, i: nat, t: nat)
    requires Owned(s) && i in s.producers && t !in s.tracks && r.producers.Keys == s.producers.Keys
    requires r.tracks == s.tracks[t := Track(Prod(i), ConnOf(s.producers[i]), [])] && ConnOf(s.producers[i]) in s.producers[i].life.owned
    requires forall k :: k in s.producers && k != i ==> r.producers[k] == s.producers[k]
    requires r.producers[i] == s.producers[i].(receivers := s.producers[i].receivers + [t])
    ensures Owned(r)
  {
    forall u, j | u in s.tracks && OwnedBy(s, u, j) ensures OwnedBy(r, u, j) {
    }
    assert OwnedBy(r, t, i);
    hide OwnedBy;
  }

  lemma OwnsConn(p: Producer)
    requires Invariant(p.life)
    ensures p.life.conn.Some? ==> ConnOf(p) in p.life.owned
    ensures p.life.conn.Some? <==> p.life.phase != Idle
  {
  }

  lemma SenderKeeps(s: State, i: nat, t: nat)
    requires Graph(s) && i in s.producers && Taken(s.producers[i]) && t in s.tracks && s.tracks[t].owner.Cons?
    ensures Graph(WithSender(s, i, t))
  {
    hide WithSender, Known, Heard, Owned;
    SenderIs(s, i, t);
    var r := WithSender(s, i, t);
    assert Taken(r.producers[i]);
    SenderKnown(s, r, i, t);
    SenderHeard(s, r, i, t);
    SenderOwned(s, r, i, t);
  }

  lemma SenderKnown(s: State, r: State, i: nat, t: nat)
    requires Known(s) && i in s.producers && r == s.(producers := r.producers) && r.producers.Keys == s.producers.Keys
    requires t in s.tracks && s.tracks[t].owner.Cons? && Taken(r.producers[i])
    requires forall k :: k in s.producers && k != i ==> r.producers[k] == s.producers[k]
    requires r.producers[i] == s.producers[i].(senders := s.producers[i].senders + [t])
    ensures Known(r)
  {
    hide Invariant, Taken;
  }

  lemma SenderHeard(s: State, r: State, i: nat, t: nat)
    requires Heard(s) && i in s.producers && r == s.(producers := r.producers) && r.producers.Keys == s.producers.Keys
    requires forall k :: k in s.producers && k != i ==> r.producers[k] == s.producers[k]
    requires r.producers[i] == s.producers[i].(senders := s.producers[i].senders + [t])
    ensures Heard(r)
  {
  }

  lemma SenderOwned(s: State, r: State, i: nat, t: nat)
    requires Owned(s) && i in s.producers && r == s.(producers := r.producers) && r.producers.Keys == s.producers.Keys
    requires forall k :: k in s.producers && k != i ==> r.producers[k] == s.producers[k]
    requires r.producers[i] == s.producers[i].(senders := s.producers[i].senders + [t])
    ensures Owned(r)
  {
    forall u, j | u in s.tracks && OwnedBy(s, u, j) ensures OwnedBy(r, u, j) {
    }
    hide OwnedBy;
  }

  lemma SenderIs(s: State, i: nat, t: nat)
    requires i in s.producers
    ensures var r := WithSender(s, i, t);
            && r.producers.Keys == s.producers.Keys && (forall k :: k in s.producers && k != i ==> r.producers[k] == s.producers[k])
            && r.producers[i] == s.producers[i].(senders := s.producers[i].senders + [t])
            && r == s.(producers := r.producers)
  {
  }

  lemma TrackKeeps(s: State, t: nat, c: nat)
    requires Graph(s) && t !in s.tracks
    ensures Graph(WithTrack(s, t, Track(Cons(c), 0, [])))
  {
    hide Known, Heard, Owned;
    var r := WithTrack(s, t, Track(Cons(c), 0, []));
    SameProducersKnown(s, r);
    TrackHeard(s, t, c);
    SameProducersOwned(s, r);
  }

  lemma TrackHeard(s: State, t: nat, c: nat)
    requires Heard(s) && t !in s.tracks
    ensures Heard(WithTrack(s, t, Track(Cons(c), 0, [])))
  {
  }

  lemma SameProducersKnown(s: State, r: State)
    requires Known(s) && r.producers == s.producers && r.made == s.made
    requires forall u :: u in s.tracks ==> u in r.tracks && r.tracks[u].owner == s.tracks[u].owner
    ensures Known(r)
  {
    hide Invariant, Taken;
  }

  lemma SameProducersOwned(s: State, r: State)
    requires Owned(s) && r.producers == s.producers
    requires forall u :: u in r.tracks ==> (u in s.tracks && r.tracks[u].owner == s.tracks[u].owner && r.tracks[u].conn == s.tracks[u].conn)
                                           || (r.tracks[u].owner.Cons? && r.tracks[u].conn == 0)
    ensures Owned(r)
  {
    forall u, j | u in r.tracks && u in s.tracks && OwnedBy(s, u, j) && r.tracks[u].conn == s.tracks[u].conn ensures OwnedBy(r, u, j) {
    }
    hide OwnedBy;
  }

  // A child more on a track: a consumer that has matched, or a producer that
  // knows the track.
  lemma ChildKeeps(s: State, t: nat, child: Owner)
    requires Graph(s) && t in s.tracks && (child.Cons? <==> s.tracks[t].owner.Prod?)
    requires if child.Cons? then child.c in s.calls && s.calls[child.c].starts != {}
             else child.p in s.producers && t in s.producers[child.p].senders
    ensures Graph(WithChild(s, t, child))
  {
    hide WithChild, Known, Heard, Owned;
    var r := WithChild(s, t, child);
    ChildIs(s, t, child);
    SameProducersKnown(s, r);
    ChildHeard(s, r, t, child);
    SameProducersOwned(s, r);
  }

  lemma ChildHeard(s: State, r: State, t: nat, child: Owner)
    requires Heard(s) && t in s.tracks && (child.Cons? <==> s.tracks[t].owner.Prod?)
    requires if child.Cons? then child.c in s.calls && s.calls[child.c].starts != {}
             else child.p in s.producers && t in s.producers[child.p].senders
    requires r.tracks.Keys == s.tracks.Keys && r == s.(tracks := r.tracks)
    requires forall u :: u in s.tracks ==> r.tracks[u].owner == s.tracks[u].owner
    requires forall u, o :: u in s.tracks ==> (o in r.tracks[u].childs <==> o in s.tracks[u].childs || (u == t && o == child))
    ensures Heard(r)
  {
  }

  lemma ChildIs(s: State, t: nat, child: Owner)
    requires t in s.tracks
    ensures var r := WithChild(s, t, child);
            && r.tracks.Keys == s.tracks.Keys && r == s.(tracks := r.tracks)
            && (forall u :: u in s.tracks ==> r.tracks[u].owner == s.tracks[u].owner && r.tracks[u].conn == s.tracks[u].conn)
            && forall u, o :: u in s.tracks ==> (o in r.tracks[u].childs <==> o in s.tracks[u].childs || (u == t && o == child))
  {
  }

  // ---- Stop and leave --------------------------------------------------------------------

  lemma StopOneIs(p: Producer)
    requires Invariant(p.life)
    ensures var q := StopOne(p); Invariant(q.life) && q.life.owned == p.life.owned
    ensures p.life.phase != External ==> StopOne(p).life.phase == Idle && StopOne(p).life.conn == None && !Taken(StopOne(p))
    ensures p.life.phase == External ==> StopOne(p) == p
    ensures p.life.phase != External && p.life.phase != Idle ==> StopOne(p).receivers == [] == StopOne(p).senders
  {
    StepKeeps(p.life, Stop);
  }

  lemma StoppedIs(s: State, i: nat)
    requires i in s.producers
    ensures var r := Stopped(s, i);
            && r == s.(producers := r.producers, tracks := r.tracks) && r.producers.Keys == s.producers.Keys && r.tracks.Keys == s.tracks.Keys
            && (forall k :: k in s.producers && k != i ==> r.producers[k] == s.producers[k]) && r.producers[i] == StopOne(s.producers[i])
  {
    hide After;
  }

  lemma StoppedTracks(s: State, i: nat, t: nat)
    requires i in s.producers && t in s.tracks
    ensures t in Stopped(s, i).tracks
    ensures var u, v, p := s.tracks[t], Stopped(s, i).tracks[t], s.producers[i];
            && v.owner == u.owner && v.conn == u.conn && (forall o :: o in v.childs ==> o in u.childs)
            && (p.life.phase == External || p.life.phase == Idle ==> v == u)
            && (p.life.phase != External && p.life.phase != Idle ==> u.owner != Prod(i) ==> forall o :: o in v.childs <==> o in u.childs && o != Prod(i))
  {
    CloseOf(s.tracks, Prod(i), ConnOf(s.producers[i]), t);
    hide StopOne;
  }

  lemma StoppedKeeps(s: State, i: nat)
    requires Graph(s) && i in s.producers
    ensures Graph(Stopped(s, i))
  {
    hide Known, Heard, Owned, Stopped, StopOne;
    var p := s.producers[i];
    var r := Stopped(s, i);
    StoppedIs(s, i);
    assert Invariant(p.life) by { KnownLife(s, i); }
    StopOneIs(p);
    forall t | t in s.tracks
      ensures r.tracks[t].owner == s.tracks[t].owner && r.tracks[t].conn == s.tracks[t].conn
      ensures forall o :: o in r.tracks[t].childs ==> o in s.tracks[t].childs
      ensures s.tracks[t].owner != Prod(i) && r.producers[i] != p ==> Prod(i) !in r.tracks[t].childs
    {
      StoppedTracks(s, i, t);
      assert p.life.phase == Idle ==> StopOne(p) == p by { IdleStays(p); }
    }
    if r.producers[i] == p {
      assert r.producers == s.producers;
      SameProducersKnown(s, r);
      FewerHeard(s, r);
      SameProducersOwned(s, r);
    } else {
      IdleStays(p);
      StoppedKnown(s, r, i);
      StoppedHeard(s, r, i);
      StoppedOwned(s, r, i);
    }
  }

  lemma KnownLife(s: State, i: nat)
    requires Known(s) && i in s.producers
    ensures Invariant(s.producers[i].life)
  {
  }

  lemma IdleStays(p: Producer)
    ensures p.life.phase == Idle || p.life.phase == External ==> StopOne(p) == p
  {
  }

  lemma StoppedKnown(s: State, r: State, i: nat)
    requires Known(s) && i in s.producers && r.made == s.made && r.producers.Keys == s.producers.Keys && r.tracks.Keys == s.tracks.Keys
    requires forall k :: k in s.producers && k != i ==> r.producers[k] == s.producers[k]
    requires Invariant(r.producers[i].life) && r.producers[i].receivers == [] == r.producers[i].senders
    requires forall u :: u in s.tracks ==> r.tracks[u].owner == s.tracks[u].owner
    ensures Known(r)
  {
    hide Invariant, Taken;
  }

  lemma FewerHeard(s: State, r: State)
    requires Heard(s) && r.producers == s.producers && r.tracks.Keys == s.tracks.Keys && r.calls == s.calls && r.consumers == s.consumers
    requires forall u :: u in s.tracks ==> r.tracks[u].owner == s.tracks[u].owner && forall o :: o in r.tracks[u].childs ==> o in s.tracks[u].childs
    ensures Heard(r)
  {
  }

  lemma StoppedHeard(s: State, r: State, i: nat)
    requires Heard(s) && i in s.producers && r.producers.Keys == s.producers.Keys && r.tracks.Keys == s.tracks.Keys
    requires forall k :: k in s.producers && k != i ==> r.producers[k] == s.producers[k]
    requires r.calls == s.calls && r.consumers == s.consumers
    requires forall u :: u in s.tracks ==> r.tracks[u].owner == s.tracks[u].owner && forall o :: o in r.tracks[u].childs ==> o in s.tracks[u].childs
    requires forall u :: u in s.tracks && s.tracks[u].owner != Prod(i) ==> Prod(i) !in r.tracks[u].childs
    ensures Heard(r)
  {
    hide Heard;
    AllHeard(s);
    AllHeard(r);
    forall t, o | t in r.tracks && o in r.tracks[t].childs ensures WellHeard(r, t, o) {
      assert WellHeard(s, t, o);
    }
  }

  lemma StoppedOwned(s: State, r: State, i: nat)
    requires Owned(s) && i in s.producers && r.producers.Keys == s.producers.Keys && r.tracks.Keys == s.tracks.Keys
    requires forall k :: k in s.producers && k != i ==> r.producers[k] == s.producers[k]
    requires r.producers[i].life.conn == None && r.producers[i].life.owned == s.producers[i].life.owned
    requires forall u :: u in s.tracks ==> r.tracks[u].owner == s.tracks[u].owner && r.tracks[u].conn == s.tracks[u].conn
    ensures Owned(r)
  {
    forall u, j | u in s.tracks && OwnedBy(s, u, j) ensures OwnedBy(r, u, j) {
    }
    hide OwnedBy;
  }

  lemma LeftIs(s: State, c: nat)
    ensures var r := Left(s, c);
            && r == s.(tracks := r.tracks, consumers := s.consumers - {c}) && r.tracks.Keys == s.tracks.Keys
  {
  }

  lemma LeftTracks(s: State, c: nat, t: nat)
    requires t in s.tracks
    ensures t in Left(s, c).tracks
    ensures var u, v := s.tracks[t], Left(s, c).tracks[t];
            && v.owner == u.owner && v.conn == u.conn && (forall o :: o in v.childs ==> o in u.childs)
            && (u.owner != Cons(c) ==> forall o :: o in v.childs <==> o in u.childs && o != Cons(c))
  {
    CloseOf(s.tracks, Cons(c), 0, t);
  }

  lemma LeftKeeps(s: State, c: nat)
    requires Graph(s)
    ensures Graph(Left(s, c))
  {
    hide Left, Known, Heard, Owned;
    var r := Left(s, c);
    LeftIs(s, c);
    forall t | t in s.tracks
      ensures r.tracks[t].owner == s.tracks[t].owner && r.tracks[t].conn == s.tracks[t].conn
      ensures forall o :: o in r.tracks[t].childs ==> o in s.tracks[t].childs
      ensures s.tracks[t].owner != Cons(c) ==> Cons(c) !in r.tracks[t].childs
    {
      LeftTracks(s, c, t);
    }
    SameProducersKnown(s, r);
    LeftHeard(s, r, c);
    SameProducersOwned(s, r);
  }

  lemma LeftHeard(s: State, r: State, c: nat)
    requires Heard(s) && r.producers == s.producers && r.tracks.Keys == s.tracks.Keys && r.calls == s.calls && r.consumers == s.consumers - {c}
    requires forall u :: u in s.tracks ==> r.tracks[u].owner == s.tracks[u].owner && forall o :: o in r.tracks[u].childs ==> o in s.tracks[u].childs
    requires forall u :: u in s.tracks && s.tracks[u].owner != Cons(c) ==> Cons(c) !in r.tracks[u].childs
    ensures Heard(r)
  {
  }

  // ---- Reconnect ---------------------------------------------------------------------------

  lemma SwapLife(p: Producer, act: nat, conn: nat)
    requires Invariant(p.life) && Swaps(p.life, Reconnect(act, Some(conn))) && IsNew(p.life, Some(conn))
    ensures var life := After(p, Reconnect(act, Some(conn)));
            && Invariant(life) && life.conn == Some(conn) && life.phase == p.life.phase == Started && p.life.conn.Some?
            && life.owned == p.life.owned + multiset{conn} && conn !in p.life.owned
  {
    StepKeeps(p.life, Reconnect(act, Some(conn)));
    assert IsCurrent(p.life, act);
  }

  lemma SwappedIs(s: State, i: nat, act: nat, conn: nat, list: seq<nat>, heard: seq<nat>)
    requires CanSwap(s, i, act, conn, list, heard)
    ensures var r := Swapped(s, i, act, conn, list, heard);
            && r == s.(producers := r.producers, tracks := r.tracks) && r.producers.Keys == s.producers.Keys
            && r.tracks == Renewed(s, i, conn, list, heard)
            && (forall k :: k in s.producers && k != i ==> r.producers[k] == s.producers[k])
            && r.producers[i] == Producer(After(s.producers[i], Reconnect(act, Some(conn))), list, s.producers[i].senders)
  {
    hide After, Renewed;
  }

  // A track that was there, and one that is new.
  lemma OldTrack(s: State, i: nat, conn: nat, list: seq<nat>, heard: seq<nat>, t: nat)
    requires i in s.producers && |list| == |s.producers[i].receivers| && (forall u :: u in s.producers[i].receivers ==> u in s.tracks)
    requires t in s.tracks
    ensures t in Renewed(s, i, conn, list, heard)
    ensures var u, v := s.tracks[t], Renewed(s, i, conn, list, heard)[t];
            && v.owner == u.owner && v.conn == u.conn
            && (u.owner != Prod(i) ==> forall o :: o in v.childs <==> (o in u.childs && o != Prod(i)) || (o == Prod(i) && t in heard))
            && (u.owner == Prod(i) ==> forall o :: o in v.childs ==> o in u.childs)
  {
    DetachKeeps(s.tracks[t].childs, Prod(i));
    EverySecondSubset(s.tracks[t].childs);
    CopiesAre(heard, t, Prod(i));
  }

  lemma NewTrack(s: State, i: nat, conn: nat, list: seq<nat>, heard: seq<nat>, t: nat)
    requires i in s.producers && |list| == |s.producers[i].receivers| && (forall u :: u in s.producers[i].receivers ==> u in s.tracks)
    requires t in list && t !in s.tracks
    ensures t in Renewed(s, i, conn, list, heard)
    ensures Renewed(s, i, conn, list, heard)[t] == Track(Prod(i), conn, s.tracks[s.producers[i].receivers[At(list, t)]].childs)
  {
  }

  lemma RenewedKeys(s: State, i: nat, conn: nat, list: seq<nat>, heard: seq<nat>)
    requires i in s.producers && |list| == |s.producers[i].receivers| && (forall u :: u in s.producers[i].receivers ==> u in s.tracks)
    ensures forall t :: t in Renewed(s, i, conn, list, heard) <==> t in s.tracks || t in list
  {
  }

  // What the proofs need of a swap: the producer has the tracks of the list,
  // which are its own, and its senders; the other producers stay.
  ghost predicate Swap1(s: State, r: State, i: nat, conn: nat, list: seq<nat>) {
    && i in s.producers && r == s.(producers := r.producers, tracks := r.tracks) && r.producers.Keys == s.producers.Keys
    && (forall k :: k in s.producers && k != i ==> r.producers[k] == s.producers[k])
    && r.producers[i].receivers == list && r.producers[i].senders == s.producers[i].senders && Taken(s.producers[i]) && Taken(r.producers[i])
    && (forall t :: t in s.tracks ==> t in r.tracks && r.tracks[t].owner == s.tracks[t].owner && r.tracks[t].conn == s.tracks[t].conn)
    && (forall t :: t in r.tracks ==> t in s.tracks || (t in list && r.tracks[t].owner == Prod(i) && r.tracks[t].conn == conn))
    && forall t :: t in list ==> t in r.tracks && r.tracks[t].owner == Prod(i)
  }

  lemma SwapIs(s: State, i: nat, act: nat, conn: nat, list: seq<nat>, heard: seq<nat>)
    requires Known(s) && CanSwap(s, i, act, conn, list, heard)
    ensures Swap1(s, Swapped(s, i, act, conn, list, heard), i, conn, list)
  {
    hide Swapped, Renewed, Invariant, After, Swaps, IsNew;
    var r := Swapped(s, i, act, conn, list, heard);
    SwappedIs(s, i, act, conn, list, heard);
    SwapLife(s.producers[i], act, conn);
    RenewedKeys(s, i, conn, list, heard);
    forall t | t in s.tracks ensures r.tracks[t].owner == s.tracks[t].owner && r.tracks[t].conn == s.tracks[t].conn {
      OldTrack(s, i, conn, list, heard, t);
    }
    forall t | t in list ensures r.tracks[t].owner == Prod(i) && (t !in s.tracks ==> r.tracks[t].conn == conn) {
      ListTrack(s, i, conn, list, heard, t);
    }
  }

  lemma ListTrack(s: State, i: nat, conn: nat, list: seq<nat>, heard: seq<nat>, t: nat)
    requires Known(s) && i in s.producers && |list| == |s.producers[i].receivers| && t in list
    requires forall k :: 0 <= k < |list| ==> list[k] == s.producers[i].receivers[k] || list[k] !in s.tracks
    requires forall u :: u in s.producers[i].receivers ==> u in s.tracks
    ensures t in Renewed(s, i, conn, list, heard)
    ensures var u := Renewed(s, i, conn, list, heard)[t]; u.owner == Prod(i) && (t !in s.tracks ==> u.conn == conn)
  {
    hide Renewed, Invariant;
    var k := At(list, t);
    if t in s.tracks {
      assert t == s.producers[i].receivers[k];
      OldTrack(s, i, conn, list, heard, t);
    } else {
      NewTrack(s, i, conn, list, heard, t);
    }
  }

  lemma SwappedKnown(s: State, r: State, i: nat, conn: nat, list: seq<nat>)
    requires Known(s) && Swap1(s, r, i, conn, list) && Invariant(r.producers[i].life)
    ensures Known(r)
  {
    hide Invariant, Taken;
  }

  lemma SwappedHeard(s: State, i: nat, act: nat, conn: nat, list: seq<nat>, heard: seq<nat>)
    requires Known(s) && Heard(s) && CanSwap(s, i, act, conn, list, heard)
    ensures Heard(Swapped(s, i, act, conn, list, heard))
  {
    hide Swapped, Renewed, Known, Heard, Swaps, IsNew;
    var r := Swapped(s, i, act, conn, list, heard);
    SwappedIs(s, i, act, conn, list, heard);
    forall t, o | t in r.tracks && o in r.tracks[t].childs ensures WellHeard(r, t, o) {
      HeardFrom(s, r, i, act, conn, list, heard, t, o);
    }
    AllHeard(r);
  }

  predicate WellHeard(s: State, t: nat, o: Owner)
    requires t in s.tracks
  {
    && (o.Cons? <==> s.tracks[t].owner.Prod?)
    && (o.Prod? ==> o.p in s.producers && t in s.producers[o.p].senders)
    && (o.Cons? ==> o.c in s.consumers || (o.c in s.calls && s.calls[o.c].starts != {}))
  }

  lemma AllHeard(s: State)
    ensures Heard(s) <==> forall t, o :: t in s.tracks && o in s.tracks[t].childs ==> WellHeard(s, t, o)
  {
  }

  // Where a child after the reconnect comes from.
  lemma HeardFrom(s: State, r: State, i: nat, act: nat, conn: nat, list: seq<nat>, heard: seq<nat>, t: nat, o: Owner)
    requires Known(s) && Heard(s) && CanSwap(s, i, act, conn, list, heard) && r == Swapped(s, i, act, conn, list, heard)
    requires t in r.tracks && o in r.tracks[t].childs
    ensures WellHeard(r, t, o)
  {
    hide Swapped, Renewed, Known, Heard, Swaps, IsNew;
    SwappedIs(s, i, act, conn, list, heard);
    RenewedKeys(s, i, conn, list, heard);
    AllHeard(s);
    if t in s.tracks {
      OldTrack(s, i, conn, list, heard, t);
      SenderTrack(s, i, t);
      assert o in s.tracks[t].childs ==> WellHeard(s, t, o);
    } else {
      NewTrack(s, i, conn, list, heard, t);
      var u := s.producers[i].receivers[At(list, t)];
      SenderTrack(s, i, u);
      assert WellHeard(s, u, o);
    }
  }

  lemma SenderTrack(s: State, i: nat, t: nat)
    requires Known(s) && i in s.producers
    ensures t in s.producers[i].senders ==> t in s.tracks && s.tracks[t].owner.Cons?
    ensures t in s.producers[i].receivers ==> t in s.tracks && s.tracks[t].owner == Prod(i)
  {
    hide Invariant, Taken;
  }

  lemma SwappedOwned(s: State, r: State, i: nat, conn: nat, list: seq<nat>)
    requires Owned(s) && Swap1(s, r, i, conn, list)
    requires r.producers[i].life.conn == Some(conn) && r.producers[i].life.owned == s.producers[i].life.owned + multiset{conn}
    requires conn !in s.producers[i].life.owned
    ensures Owned(r)
  {
    hide Taken;
    forall t, j | t in s.tracks && OwnedBy(s, t, j) ensures OwnedBy(r, t, j) {
    }
    forall t | t in r.tracks && t !in s.tracks ensures OwnedBy(r, t, i) {
    }
    hide OwnedBy;
  }

  lemma SwappedKeeps(s: State, i: nat, act: nat, conn: nat, list: seq<nat>, heard: seq<nat>)
    requires Graph(s) && CanSwap(s, i, act, conn, list, heard)
    ensures var r := Swapped(s, i, act, conn, list, heard); Graph(r) && Grows(s, r)
  {
    hide Known, Heard, Owned, Swapped, Renewed, Swaps, IsNew, After, Invariant;
    var r := Swapped(s, i, act, conn, list, heard);
    SwapIs(s, i, act, conn, list, heard);
    SwappedIs(s, i, act, conn, list, heard);
    KnownLife(s, i);
    SwapLife(s.producers[i], act, conn);
    SwappedKnown(s, r, i, conn, list);
    SwappedHeard(s, i, act, conn, list, heard);
    SwappedOwned(s, r, i, conn, list);
  }

  // ---- Steps -------------------------------------------------------------------------------

  lemma TakeKeeps(s: State, c: nat, i: nat, t: nat)
    requires Good(s) && Enabled(s, TakeTrack(c, i, t))
    ensures Good(Apply(s, TakeTrack(c, i, t)))
  {
    hide Known, Heard, Owned, Named, Locked, Counted, Do, Invariant, WithLife, WithReceiver;
    var a := if t in s.producers[i].receivers then s else TakeNew(s, i, t);
    assert Graph(a) && Grows(s, a) && a == s.(producers := a.producers, tracks := a.tracks) && a.producers.Keys == s.producers.Keys
           && t in a.tracks && a.tracks[t].owner == Prod(i) by {
      SenderTrack(s, i, t);
      if t !in s.producers[i].receivers {
        TakeNewKeeps(s, i, t);
      }
    }
    HoldKeeps(s, a, c, Took(i, t));
  }

  lemma TakeNewKeeps(s: State, i: nat, t: nat)
    requires Graph(s) && i in s.producers && s.producers[i].life.phase != Idle && t !in s.tracks
    ensures var a := TakeNew(s, i, t);
            && Graph(a) && Grows(s, a) && a == s.(producers := a.producers, tracks := a.tracks) && a.producers.Keys == s.producers.Keys
            && t in a.tracks && a.tracks[t].owner == Prod(i)
  {
    hide Known, Heard, Owned, Do, Invariant, WithReceiver, Follows;
    var life := After(s.producers[i], Lifecycle.GetTrack(false, true));
    KnownLife(s, i);
    StepFollows(s.producers[i], Lifecycle.GetTrack(false, true));
    GetTrackTakes(s.producers[i]);
    LifeKeeps(s, i, life);
    var b := WithLife(s, i, life);
    assert Taken(b.producers[i]);
    ReceiverKeeps(b, i, t);
    ReceiverIs(b, i, t);
  }

  lemma GetTrackTakes(p: Producer)
    requires Invariant(p.life) && p.life.phase != Idle
    ensures var q := p.(life := After(p, Lifecycle.GetTrack(false, true))); Taken(q)
    ensures var q := p.(life := After(p, Lifecycle.AddTrack(true))); Taken(q)
  {
  }

  // The graph after a part of a step, and what the call holds now.
  lemma HoldKeeps(s: State, a: State, c: nat, held: Held)
    requires Good(s) && Graph(a) && Grows(s, a) && a == s.(producers := a.producers, tracks := a.tracks) && a.producers.Keys == s.producers.Keys
    requires Busy(s, c) && HeldIs(a, c, held)
    ensures Good(Holds(a, c, held))
  {
    hide Known, Heard, Owned, Counted, Named, Locked, Grows;
    var r := Holds(a, c, held);
    SameGraph(a, r);
    LockedSame(s, r);
    NamedGrows(s, a);
    CallNamed(a, c, r.calls[c]);
    assert Pending(r) == Pending(s);
    SameCount(s, r);
  }

  lemma SameCount(s: State, r: State)
    requires Counted(s) && Pending(r) == Pending(s) && r.pending == s.pending
    ensures Counted(r)
  {
  }

  lemma LockedSame(s: State, r: State)
    requires Locked(s) && s.producers.Keys <= r.producers.Keys && r.listed <= s.listed && r.lock == s.lock
    ensures Locked(r)
  {
  }

  lemma CallNamed(s: State, c: nat, call: Call)
    requires Named(s) && c !in s.consumers
    requires forall i :: i in call.starts + call.bare ==> i in s.producers
    requires (call.Starting? ==> call.left <= call.starts + call.bare) && (call.Matching? ==> HeldIs(s, c, call.held))
    ensures Named(WithCall(s, c, call))
  {
    var r := WithCall(s, c, call);
    forall d | d in s.calls && d != c && s.calls[d].Matching? ensures HeldIs(r, d, r.calls[d].held) {
      assert HeldIs(s, d, s.calls[d].held);
    }
    assert call.Matching? ==> HeldIs(r, c, call.held);
    hide HeldIs;
  }

  lemma StartsKeep(s: State, a: State, c: nat, i: nat)
    requires Good(s) && Graph(a) && Grows(s, a) && a == s.(producers := a.producers, tracks := a.tracks, calls := a.calls) && a.producers.Keys == s.producers.Keys
    requires Busy(s, c) && i in s.producers && a.calls == Starts(s, c, i).calls
    ensures Good(a)
  {
    hide Known, Heard, Owned, Counted, Named, Locked;
    NamedCall(s, c);
    CallNamed(s, c, a.calls[c]);
    NamedGrows(WithCall(s, c, a.calls[c]), a);
    LockedSame(s, a);
    assert Pending(a) == Pending(s);
    SameCount(s, a);
  }

  lemma NamedCall(s: State, c: nat)
    requires Named(s) && c in s.calls
    ensures c !in s.consumers && forall i :: i in s.calls[c].starts + s.calls[c].bare ==> i in s.producers
    ensures s.calls[c].Matching? ==> HeldIs(s, c, s.calls[c].held)
  {
  }

  lemma AddToConsumerKeeps(s: State, c: nat, i: nat, t: nat)
    requires Good(s) && Enabled(s, AddToConsumer(c, i, t))
    ensures Good(Apply(s, AddToConsumer(c, i, t)))
  {
    hide Known, Heard, Owned, Named, Locked, Counted, WithChild;
    NamedCall(s, c);
    var b := Starts(s, c, i);
    SameGraph(s, b);
    ChildKeeps(b, t, Cons(c));
    ChildIs(b, t, Cons(c));
    ChildIs(s, t, Cons(c));
    assert Apply(s, AddToConsumer(c, i, t)) == WithChild(b, t, Cons(c)) by { ChildThenCall(s, c, i, t, Cons(c)); }
    StartsKeep(s, WithChild(b, t, Cons(c)), c, i);
  }

  lemma ChildThenCall(s: State, c: nat, i: nat, t: nat, child: Owner)
    requires Busy(s, c) && t in s.tracks
    ensures Starts(WithChild(s, t, child), c, i) == WithChild(Starts(s, c, i), t, child)
  {
  }

  // The connection of a producer listens to a track.
  function Listened(s: State, i: nat, t: nat): State
    requires i in s.producers && t in s.tracks
  {
    WithChild(WithSender(WithLife(s, i, After(s.producers[i], Lifecycle.AddTrack(true))), i, t), t, Prod(i))
  }

  lemma ListenedKeeps(s: State, i: nat, t: nat)
    requires Graph(s) && i in s.producers && s.producers[i].life.phase != Idle && t in s.tracks && s.tracks[t].owner.Cons?
    ensures var a := Listened(s, i, t); Graph(a) && Grows(s, a) && a == s.(producers := a.producers, tracks := a.tracks) && a.producers.Keys == s.producers.Keys
  {
    hide Known, Heard, Owned, Do, Invariant, WithSender, WithChild, Follows;
    var life := After(s.producers[i], Lifecycle.AddTrack(true));
    KnownLife(s, i);
    StepFollows(s.producers[i], Lifecycle.AddTrack(true));
    GetTrackTakes(s.producers[i]);
    LifeKeeps(s, i, life);
    var b := WithLife(s, i, life);
    assert Taken(b.producers[i]);
    SenderKeeps(b, i, t);
    SenderIs(b, i, t);
    var d := WithSender(b, i, t);
    ChildKeeps(d, t, Prod(i));
    ChildIs(d, t, Prod(i));
  }

  lemma AddToProducerKeeps(s: State, c: nat, i: nat, t: nat)
    requires Good(s) && Enabled(s, AddToProducer(c, i, t))
    ensures Good(Apply(s, AddToProducer(c, i, t)))
  {
    hide Known, Heard, Owned, Named, Locked, Counted, Listened;
    NamedCall(s, c);
    ListenedKeeps(s, i, t);
    var a := Listened(s, i, t);
    var r := Starts(a, c, i);
    SameGraph(a, r);
    assert Apply(s, AddToProducer(c, i, t)) == r by { ListenedIs(s, c, i, t); }
    StartsKeep(s, r, c, i);
  }

  lemma ListenedIs(s: State, c: nat, i: nat, t: nat)
    requires Enabled(s, AddToProducer(c, i, t))
    ensures Busy(Listened(s, i, t), c) && Apply(s, AddToProducer(c, i, t)) == Starts(Listened(s, i, t), c, i)
  {
    hide After;
  }

  lemma GetBackKeeps(s: State, c: nat, t: nat)
    requires Good(s) && Enabled(s, GetBack(c, t))
    ensures Good(Apply(s, GetBack(c, t)))
  {
    hide Known, Heard, Owned, Named, Locked, Counted;
    var a := if t in s.tracks then s else WithTrack(s, t, Track(Cons(c), 0, []));
    if t !in s.tracks {
      TrackKeeps(s, t, c);
    }
    HoldKeeps(s, a, c, Got(t));
  }

  // A step of a call or of the list that leaves the graph alone.
  lemma CallKeeps(s: State, c: nat, call: Call)
    requires Good(s) && c in s.calls && (call.Matching? <==> s.calls[c].Matching?) && call.starts == s.calls[c].starts
    requires forall i :: i in call.bare ==> i in s.producers
    requires (call.Starting? ==> call.left <= call.starts + call.bare) && (call.Matching? ==> call.held == s.calls[c].held)
    ensures Good(WithCall(s, c, call))
  {
    hide Known, Heard, Owned, Counted, Named, Locked, HeldIs;
    var r := WithCall(s, c, call);
    NamedCall(s, c);
    SameGraph(s, r);
    CallNamed(s, c, call);
    LockedSame(s, r);
    assert Pending(r) == Pending(s);
    SameCount(s, r);
  }

  lemma BeginKeeps(s: State, c: nat)
    requires Good(s) && Enabled(s, Begin(c))
    ensures Good(Apply(s, Begin(c)))
  {
    hide Known, Heard, Owned, Named, Locked, Counted;
    var r := Apply(s, Begin(c));
    SameGraph(s, r);
    CallNamed(s, c, Matching({}, {}, Nothing));
    NamedGrows(WithCall(s, c, Matching({}, {}, Nothing)), r);
    LockedSame(s, r);
    BeginCounts(s, c);
  }

  lemma BeginCounts(s: State, c: nat)
    requires Counted(s) && c !in s.calls
    ensures Counted(WithCall(s, c, Matching({}, {}, Nothing)).(pending := s.pending + 1))
  {
    assert Pending(WithCall(s, c, Matching({}, {}, Nothing))) == Pending(s) + {c};
  }

  lemma EndKeeps(s: State, c: nat)
    requires Good(s) && Busy(s, c)
    ensures Good(Ended(s, c))
  {
    hide Known, Heard, Owned, Named, Locked;
    var r := Ended(s, c);
    SameGraph(s, r);
    EndNamed(s, c);
    LockedSame(s, r);
    assert Pending(r) == Pending(s) - {c};
  }

  lemma EndNamed(s: State, c: nat)
    requires Named(s) && Busy(s, c)
    ensures Named(Ended(s, c))
  {
    var r := Ended(s, c);
    forall d | d in r.calls && r.calls[d].Matching? ensures HeldIs(r, d, r.calls[d].held) {
      assert HeldIs(s, d, s.calls[d].held);
    }
    hide HeldIs;
  }

  lemma ReturnKeeps(s: State, c: nat)
    requires Good(s) && c in s.calls && s.calls[c].Starting?
    ensures Good(Returned(s, c))
  {
    hide Known, Heard, Owned, Named, Locked, Counted;
    var r := Returned(s, c);
    SameGraph(s, r);
    ReturnNamed(s, c);
    LockedSame(s, r);
    assert Pending(r) == Pending(s);
    SameCount(s, r);
  }

  lemma ReturnNamed(s: State, c: nat)
    requires Named(s) && c in s.calls
    ensures Named(Returned(s, c))
  {
    var r := Returned(s, c);
    forall d | d in r.calls && r.calls[d].Matching? ensures HeldIs(r, d, r.calls[d].held) {
      assert HeldIs(s, d, s.calls[d].held);
    }
    hide HeldIs;
  }

  lemma LifeStepKeeps(s: State, i: nat, step: Lifecycle.Step)
    requires Good(s) && i in s.producers && Plain(s.producers[i], step)
    ensures Good(WithLife(s, i, After(s.producers[i], step)))
  {
    hide Known, Heard, Owned, Named, Locked, Counted, After, Follows, Plain;
    KnownLife(s, i);
    StepFollows(s.producers[i], step);
    LifeKeeps(s, i, After(s.producers[i], step));
    var r := WithLife(s, i, After(s.producers[i], step));
    NamedGrows(s, r);
    LockedSame(s, r);
    assert Pending(r) == Pending(s);
    SameCount(s, r);
  }

  lemma RemoveKeeps(s: State, c: nat)
    requires Good(s) && c in s.consumers
    ensures Good(Left(s, c))
  {
    hide Known, Heard, Owned, Named, Locked, Counted, Left;
    var r := Left(s, c);
    LeftKeeps(s, c);
    LeftIs(s, c);
    LeftNamed(s, c);
    LockedSame(s, r);
    assert Pending(r) == Pending(s);
    SameCount(s, r);
  }

  lemma LeftNamed(s: State, c: nat)
    requires Named(s)
    ensures Named(Left(s, c))
  {
    var r := Left(s, c);
    LeftIs(s, c);
    forall t | t in s.tracks ensures r.tracks[t].owner == s.tracks[t].owner {
      LeftTracks(s, c, t);
    }
    hide Left;
    forall d | d in r.calls && r.calls[d].Matching? ensures HeldIs(r, d, r.calls[d].held) {
      assert HeldIs(s, d, s.calls[d].held);
    }
    hide HeldIs;
  }

  lemma JoinedKeeps(s: State, p: Producer)
    requires Good(s) && Invariant(p.life) && p.receivers == [] == p.senders
    ensures Good(Joined(s, p))
  {
    hide Heard, Owned, Named, Locked, Counted, Invariant, Taken;
    var r := Joined(s, p);
    assert s.made !in s.producers;
    assert Known(r);
    hide Known;
    JoinedHeard(s, p);
    JoinedOwned(s, p);
    NamedGrows(s, r);
    assert Locked(r) by { JoinedLocked(s, p); }
    assert Pending(r) == Pending(s);
    SameCount(s, r);
  }

  lemma JoinedLocked(s: State, p: Producer)
    requires Locked(s)
    ensures Locked(Joined(s, p))
  {
  }

  lemma JoinedHeard(s: State, p: Producer)
    requires Heard(s) && s.made !in s.producers
    ensures Heard(Joined(s, p))
  {
  }

  lemma JoinedOwned(s: State, p: Producer)
    requires Owned(s) && s.made !in s.producers
    ensures Owned(Joined(s, p))
  {
    var r := Joined(s, p);
    forall u, j | u in s.tracks && OwnedBy(s, u, j) ensures OwnedBy(r, u, j) {
    }
    hide OwnedBy;
  }

  lemma SwapKeeps(s: State, i: nat, act: nat, conn: nat, list: seq<nat>, heard: seq<nat>)
    requires Good(s) && CanSwap(s, i, act, conn, list, heard)
    ensures Good(Swapped(s, i, act, conn, list, heard))
  {
    hide Known, Heard, Owned, Named, Locked, Counted, Swapped, Renewed, Swaps, IsNew;
    var r := Swapped(s, i, act, conn, list, heard);
    SwappedKeeps(s, i, act, conn, list, heard);
    SwappedIs(s, i, act, conn, list, heard);
    NamedGrows(s, r);
    LockedSame(s, r);
    assert Pending(r) == Pending(s);
    SameCount(s, r);
  }

  lemma StopNowKeeps(s: State)
    requires Good(s) && Enabled(s, StopNow)
    ensures Good(Apply(s, StopNow))
  {
    hide Known, Heard, Owned, Named, Counted, Stopped;
    var i := s.lock.value.doomed.value;
    var a := Stopped(s, i);
    StoppedKeeps(s, i);
    StoppedIs(s, i);
    forall t | t in s.tracks ensures a.tracks[t].owner == s.tracks[t].owner {
      StoppedTracks(s, i, t);
    }
    NamedGrows(s, a);
    var r := Apply(s, StopNow);
    SameGraph(a, r);
    NamedGrows(a, r);
    assert Pending(r) == Pending(s);
    SameCount(s, r);
  }

  // Steps that only the sweep sees.
  lemma LockKeeps(s: State, r: State)
    requires Good(s) && r == s.(listed := r.listed, due := r.due, waiting := r.waiting, lock := r.lock, moving := r.moving) && Locked(r)
    ensures Good(r)
  {
    hide Known, Heard, Owned, Named, Counted, Locked;
    SameGraph(s, r);
    NamedGrows(s, r);
    assert Pending(r) == Pending(s);
    SameCount(s, r);
  }

  lemma LookKeeps(s: State, i: nat)
    requires Good(s) && Enabled(s, Look(i))
    ensures Good(Apply(s, Look(i)))
  {
    hide HasChild, Known, Heard, Owned, Named, Counted;
    LockKeeps(s, Apply(s, Look(i)));
  }

  lemma EveryStepKeeps(s: State, step: Step)
    requires Good(s) && Enabled(s, step)
    ensures Good(Apply(s, step))
  {
    hide Good, Do, After, Stopped, Left, Swapped, Holds, Starts, Joined, Returned, Ended, CanSwap, HasChild;
    match step
    case Begin(c) => BeginKeeps(s, c);
    case DialFor(c, i, dialled) => LifeStepKeeps(s, i, Lifecycle.Dial(dialled));
    case TakeTrack(c, i, t) => TakeKeeps(s, c, i, t);
    case AddToConsumer(c, i, t) => AddToConsumerKeeps(s, c, i, t);
    case GetBack(c, t) => GetBackKeeps(s, c, t);
    case AddToProducer(c, i, t) => AddToProducerKeeps(s, c, i, t);
    case MatchBare(c, i) =>
      GoodNamed(s, c);
      CallKeeps(s, c, Matching(s.calls[c].starts, s.calls[c].bare + {i}, s.calls[c].held));
    case End(c) => EndKeeps(s, c);
    case Commit(c) =>
      GoodNamed(s, c);
      CallKeeps(s, c, Starting(s.calls[c].starts, s.calls[c].bare, s.calls[c].starts + s.calls[c].bare));
    case StartOne(c, i) =>
      LifeStepKeeps(s, i, Start);
      StartOneKeeps(s, WithLife(s, i, After(s.producers[i], Start)), c, i);
    case Return(c) => ReturnKeeps(s, c);
    case Remove(c) => RemoveKeeps(s, c); LeftIs(s, c); DueKeeps(Left(s, c));
    case AddProducer(external, conn) => GivenIsGood(external, conn); JoinedKeeps(s, Producer(Given(if external then External else Internal, conn), [], []));
    case RemoveProducer(i) => UnlistKeeps(s, i);
    case Own(i, own) => LifeStepKeeps(s, i, own);
    case Swap(i, act, conn, list, heard) => SwapKeeps(s, i, act, conn, list, heard);
    case Look(i) => LookKeeps(s, i);
    case StopNow => StopNowKeeps(s);
    case _ => SweepKeeps(s, step);
  }

  lemma SweepKeeps(s: State, step: Step)
    requires Good(s) && Enabled(s, step) && (step.Check? || step.Lock? || step.Unlock? || step.Glimpse? || step.Moving? || step.Settle?)
    ensures Good(Apply(s, step))
  {
    hide Known, Heard, Owned, Named, Counted;
    LockKeeps(s, Apply(s, step));
  }

  lemma DueKeeps(s: State)
    requires Good(s)
    ensures Good(s.(due := s.due + 1))
  {
    hide Known, Heard, Owned, Named, Counted;
    LockKeeps(s, s.(due := s.due + 1));
  }

  lemma UnlistKeeps(s: State, i: nat)
    requires Good(s)
    ensures Good(s.(listed := s.listed - {i}))
  {
    hide Known, Heard, Owned, Named, Counted;
    LockKeeps(s, s.(listed := s.listed - {i}));
  }

  lemma GivenIsGood(external: bool, conn: nat)
    ensures Invariant(Given(if external then External else Internal, conn))
  {
  }

  lemma GoodNamed(s: State, c: nat)
    requires Good(s) && c in s.calls
    ensures forall i :: i in s.calls[c].starts + s.calls[c].bare ==> i in s.producers
    ensures s.calls[c].Starting? ==> s.calls[c].left <= s.calls[c].starts + s.calls[c].bare
  {
    hide Known, Heard, Owned, Locked, Counted, HeldIs;
  }

  lemma StartOneKeeps(s: State, a: State, c: nat, i: nat)
    requires Good(a) && c in s.calls && s.calls[c].Starting? && a.calls == s.calls
    ensures Good(WithCall(a, c, Starting(s.calls[c].starts, s.calls[c].bare, s.calls[c].left - {i})))
  {
    hide Good;
    GoodNamed(a, c);
    CallKeeps(a, c, Starting(s.calls[c].starts, s.calls[c].bare, s.calls[c].left - {i}));
  }

  // ---- Whole runs -------------------------------------------------------------------------

  // A stream with producers for some URLs.
  function NewStream(urls: nat): State {
    State(FromUrls(urls), FromUrls(urls).Keys, urls, map[], map[], map[], 0, 0, 0, None, {})
  }

  function FromUrls(n: nat): (producers: map<nat, Producer>)
    ensures forall i: nat :: i in producers <==> i < n
    ensures forall i :: i in producers ==> producers[i] == Producer(NewProducer(), [], [])
  {
    if n == 0 then map[] else FromUrls(n - 1)[n - 1 := Producer(NewProducer(), [], [])]
  }

  function Run(urls: nat, steps: seq<Step>): Option<State> {
    if steps == [] then Some(NewStream(urls))
    else
      var before, step := Run(urls, steps[..|steps| - 1]), steps[|steps| - 1];
      if before.Some? && Enabled(before.value, step) then Some(Apply(before.value, step)) else None
  }

  lemma NewIsGood(urls: nat)
    ensures Good(NewStream(urls))
  {
    EveryRun(NewProducer(), []);
    assert Pending(NewStream(urls)) == {};
    hide Invariant;
  }

  // In every interleaving pending counts the calls that are matching, children
  // and tracks agree, and no producer loses its connection while it is used.
  lemma {:induction false} EveryRunIsGood(urls: nat, steps: seq<Step>)
    requires Run(urls, steps).Some?
    ensures Good(Run(urls, steps).value)
  {
    hide Good, Apply, Enabled;
    if steps == [] {
      NewIsGood(urls);
    } else {
      EveryRunIsGood(urls, steps[..|steps| - 1]);
      EveryStepKeeps(Run(urls, steps[..|steps| - 1]).value, steps[|steps| - 1]);
    }
  }
}
