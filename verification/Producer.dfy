// internal/streams/producer.go: the producer with its connection and tracks.

module Producer {
  import opened Bytes
  import opened Node
  import opened Connection
  import opened Lifecycle

  // No receive-only media of a connection offers the codec of another.
  predicate DistinctCodecs(medias: seq<Media>) {
    forall i, j :: 0 <= i < j < |medias| && medias[i].direction == Recvonly && medias[j].direction == Recvonly ==>
      forall c :: c in medias[i].codecs ==> c !in medias[j].codecs
  }

  // A codec of one of the first m receive-only medias.
  ghost predicate Used(medias: seq<Media>, m: nat, codec: Codec)
    requires m <= |medias|
  {
    exists k :: 0 <= k < m && medias[k].direction == Recvonly && codec in medias[k].codecs
  }

  // The children of a track when the old connection is stopped.
  function Kept(closed: bool, kids: seq<Node>): seq<Node> {
    if closed then Leftover(kids) else kids
  }

  lemma KeptIsAll(kids: seq<Node>)
    requires Distinct(kids)
    ensures Kept(true, kids) == kids <==> kids == []
  {
    ClosingLeaves(kids);
  }

  // ---- Which receivers move ----------------------------------------------------------------

  // refused(m, i): the new connection does not give receiver i a track of media m.
  type Refusals = (nat, nat) -> bool

  function Codecs(rs: seq<Node>): seq<Codec> {
    seq(|rs|, i requires 0 <= i < |rs| => rs[i].codec)
  }

  // The first receiver, from the i-th on, for which the media has a codec and
  // the connection a track.
  function Pick(media: Media, m: nat, codecs: seq<Codec>, i: nat, refused: Refusals): (r: Option<(nat, Codec)>)
    requires i <= |codecs|
    ensures r.Some? ==> i <= r.value.0 < |codecs|
    decreases |codecs| - i
  {
    if i == |codecs| then None
    else
      var codec := MatchCodec(media.codecs, codecs[i]);
      if codec.Some? && !refused(m, i) then Some((i, codec.value)) else Pick(media, m, codecs, i + 1, refused)
  }

  lemma PickNext(media: Media, m: nat, codecs: seq<Codec>, i: nat, refused: Refusals)
    requires i < |codecs|
    ensures var codec := MatchCodec(media.codecs, codecs[i]);
            Pick(media, m, codecs, i, refused) == if codec.Some? && !refused(m, i) then Some((i, codec.value)) else Pick(media, m, codecs, i + 1, refused)
  {
  }

  lemma PickNone(media: Media, m: nat, codecs: seq<Codec>, refused: Refusals)
    ensures Pick(media, m, codecs, |codecs|, refused) == None
  {
  }

  // The codecs of the receivers and the receivers with a new track, after the
  // first m medias: one receiver for each media that is received.
  function Plan(medias: seq<Media>, m: nat, codecs: seq<Codec>, refused: Refusals): (r: (seq<Codec>, set<nat>))
    requires m <= |medias|
    ensures |r.0| == |codecs| && forall i :: i in r.1 ==> i < |codecs|
  {
    if m == 0 then (codecs, {})
    else
      var before := Plan(medias, m - 1, codecs, refused);
      if medias[m - 1].direction != Recvonly then before
      else
        var pick := Pick(medias[m - 1], m - 1, before.0, 0, refused);
        if pick == None then before else (before.0[pick.value.0 := pick.value.1], before.1 + {pick.value.0})
  }

  // The receivers that get a track of a new connection.
  function Movers(medias: seq<Media>, codecs: seq<Codec>, refused: Refusals): set<nat> {
    Plan(medias, |medias|, codecs, refused).1
  }

  // A connection that has only the first of two codecs loses the second track.
  lemma OneMediaLosesOne(video: Codec, audio: Codec, offered: Codec)
    requires Matches(offered, video) && !Matches(offered, audio)
    ensures Movers([Media("video", Recvonly, [offered])], [video, audio], (m, i) => false) == {0}
  {
    var medias := [Media("video", Recvonly, [offered])];
    assert Pick(medias[0], 0, [video, audio], 0, (m, i) => false) == Some((0, offered));
    assert Plan(medias, 0, [video, audio], (m, i) => false) == ([video, audio], {});
  }

  // A connection that refuses the track loses it though it has the codec.
  lemma RefusalLosesOne(video: Codec, offered: Codec)
    ensures Movers([Media("video", Recvonly, [offered])], [video], (m, i) => true) == {}
  {
    var medias := [Media("video", Recvonly, [offered])];
    assert Plan(medias, 0, [video], (m, i) => true) == ([video], {});
  }

  // Media m has a codec for receiver m, and for no other, before or after it
  // gets its new track.
  ghost predicate OneForEach(medias: seq<Media>, codecs: seq<Codec>) {
    && |medias| == |codecs|
    && (forall m :: 0 <= m < |medias| ==> medias[m].direction == Recvonly && MatchCodec(medias[m].codecs, codecs[m]).Some?)
    && (forall m, i :: 0 <= m < |medias| && 0 <= i < |codecs| && m != i ==>
          MatchCodec(medias[m].codecs, codecs[i]) == None && MatchCodec(medias[m].codecs, MatchCodec(medias[i].codecs, codecs[i]).value) == None)
  }

  lemma {:induction false} PickIs(media: Media, m: nat, codecs: seq<Codec>, i: nat, refused: Refusals)
    requires i <= m < |codecs| && !refused(m, m) && MatchCodec(media.codecs, codecs[m]).Some?
    requires forall k :: i <= k < m ==> MatchCodec(media.codecs, codecs[k]) == None
    ensures Pick(media, m, codecs, i, refused) == Some((m, MatchCodec(media.codecs, codecs[m]).value))
    decreases m - i
  {
    if i < m {
      PickIs(media, m, codecs, i + 1, refused);
    }
  }

  lemma {:induction false} PlanOfOneForEach(medias: seq<Media>, m: nat, codecs: seq<Codec>, refused: Refusals)
    requires OneForEach(medias, codecs) && m <= |medias| && forall k :: 0 <= k < m ==> !refused(k, k)
    ensures var plan := Plan(medias, m, codecs, refused);
            && (forall i :: i in plan.1 <==> 0 <= i < m)
            && forall i :: 0 <= i < |codecs| ==> plan.0[i] == if i < m then MatchCodec(medias[i].codecs, codecs[i]).value else codecs[i]
  {
    hide MatchCodec;
    if m > 0 {
      PlanOfOneForEach(medias, m - 1, codecs, refused);
      PickIs(medias[m - 1], m - 1, Plan(medias, m - 1, codecs, refused).0, 0, refused);
    }
  }

  // A connection with one media for each receiver that refuses none moves all.
  lemma AllMove(medias: seq<Media>, codecs: seq<Codec>, refused: Refusals)
    requires OneForEach(medias, codecs) && forall k :: 0 <= k < |medias| ==> !refused(k, k)
    ensures forall i :: i in Movers(medias, codecs, refused) <==> 0 <= i < |codecs|
  {
    PlanOfOneForEach(medias, |medias|, codecs, refused);
  }

  function Kids(rs: seq<Node>): seq<seq<Node>>
    reads rs
  {
    seq(|rs|, i requires 0 <= i < |rs| reads rs => rs[i].childs)
  }

  class Producer {
    var conn: Conn?
    var receivers: seq<Node>
    var senders: seq<Node>
    var phase: Phase
    var workerID: nat
    var acts: map<nat, Activity>
    var spawned: nat
    ghost var owned: multiset<nat>
    ghost var stopped: multiset<nat>

    ghost function Current(): Life
      reads this
    {
      Life(phase, if conn == null then None else Some(conn.id), workerID, acts, spawned, owned, stopped)
    }

    // Receivers are tracks of the connection, senders are tracks of consumers
    // to which the connection listens.
    ghost predicate Tracked(nodes: set<Node>)
      reads this`conn, this`receivers, this`senders, conn, nodes, receivers, senders, if conn == null then {} else (set n | n in conn.receivers) + (set n | n in conn.senders)
    {
      && Forest(nodes) && Distinct(receivers)
      && (forall r :: r in receivers ==> r in nodes && r.parent == null && r !in senders)
      && (forall s :: s in senders ==> s in nodes && s.parent == null)
      && (conn != null ==> conn.Valid(nodes) && (forall s :: s in conn.senders ==> s.parent in senders)
                           && (forall r :: r in conn.receivers ==> r !in senders))
    }

    // A connection whose tracks nobody uses.
    ghost predicate Unused(c: Conn, nodes: set<Node>)
      reads this, conn, c, nodes, c.receivers, c.senders
    {
      && c != conn && c.Valid(nodes) && c.senders == []
      && forall r :: r in c.receivers ==> r.childs == [] && r !in receivers && r !in senders && (conn != null ==> r !in conn.receivers)
    }

    // While the medias of a new connection are looked at, the first m of them
    // done: every receiver has its children, be it the old track or a new one.
    ghost predicate Moved(orig: seq<Node>, kids: seq<seq<Node>>, c: Conn, m: nat, nodes: set<Node>)
      reads this, c, nodes, c.receivers, c.senders, orig, receivers, senders
    {
      && m <= |c.medias| && c.Valid(nodes) && |receivers| == |orig| == |kids| && Distinct(receivers) && Distinct(orig)
      && (forall r :: r in receivers ==> r in nodes && r.parent == null)
      && (forall r :: r in orig ==> r in nodes && r.parent == null && r !in c.receivers)
      && (forall s :: s in senders ==> s in nodes && s.parent == null && s !in receivers && s !in orig && s !in c.receivers)
      && (forall s :: s in c.senders ==> s.parent in senders)
      && (forall i :: 0 <= i < |orig| ==> receivers[i].childs == kids[i])
      && (forall i :: 0 <= i < |orig| ==> receivers[i] == orig[i] || (receivers[i] in c.receivers && orig[i].childs == []))
      && (forall r :: r in c.receivers && (r.childs != [] || r in receivers) ==> Used(c.medias, m, r.codec))
    }

    // The codecs of the receivers and those with a new track are as planned.
    ghost predicate Planned(orig: seq<Node>, c: Conn, m: nat, refused: Refusals)
      reads this`receivers
    {
      PlannedAs(receivers, orig, c, m, refused)
    }

    static ghost predicate PlannedAs(receivers: seq<Node>, orig: seq<Node>, c: Conn, m: nat, refused: Refusals) {
      && m <= |c.medias| && |receivers| == |orig| && Plan(c.medias, m, Codecs(orig), refused).0 == Codecs(receivers)
      && forall i :: 0 <= i < |orig| ==> (receivers[i] != orig[i] <==> i in Plan(c.medias, m, Codecs(orig), refused).1)
    }

    // conn.GetTrack for a codec that no media before offered: nobody uses the
    // track.
    method Offer(c: Conn, codec: Codec, refused: bool, ghost orig: seq<Node>, ghost kids: seq<seq<Node>>, ghost m: nat, ghost nodes: set<Node>)
      returns (track: Node?, ghost more: set<Node>)
      requires Moved(orig, kids, c, m, nodes) && !Used(c.medias, m, codec)
      modifies c`receivers
      ensures fresh(more - nodes) && Moved(orig, kids, c, m, more) && (track == null <==> refused)
      ensures track == null ==> c.receivers == old(c.receivers) && more == nodes
      ensures track != null ==>
                more == nodes + {track} && track in c.receivers && track.codec == codec
                && track.parent == null && track.childs == [] && track !in receivers && track !in orig
                && track !in senders && (track in old(c.receivers) || fresh(track))
      ensures forall r :: r in c.receivers ==> r in old(c.receivers) || fresh(r)
    {
      hide Used;
      track := c.GetTrack(codec, refused);
      more := if track == null then nodes else nodes + {track};
    }

    // receiver.Replace(track); p.receivers[i] = track
    method MoveTo(i: nat, track: Node, c: Conn, ghost orig: seq<Node>, ghost kids: seq<seq<Node>>, ghost m: nat, ghost nodes: set<Node>)
      requires Moved(orig, kids, c, m, nodes) && m < |c.medias| && i < |receivers|
      requires track in nodes && track in c.receivers && Used(c.medias, m + 1, track.codec)
      requires track.parent == null && track.childs == [] && track !in receivers && track !in orig && track !in senders
      modifies this`receivers, receivers`childs, track`childs, receivers[i].childs`parent
      ensures Moved(orig, kids, c, m + 1, nodes) && receivers == old(receivers)[i := track]
      ensures forall n :: n in nodes ==> n.parent == old(n.parent) || (old(n.parent) in old(receivers) && n.parent in receivers)
    {
      hide Used, Distinct;
      UsedByMore(c, m);
      DistinctUpdate(receivers, i, track);
      Replace(receivers[i], track, nodes);
      receivers := receivers[i := track];
    }

    // A track of the new connection for receiver i, unless it is refused.
    method TryMove(i: nat, codec: Codec, refuses: bool, c: Conn, ghost orig: seq<Node>, ghost kids: seq<seq<Node>>, ghost m: nat, ghost nodes: set<Node>)
      returns (track: Node?, ghost more: set<Node>)
      requires Moved(orig, kids, c, m, nodes) && m < |c.medias| && i < |receivers|
      requires !Used(c.medias, m, codec) && Used(c.medias, m + 1, codec)
      modifies this`receivers, c`receivers, receivers`childs, c.receivers`childs, receivers[i].childs`parent
      ensures nodes <= more && fresh(more - nodes) && (track == null <==> refuses)
      ensures track == null ==> more == nodes && receivers == old(receivers) && c.receivers == old(c.receivers) && Moved(orig, kids, c, m, nodes)
      ensures track != null ==> track !in orig && track.codec == codec && receivers == old(receivers)[i := track] && Moved(orig, kids, c, m + 1, more)
      ensures forall n :: n in nodes ==> n.parent == old(n.parent) || (track != null && old(n.parent) in old(receivers) && n.parent in receivers)
      ensures forall r :: r in c.receivers ==> r in old(c.receivers) || fresh(r)
    {
      ChildrenKnown(orig, kids, c, m, nodes, i);
      hide Moved, Used;
      track, more := Offer(c, codec, refuses, orig, kids, m, nodes);
      if track != null {
        MoveTo(i, track, c, orig, kids, m, more);
        assert forall n :: n in nodes ==> n in more;
      }
    }

    lemma ChildrenKnown(orig: seq<Node>, kids: seq<seq<Node>>, c: Conn, m: nat, nodes: set<Node>, i: nat)
      requires Moved(orig, kids, c, m, nodes) && i < |receivers|
      ensures forall k :: k in receivers[i].childs ==> k in nodes
    {
      hide Used, Distinct;
    }

    // The loop over the receivers for one receive-only media.
    method MoveOne(c: Conn, m: nat, refused: Refusals, ghost orig: seq<Node>, ghost kids: seq<seq<Node>>, ghost nodes: set<Node>)
      returns (ghost more: set<Node>)
      requires m < |c.medias| && c.medias[m].direction == Recvonly && DistinctCodecs(c.medias)
      requires Moved(orig, kids, c, m, nodes) && Planned(orig, c, m, refused)
      modifies this`receivers, c`receivers, receivers`childs, c.receivers`childs, nodes`parent
      ensures nodes <= more && fresh(more - nodes) && Moved(orig, kids, c, m + 1, more) && Planned(orig, c, m + 1, refused)
      ensures forall n :: n in nodes ==> n.parent == old(n.parent) || (old(n.parent) in old(receivers) && n.parent in receivers)
      ensures forall r :: r in c.receivers ==> r in old(c.receivers) || fresh(r)
    {
      hide Pick, Plan, PlannedAs, MatchCodec, Moved, Used, DistinctCodecs;
      more := nodes;
      var i := 0;
      while i < |receivers|
        invariant i <= |receivers| && receivers == old(receivers) && c.receivers == old(c.receivers)
        invariant Pick(c.medias[m], m, Codecs(receivers), 0, refused) == Pick(c.medias[m], m, Codecs(receivers), i, refused)
        invariant more == nodes && Moved(orig, kids, c, m, nodes)
        invariant forall n :: n in nodes ==> n.parent == old(n.parent)
      {
        ghost var codecs := Codecs(receivers);
        var codec := MatchCodec(c.medias[m].codecs, receivers[i].codec);
        PickNext(c.medias[m], m, codecs, i, refused);
        if codec != None {
          NotUsed(c.medias, m, codec.value);
          UsedNow(c.medias, m, codec.value);
          ChildrenKnown(orig, kids, c, m, nodes, i);
          var track: Node?;
          track, more := TryMove(i, codec.value, refused(m, i), c, orig, kids, m, nodes);
          if track != null {
            NextPlan(old(receivers), codecs, orig, c, m, refused, i, track);
            return;
          }
        }
        i := i + 1;
      }
      NoneMoved(c, orig, kids, m, nodes);
      PickNone(c.medias[m], m, Codecs(receivers), refused);
      NobodyPlanned(orig, c, m, refused);
    }

    static lemma NothingPlanned(rs: seq<Node>, c: Conn, refused: Refusals)
      ensures PlannedAs(rs, rs, c, 0, refused)
    {
    }

    lemma NobodyPlanned(orig: seq<Node>, c: Conn, m: nat, refused: Refusals)
      requires Planned(orig, c, m, refused) && m < |c.medias|
      requires c.medias[m].direction == Recvonly ==> Pick(c.medias[m], m, Codecs(receivers), 0, refused) == None
      ensures Planned(orig, c, m + 1, refused)
    {
      hide Pick;
    }

    static lemma NextPlan(rs: seq<Node>, codecs: seq<Codec>, orig: seq<Node>, c: Conn, m: nat, refused: Refusals, i: nat, track: Node)
      requires PlannedAs(rs, orig, c, m, refused) && m < |c.medias| && c.medias[m].direction == Recvonly && i < |rs| && codecs == Codecs(rs)
      requires Pick(c.medias[m], m, codecs, 0, refused) == Some((i, track.codec)) && track !in orig
      ensures PlannedAs(rs[i := track], orig, c, m + 1, refused)
    {
      hide Pick;
    }

    // The loop over the senders for one send-only media.
    method AddSenders(c: Conn, media: Media, ghost orig: seq<Node>, ghost kids: seq<seq<Node>>, ghost m: nat, ghost nodes: set<Node>)
      returns (ghost more: set<Node>)
      requires Moved(orig, kids, c, m, nodes)
      modifies c`senders, senders`childs
      ensures nodes <= more && fresh(more - nodes) && Moved(orig, kids, c, m, more)
      ensures forall s :: s in senders ==> old(s.childs) <= s.childs
    {
      more := nodes;
      var i := 0;
      while i < |senders|
        invariant i <= |senders| && nodes <= more && fresh(more - nodes) && Moved(orig, kids, c, m, more)
        invariant forall s :: s in senders ==> old(s.childs) <= s.childs
      {
        var codec := MatchCodec(media.codecs, senders[i].codec);
        if codec != None {
          more := Listen(c, codec.value, senders[i], orig, kids, m, more);
        }
        i := i + 1;
      }
    }

    // conn.(core.Consumer).AddTrack(media, codec, sender)
    method Listen(c: Conn, codec: Codec, track: Node, ghost orig: seq<Node>, ghost kids: seq<seq<Node>>, ghost m: nat, ghost nodes: set<Node>)
      returns (ghost more: set<Node>)
      requires Moved(orig, kids, c, m, nodes) && track in senders
      modifies c`senders, track`childs
      ensures nodes <= more && fresh(more - nodes) && Moved(orig, kids, c, m, more) && old(track.childs) <= track.childs
    {
      hide Used;
      var sender := c.AddTrack(codec, track);
      more := if sender == null then nodes else nodes + {sender};
      if sender != null {
        DistinctSnoc(old(track.childs), sender);
      }
    }

    lemma NothingMoved(c: Conn, nodes: set<Node>)
      requires Tracked(nodes) && Unused(c, nodes)
      ensures Moved(receivers, Kids(receivers), c, 0, nodes)
    {
      hide Used;
    }

    lemma Places(orig: seq<Node>, kids: seq<seq<Node>>, c: Conn, m: nat, nodes: set<Node>)
      requires Moved(orig, kids, c, m, nodes)
      ensures forall r :: r in receivers ==> r in nodes && (r in orig || r in c.receivers)
      ensures forall r :: r in c.receivers ==> r in nodes
      ensures forall s :: s in senders ==> s in nodes && s !in receivers && s !in c.receivers
    {
      hide Used, Distinct;
    }

    // The loop over the medias of the new connection.
    method MoveEach(c: Conn, refused: Refusals, ghost nodes: set<Node>) returns (ghost more: set<Node>)
      requires Tracked(nodes) && Unused(c, nodes) && DistinctCodecs(c.medias)
      modifies this`receivers, c`receivers, c`senders, nodes`childs, nodes`parent
      ensures nodes <= more && fresh(more - nodes)
      ensures Moved(old(receivers), old(Kids(receivers)), c, |c.medias|, more) && Planned(old(receivers), c, |c.medias|, refused)
      ensures forall s :: s in senders ==> old(s.childs) <= s.childs
      ensures forall r :: r in c.receivers ==> r in old(c.receivers) || fresh(r)
      ensures forall n :: n in nodes && old(n.parent) !in old(receivers) && old(n.parent) !in old(c.receivers) ==> n.parent == old(n.parent)
    {
      hide Plan, PlannedAs, Moved, Used, DistinctCodecs;
      assert PlannedAs(receivers, receivers, c, 0, refused) by { NothingPlanned(receivers, c, refused); }
      NothingMoved(c, nodes);
      hide Unused, Tracked;
      more := nodes;
      var m := 0;
      while m < |c.medias|
        invariant m <= |c.medias| && nodes <= more && fresh(more - nodes)
        invariant Moved(old(receivers), old(Kids(receivers)), c, m, more) && Planned(old(receivers), c, m, refused)
        invariant forall s :: s in senders ==> old(s.childs) <= s.childs
        invariant forall r :: r in c.receivers ==> r in old(c.receivers) || fresh(r)
        invariant forall n :: n in nodes && old(n.parent) !in old(receivers) && old(n.parent) !in old(c.receivers) ==> n.parent == old(n.parent)
      {
        Places(old(receivers), old(Kids(receivers)), c, m, more);
        if c.medias[m].direction == Recvonly {
          more := MoveOne(c, m, refused, old(receivers), old(Kids(receivers)), more);
        } else {
          NoneMoved(c, old(receivers), old(Kids(receivers)), m, more);
          NobodyPlanned(old(receivers), c, m, refused);
          if c.medias[m].direction == Sendonly {
            more := AddSenders(c, c.medias[m], old(receivers), old(Kids(receivers)), m + 1, more);
          }
        }
        m := m + 1;
      }
    }

    // The same, told by what the old and the new connection need next.
    method MoveTracks(c: Conn, refused: Refusals, ghost nodes: set<Node>) returns (ghost more: set<Node>)
      requires conn != null && Tracked(nodes) && Unused(c, nodes) && DistinctCodecs(c.medias)
      modifies this`receivers, c`receivers, c`senders, nodes`childs, nodes`parent
      ensures nodes <= more && fresh(more - nodes) && Tracked(more) && Listens(c, more) && |receivers| == old(|receivers|)
      ensures forall i :: 0 <= i < |receivers| ==> receivers[i].childs == old(receivers[i].childs)
      ensures forall i :: 0 <= i < |receivers| ==>
        receivers[i] == old(receivers)[i] || (receivers[i] in c.receivers && receivers[i] !in conn.receivers)
      ensures forall i :: 0 <= i < |receivers| ==> (receivers[i] != old(receivers)[i] <==> i in Movers(c.medias, Codecs(old(receivers)), refused))
      ensures forall s :: s in senders ==> old(s.childs) <= s.childs
    {
      hide Used, DistinctCodecs, Plan;
      assert forall r :: r in conn.receivers ==> r in nodes && r !in c.receivers;
      more := MoveEach(c, refused, nodes);
      assert forall r :: r in c.receivers ==> r !in conn.receivers;
      assert conn.Valid(more);
      forall i | 0 <= i < |receivers| ensures receivers[i].childs == old(receivers[i].childs) {
        assert old(Kids(receivers))[i] == old(receivers[i].childs);
      }
    }

    // What the new connection needs to take over.
    ghost predicate Listens(c: Conn, nodes: set<Node>)
      reads c, nodes`parent, this`senders
    {
      && (forall r :: r in c.receivers ==> r in nodes && r.parent == null && r !in senders)
      && (forall s :: s in c.senders ==> s in nodes && s.parent != null && s.parent !in c.receivers && s.parent in senders)
      && Distinct(c.receivers)
    }

    // From dialling to the new connection in place. The old connection is
    // stopped after the tracks have moved; closing it takes the children of the
    // tracks that did not move.
    method Swap(c: Conn, refused: Refusals, ghost nodes: set<Node>) returns (ghost more: set<Node>)
      requires conn != null && Tracked(nodes) && Unused(c, nodes) && DistinctCodecs(c.medias)
      modifies this`receivers, this`conn, c`receivers, c`senders, nodes`childs, nodes`parent
      ensures nodes <= more && fresh(more - nodes) && conn == c && Tracked(more) && |receivers| == old(|receivers|)
      ensures forall i :: 0 <= i < |receivers| ==>
        receivers[i] == old(receivers)[i] || (receivers[i] in c.receivers && receivers[i] !in old(conn.receivers))
      ensures forall i :: 0 <= i < |receivers| ==> (receivers[i] != old(receivers)[i] <==> i in Movers(c.medias, Codecs(old(receivers)), refused))
      ensures forall i :: 0 <= i < |receivers| ==> receivers[i].childs == Kept(receivers[i] in old(conn.receivers), old(receivers[i].childs))
      ensures forall s, k :: s in senders && k in old(s.childs) && k !in old(conn.senders) ==> k in s.childs
      ensures forall i :: 0 <= i < |receivers| && receivers[i] in old(conn.receivers) ==>
        (receivers[i].childs == old(receivers[i].childs) <==> old(receivers[i].childs) == [])
    {
      hide Used, Distinct, Forest, Kept, DistinctCodecs, Movers;
      assert forall i :: 0 <= i < |receivers| ==> Distinct(receivers[i].childs) by { DistinctKids(nodes); }
      more := MoveTracks(c, refused, nodes);
      StopOld(more);
      assert c.Valid(more);
      conn := c;
      forall i | 0 <= i < |receivers| && receivers[i] in old(conn.receivers)
        ensures receivers[i].childs == old(receivers[i].childs) <==> old(receivers[i].childs) == []
      {
        KeptIsAll(old(receivers[i].childs));
      }
    }

    lemma DistinctKids(nodes: set<Node>)
      requires Tracked(nodes)
      ensures forall i :: 0 <= i < |receivers| ==> Distinct(receivers[i].childs)
    {
    }

    // p.conn.Stop()
    method StopOld(ghost nodes: set<Node>)
      requires conn != null && Tracked(nodes)
      modifies nodes`childs
      ensures Tracked(nodes)
      ensures forall i :: 0 <= i < |receivers| ==> receivers[i].childs == Kept(receivers[i] in conn.receivers, old(receivers[i].childs))
      ensures forall s, k :: s in senders && k in old(s.childs) && k !in conn.senders ==> k in s.childs
    {
      conn.Stop(nodes);
      forall i | 0 <= i < |receivers| && receivers[i] !in conn.receivers
        ensures receivers[i].childs == old(receivers[i].childs)
      {
        RemoveEachNone(old(receivers[i].childs), conn.senders);
      }
      forall s, k | s in senders && k in old(s.childs) && k !in conn.senders ensures k in s.childs {
        RemoveEachKeeps(old(s.childs), conn.senders);
      }
    }

    lemma NoneMoved(c: Conn, orig: seq<Node>, kids: seq<seq<Node>>, m: nat, nodes: set<Node>)
      requires m < |c.medias| && Moved(orig, kids, c, m, nodes)
      ensures Moved(orig, kids, c, m + 1, nodes)
    {
      hide Used, Distinct;
      UsedByMore(c, m);
    }

    // ---- The methods of the producer ------------------------------------------------------

    constructor ()
      ensures Current() == Lifecycle.NewProducer() && receivers == [] && senders == []
    {
      conn, receivers, senders, phase, workerID, acts, spawned := null, [], [], Idle, 0, map[], 0;
      owned, stopped := multiset{}, multiset{};
    }

    // dialled is what GetProducer returned, null for an error.
    method Dial(dialled: Conn?)
      requires phase == Idle && dialled != null ==> dialled.id !in owned
      modifies this`conn, this`phase, this`owned
      ensures Do(old(Current()), Step.Dial(Id(dialled))) == Next(Current())
    {
      if phase == Idle {
        if dialled == null {
          return;
        }
        conn := dialled;
        phase := Medias;
        owned := owned + multiset{dialled.id};
      }
    }

    static function Id(c: Conn?): Option<nat> {
      if c == null then None else Some(c.id)
    }

    ghost function Connected(): set<Conn>
      reads this
    {
      if conn == null then {} else {conn}
    }

    // Tracks are taken only from a connection.
    ghost predicate Untouched()
      reads this
    {
      phase == Idle || phase == Medias ==> receivers == [] && senders == []
    }

    // track, err := p.conn.GetTrack(media, codec); p.receivers = append(...)
    method Take(codec: Codec, ghost nodes: set<Node>) returns (track: Node?, ghost more: set<Node>)
      requires conn != null && Tracked(nodes) && forall r :: r in receivers ==> r.codec != codec
      modifies this`receivers, conn`receivers
      ensures nodes <= more && fresh(more - nodes) && Tracked(more)
      ensures track == null ==> receivers == old(receivers)
      ensures track != null ==> track.codec == codec && track !in old(receivers) && receivers == old(receivers) + [track]
    {
      var refused: bool := *;
      track := conn.GetTrack(codec, refused);
      more := nodes;
      if track != null {
        more := nodes + {track};
        DistinctSnoc(receivers, track);
        receivers := receivers + [track];
      }
    }

    // p.conn.(core.Consumer).AddTrack(media, codec, track); p.senders = append(...)
    method Hear(codec: Codec, track: Node, ghost nodes: set<Node>) returns (ok: bool, ghost more: set<Node>)
      requires conn != null && Tracked(nodes)
      requires track in nodes && track.parent == null && track !in receivers && track !in conn.receivers
      modifies this`senders, conn`senders, track`childs
      ensures nodes <= more && fresh(more - nodes) && Tracked(more)
      ensures if ok then senders == old(senders) + [track] && track.childs != [] else senders == old(senders)
    {
      more := nodes;
      DistinctChildren(track, nodes);
      hide Distinct;
      var sender := conn.AddTrack(codec, track);
      ok := sender != null;
      if ok {
        DistinctSnoc(old(track.childs), sender);
        more := nodes + {sender};
        senders := senders + [track];
      }
    }

    lemma DistinctChildren(n: Node, nodes: set<Node>)
      requires Forest(nodes) && n in nodes
      ensures Distinct(n.childs)
    {
    }

    // In no run is the connection nil here, so that its method can be called.
    method GetTrack(codec: Codec, ghost nodes: set<Node>) returns (track: Node?, ghost more: set<Node>)
      requires Invariant(Current()) && Tracked(nodes) && Untouched()
      modifies this`receivers, this`phase, Connected()`receivers
      ensures exists known, accepted :: Do(old(Current()), Step.GetTrack(known, accepted)) == Next(Current())
      ensures nodes <= more && fresh(more - nodes) && Tracked(more) && Untouched()
      ensures track == null ==> receivers == old(receivers) && phase == old(phase)
      ensures track != null ==> track.codec == codec && track in receivers && phase != Idle && phase != Medias
      ensures track != null ==> receivers == old(receivers) + if track in old(receivers) then [] else [track]
    {
      more := nodes;
      if phase == Idle {
        assert Do(Current(), Step.GetTrack(true, true)) == Next(Current());
        return null, more;
      }
      for i := 0 to |receivers|
        invariant forall k :: 0 <= k < i ==> receivers[k].codec != codec
      {
        if receivers[i].codec == codec {
          assert Do(Current(), Step.GetTrack(true, true)) == Next(Current());
          assert receivers + [] == receivers;
          return receivers[i], more;
        }
      }
      hide Tracked;
      track, more := Take(codec, nodes);
      if track == null {
        assert Do(old(Current()), Step.GetTrack(false, false)) == Next(Current());
        return;
      }
      if phase == Medias {
        phase := Tracks;
      }
      assert Do(old(Current()), Step.GetTrack(false, true)) == Next(Current());
    }

    // The connection listens to the track of a consumer.
    method AddTrack(codec: Codec, track: Node, ghost nodes: set<Node>) returns (ok: bool, ghost more: set<Node>)
      requires Invariant(Current()) && Tracked(nodes) && Untouched()
      requires track in nodes && track.parent == null && track !in receivers && (conn != null ==> track !in conn.receivers)
      modifies this`senders, this`phase, Connected()`senders, track`childs
      ensures exists accepted :: Do(old(Current()), Step.AddTrack(accepted)) == Next(Current())
      ensures nodes <= more && fresh(more - nodes) && Tracked(more) && Untouched()
      ensures ok ==> senders == old(senders) + [track] && track.childs != [] && phase != Idle && phase != Medias
      ensures !ok ==> senders == old(senders) && phase == old(phase)
    {
      more := nodes;
      if phase == Idle {
        assert Do(Current(), Step.AddTrack(true)) == Next(Current());
        return false, more;
      }
      hide Tracked;
      ok, more := Hear(codec, track, nodes);
      if !ok {
        assert Do(old(Current()), Step.AddTrack(false)) == Next(Current());
        return;
      }
      if phase == Medias {
        phase := Tracks;
      }
      assert Do(old(Current()), Step.AddTrack(true)) == Next(Current());
    }

    method Start()
      requires Invariant(Current())
      modifies this
      ensures Do(old(Current()), Step.Start) == Next(Current()) && receivers == old(receivers) && senders == old(senders)
    {
      if phase != Tracks {
        return;
      }
      phase := Started;
      workerID := workerID + 1;
      acts := acts[spawned := Worker(conn.id, workerID)];
      spawned := spawned + 1;
    }

    // The worker's conn.Start() returned.
    method Returns(act: nat, failed: bool)
      requires act in acts && acts[act].Worker?
      modifies this`acts
      ensures Do(old(Current()), Step.Returns(act, failed)) == Next(Current())
    {
      var id := acts[act].id;
      if failed && workerID != id {
        acts := acts - {act};
        return;
      }
      acts := acts[act := Due(id, 0)];
    }

    // A reconnect keeps the children of every track, if and only if each receiver
    // of the old connection that has children is among those that move.
    method Reconnect(act: nat, dialled: Conn?, refused: Refusals, ghost nodes: set<Node>) returns (ghost more: set<Node>)
      requires Invariant(Current()) && Tracked(nodes) && act in acts && acts[act].Due?
      requires dialled != null ==> Unused(dialled, nodes) && DistinctCodecs(dialled.medias) && dialled.id !in owned
      modifies this, dialled, nodes
      ensures Do(old(Current()), Step.Reconnect(act, Id(dialled))) == Next(Current())
      ensures nodes <= more && fresh(more - nodes) && Tracked(more) && |receivers| == old(|receivers|) && senders == old(senders)
      ensures if old(workerID) == old(acts[act].id) && dialled != null then conn == dialled else conn == old(conn) && receivers == old(receivers)
      ensures conn != old(conn) ==>
        forall i :: 0 <= i < |receivers| ==> (receivers[i] != old(receivers)[i] <==> i in Movers(conn.medias, Codecs(old(receivers)), refused))
      ensures forall i :: 0 <= i < |receivers| ==>
        receivers[i].childs == Kept(conn != old(conn) && receivers[i] in old(ClosedBy(conn)), old(receivers[i].childs))
      ensures conn != old(conn) ==>
        ((forall i :: 0 <= i < |receivers| ==> receivers[i].childs == old(receivers[i].childs)) <==>
         forall i :: 0 <= i < |receivers| && old(receivers)[i] in old(ClosedBy(conn)) && old(receivers[i].childs) != [] ==>
           i in Movers(conn.medias, Codecs(old(receivers)), refused))
    {
      hide Tracked, Forest, Distinct, DistinctCodecs, Movers, Unused, Invariant;
      more := nodes;
      if workerID != acts[act].id {
        acts := acts - {act};
        return;
      }
      CurrentIsConnected(Current(), act);
      if dialled == null {
        acts := acts[act := Due(workerID, acts[act].retry + 1)];
        return;
      }
      UnusedIsOther(dialled, nodes);
      ghost var was := conn.id;
      more := Swap(dialled, refused, nodes);
      owned := owned + multiset{dialled.id};
      stopped := stopped + multiset{was};
      acts := acts[act := Worker(dialled.id, workerID)];
    }

    lemma UnusedIsOther(c: Conn, nodes: set<Node>)
      requires Unused(c, nodes)
      ensures c != conn
    {
    }

    static function ClosedBy(c: Conn?): seq<Node>
      reads c
    {
      if c == null then [] else c.receivers
    }

    method Stop(ghost nodes: set<Node>)
      requires Invariant(Current()) && Tracked(nodes)
      modifies this, nodes`childs
      ensures Do(old(Current()), Step.Stop) == Next(Current()) && Tracked(nodes)
      ensures if old(phase) == External then receivers == old(receivers) && senders == old(senders)
              else old(phase) != Idle ==> receivers == [] && senders == []
      ensures old(phase) == Idle || old(phase) == External ==> forall n :: n in nodes ==> n.childs == old(n.childs)
    {
      hide Invariant, Forest, Kept;
      ConnectedUnlessIdle(Current());
      if phase == External || phase == Idle {
        return;
      }
      if phase == Started {
        workerID := workerID + 1;
      }
      if conn != null {
        StopOld(nodes);
        stopped := stopped + multiset{conn.id};
        conn := null;
      }
      phase := Idle;
      receivers := [];
      senders := [];
    }
  }

  lemma ConnectedUnlessIdle(life: Life)
    requires Invariant(life)
    ensures life.conn.Some? <==> life.phase != Idle
  {
  }

  lemma CurrentIsConnected(life: Life, act: nat)
    requires Invariant(life) && act in life.acts && life.workerID == life.acts[act].id && life.acts[act].Due?
    ensures life.conn.Some?
  {
    assert IsCurrent(life, act);
  }

  lemma DistinctSnoc<T>(s: seq<T>, x: T)
    requires Distinct(s) && x !in s
    ensures Distinct(s + [x])
  {
  }

  lemma DistinctUpdate<T>(s: seq<T>, i: nat, x: T)
    requires i < |s| && Distinct(s) && x !in s
    ensures Distinct(s[i := x]) && s[i] !in s[i := x]
  {
  }

  lemma UsedMore(medias: seq<Media>, m: nat, codec: Codec)
    requires m < |medias| && Used(medias, m, codec)
    ensures Used(medias, m + 1, codec)
  {
  }

  lemma UsedByMore(c: Conn, m: nat)
    requires m < |c.medias|
    ensures forall r :: r in c.receivers && Used(c.medias, m, r.codec) ==> Used(c.medias, m + 1, r.codec)
  {
    forall r | r in c.receivers && Used(c.medias, m, r.codec) ensures Used(c.medias, m + 1, r.codec) {
      UsedMore(c.medias, m, r.codec);
    }
  }

  lemma UsedNow(medias: seq<Media>, m: nat, codec: Codec)
    requires m < |medias| && medias[m].direction == Recvonly && codec in medias[m].codecs
    ensures Used(medias, m + 1, codec)
  {
  }

  lemma NotUsed(medias: seq<Media>, m: nat, codec: Codec)
    requires m < |medias| && medias[m].direction == Recvonly && codec in medias[m].codecs && DistinctCodecs(medias)
    ensures !Used(medias, m, codec)
  {
  }
}
