// pkg/core/connection.go, codec.go and media.go: a connection with its tracks,
// and how codecs are matched.

module Connection {
  import opened Bytes
  import opened Node

  datatype Direction = Recvonly | Sendonly | Sendrecv

  datatype Media = Media(kind: string, direction: Direction, codecs: seq<Codec>)

  // Codec.Match: a zero or a wildcard of the remote side matches anything.
  predicate Matches(c: Codec, remote: Codec) {
    || remote.name in ["ALL", "ANY"]
    || (&& c.name == remote.name
        && (c.clockRate == remote.clockRate || remote.clockRate == 0)
        && (c.channels == remote.channels || remote.channels == 0))
  }

  // Media.MatchCodec: the first codec that matches.
  function MatchCodec(codecs: seq<Codec>, remote: Codec): (r: Option<Codec>)
    ensures r.Some? ==> r.value in codecs
  {
    if codecs == [] then None
    else if Matches(codecs[0], remote) then Some(codecs[0])
    else MatchCodec(codecs[1..], remote)
  }

  // A codec matches itself with its rate or its channels left open, and the two
  // names that ask for anything.
  lemma MatchesExactly(c: Codec, remote: Codec)
    ensures Matches(c, remote) <==>
            || remote.name == "ALL" || remote.name == "ANY"
            || exists rate, channels :: Opened(c, rate, channels) && remote == Codec(remote.address, c.name, rate, channels)
  {
    if Matches(c, remote) && remote.name != "ALL" && remote.name != "ANY" {
      assert Opened(c, remote.clockRate, remote.channels);
    }
  }

  predicate Opened(c: Codec, rate: nat, channels: nat) {
    rate in {0, c.clockRate} && channels in {0, c.channels}
  }

  // MatchCodec finds the first codec that matches.
  lemma {:induction false} MatchCodecIsFirst(codecs: seq<Codec>, remote: Codec)
    ensures MatchCodec(codecs, remote).Some? ==>
              exists k :: 0 <= k < |codecs| && MatchCodec(codecs, remote) == Some(codecs[k]) && Matches(codecs[k], remote)
                          && forall j :: 0 <= j < k ==> !Matches(codecs[j], remote)
    ensures MatchCodec(codecs, remote) == None ==> forall j :: 0 <= j < |codecs| ==> !Matches(codecs[j], remote)
  {
    hide Matches;
    if codecs != [] && !Matches(codecs[0], remote) {
      var rest := codecs[1..];
      MatchCodecIsFirst(rest, remote);
      assert forall j :: 0 < j < |codecs| ==> codecs[j] == rest[j - 1];
      if MatchCodec(rest, remote).Some? {
        var k :| 0 <= k < |rest| && MatchCodec(rest, remote) == Some(rest[k]) && Matches(rest[k], remote)
                 && forall j :: 0 <= j < k ==> !Matches(rest[j], remote);
        assert codecs[k + 1] == rest[k];
      }
    }
  }

  class Conn {
    const id: nat
    const medias: seq<Media>
    var receivers: seq<Node>
    var senders: seq<Node>

    // Receivers are roots, senders are leaves of tracks of others.
    ghost predicate Valid(nodes: set<Node>)
      reads this, nodes, receivers, senders
    {
      && Forest(nodes) && Distinct(receivers)
      && (forall r :: r in receivers ==> r in nodes && r.parent == null)
      && (forall s :: s in senders ==> s in nodes && s.parent != null && s.parent !in receivers)
    }

    constructor (id: nat, medias: seq<Media>)
      ensures this.id == id && this.medias == medias && receivers == [] && senders == []
    {
      this.id, this.medias, receivers, senders := id, medias, [], [];
    }

    // A connection may refuse; otherwise it returns the receiver of this codec,
    // the same one for the same address, and makes one only when there is none.
    method GetTrack(codec: Codec, refused: bool) returns (track: Node?)
      modifies this`receivers
      ensures track == null <==> refused
      ensures track == null ==> receivers == old(receivers)
      ensures track != null ==> track.codec == codec && track in receivers
      ensures track != null && track in old(receivers) ==> receivers == old(receivers)
      ensures track != null && track !in old(receivers) ==>
                fresh(track) && track.childs == [] && track.parent == null && receivers == old(receivers) + [track]
                && forall r :: r in old(receivers) ==> r.codec != codec
    {
      if refused {
        return null;
      }
      var i := 0;
      while i < |receivers|
        invariant i <= |receivers| && forall k :: 0 <= k < i ==> receivers[k].codec != codec
      {
        if receivers[i].codec == codec {
          return receivers[i];
        }
        i := i + 1;
      }
      track := new Node(codec);
      receivers := receivers + [track];
    }

    // AddTrack of a consumer: a new sender below the track.
    method AddTrack(codec: Codec, track: Node) returns (sender: Node?)
      modifies this`senders, track`childs
      ensures sender == null ==> senders == old(senders) && track.childs == old(track.childs)
      ensures sender != null ==>
                fresh(sender) && sender.parent == track && sender.childs == [] && sender.codec == codec
                && senders == old(senders) + [sender] && track.childs == old(track.childs) + [sender]
    {
      var refused: bool := *;
      if refused {
        return null;
      }
      sender := new Node(codec);
      track.AppendChild(sender);
      senders := senders + [sender];
    }

    // The two loops of Stop.
    method CloseReceivers(ghost nodes: set<Node>)
      requires Valid(nodes)
      modifies receivers`childs
      ensures Valid(nodes) && forall r :: r in receivers ==> r.childs == Leftover(old(r.childs))
    {
      var i := 0;
      while i < |receivers|
        invariant i <= |receivers| && Valid(nodes)
        invariant forall k :: 0 <= k < i ==> receivers[k].childs == Leftover(old(receivers[k].childs))
        invariant forall k :: i <= k < |receivers| ==> receivers[k].childs == old(receivers[k].childs)
      {
        CloseRoot(receivers[i], nodes);
        i := i + 1;
      }
    }

    method CloseSenders(ghost nodes: set<Node>)
      requires Valid(nodes)
      modifies nodes`childs
      ensures Valid(nodes) && forall n :: n in nodes ==> n.childs == RemoveEach(old(n.childs), senders)
    {
      var i := 0;
      while i < |senders|
        invariant i <= |senders| && Valid(nodes)
        invariant forall n :: n in nodes ==> n.childs == RemoveEach(old(n.childs), senders[..i])
      {
        assert senders[..i + 1][..i] == senders[..i];
        CloseLeaf(senders[i], nodes);
        i := i + 1;
      }
      assert senders[..i] == senders;
    }

    method Stop(ghost nodes: set<Node>)
      requires Valid(nodes)
      modifies nodes`childs
      ensures Valid(nodes)
      ensures forall r :: r in receivers ==> r.childs == Leftover(old(r.childs))
      ensures forall n :: n in nodes && n !in receivers ==> n.childs == RemoveEach(old(n.childs), senders)
    {
      CloseReceivers(nodes);
      label Closed:
      CloseSenders(nodes);
      forall r | r in receivers ensures r.childs == old@Closed(r.childs) {
        RemoveEachNone(old@Closed(r.childs), senders);
      }
    }
  }

  method CloseRoot(r: Node, ghost nodes: set<Node>)
    requires Forest(nodes) && r in nodes && r.parent == null
    modifies r`childs
    ensures Forest(nodes) && r.childs == Leftover(old(r.childs))
  {
    LeftoverSubset(r.childs);
    r.Close();
  }

  method CloseLeaf(s: Node, ghost nodes: set<Node>)
    requires Forest(nodes) && s in nodes && s.parent != null
    modifies s.parent`childs
    ensures Forest(nodes) && s.parent == old(s.parent)
    ensures forall n :: n in nodes ==> n.childs == RemoveFirst(old(n.childs), s)
  {
    RemoveFirstDistinct(s.parent.childs, s);
    RemoveFirstSubset(s.parent.childs, s);
    forall n | n in nodes && n != s.parent ensures RemoveFirst(n.childs, s) == n.childs {
      RemoveFirstNone(n.childs, s);
    }
    s.Close();
  }
}
