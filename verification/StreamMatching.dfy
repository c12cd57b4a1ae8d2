// pkg/core/media.go and internal/streams/add_consumer.go: when medias match, and
// which producers the matching loop of AddConsumer takes.

module StreamMatching {
  import opened Bytes
  import opened Connection
  import Node

  // ---- Two medias ---------------------------------------------------------------------

  // Media.MatchMedia: the first pair of codecs that match, unless the kinds
  // differ or the directions are not opposite.
  function MatchMedia(media: Media, remote: Media): Option<(Node.Codec, Node.Codec)> {
    if || media.kind != remote.kind
       || (media.direction == Sendonly && remote.direction != Recvonly)
       || (media.direction == Recvonly && remote.direction != Sendonly) then None
    else FirstPair(media.codecs, remote.codecs)
  }

  function FirstPair(codecs: seq<Node.Codec>, remotes: seq<Node.Codec>): Option<(Node.Codec, Node.Codec)> {
    if codecs == [] then None
    else
      var r := FirstMatch(codecs[0], remotes);
      if r.Some? then Some((codecs[0], r.value)) else FirstPair(codecs[1..], remotes)
  }

  function FirstMatch(codec: Node.Codec, remotes: seq<Node.Codec>): Option<Node.Codec> {
    if remotes == [] then None
    else if Matches(codec, remotes[0]) then Some(remotes[0])
    else FirstMatch(codec, remotes[1..])
  }

  // Codecs a and b match, and no earlier pair does.
  predicate IsFirstPair(codecs: seq<Node.Codec>, remotes: seq<Node.Codec>, a: int, b: int) {
    && 0 <= a < |codecs| && 0 <= b < |remotes| && Matches(codecs[a], remotes[b])
    && (forall x, y :: 0 <= x < a && 0 <= y < |remotes| ==> !Matches(codecs[x], remotes[y]))
    && forall y :: 0 <= y < b ==> !Matches(codecs[a], remotes[y])
  }

  predicate NoPair(codecs: seq<Node.Codec>, remotes: seq<Node.Codec>) {
    forall x, y :: 0 <= x < |codecs| && 0 <= y < |remotes| ==> !Matches(codecs[x], remotes[y])
  }

  lemma {:induction false} FirstMatchIff(codec: Node.Codec, remotes: seq<Node.Codec>)
    ensures var r := FirstMatch(codec, remotes);
            if r.Some? then exists b :: 0 <= b < |remotes| && remotes[b] == r.value && Matches(codec, remotes[b]) && forall j :: 0 <= j < b ==> !Matches(codec, remotes[j])
            else forall b :: 0 <= b < |remotes| ==> !Matches(codec, remotes[b])
  {
    hide Matches;
    if remotes != [] && !Matches(codec, remotes[0]) {
      FirstMatchIff(codec, remotes[1..]);
      var r := FirstMatch(codec, remotes[1..]);
      if r.Some? {
        var b :| 0 <= b < |remotes[1..]| && remotes[1..][b] == r.value && Matches(codec, remotes[1..][b]) && forall j :: 0 <= j < b ==> !Matches(codec, remotes[1..][j]);
        assert remotes[b + 1] == r.value;
        forall j | 0 <= j < b + 1 ensures !Matches(codec, remotes[j]) {
          assert j > 0 ==> remotes[j] == remotes[1..][j - 1];
        }
      } else {
        forall b | 0 <= b < |remotes| ensures !Matches(codec, remotes[b]) {
          assert b > 0 ==> remotes[b] == remotes[1..][b - 1];
        }
      }
    }
  }

  lemma {:induction false} FirstPairIff(codecs: seq<Node.Codec>, remotes: seq<Node.Codec>)
    ensures var r := FirstPair(codecs, remotes);
            if r.Some? then exists a, b :: IsFirstPair(codecs, remotes, a, b) && r.value == (codecs[a], remotes[b])
            else NoPair(codecs, remotes)
  {
    hide Matches;
    if codecs != [] {
      FirstMatchIff(codecs[0], remotes);
      FirstPairIff(codecs[1..], remotes);
      var r := FirstPair(codecs, remotes);
      if FirstMatch(codecs[0], remotes).Some? {
        var b :| 0 <= b < |remotes| && remotes[b] == FirstMatch(codecs[0], remotes).value && Matches(codecs[0], remotes[b])
                 && forall j :: 0 <= j < b ==> !Matches(codecs[0], remotes[j]);
        assert IsFirstPair(codecs, remotes, 0, b);
      } else if r.Some? {
        var a, b :| IsFirstPair(codecs[1..], remotes, a, b) && r.value == (codecs[1..][a], remotes[b]);
        assert forall x :: 0 < x < |codecs| ==> codecs[x] == codecs[1..][x - 1];
        assert codecs[1..][a] == codecs[a + 1];
        assert IsFirstPair(codecs, remotes, a + 1, b);
      } else {
        assert forall x :: 0 < x < |codecs| ==> codecs[x] == codecs[1..][x - 1];
      }
    }
  }

  // Medias match exactly when they are of one kind, flow in opposite directions
  // unless the first flows both ways, and share a codec; the pair returned is
  // the first such pair, in the order of the first media and then of the other.
  lemma MediasMatch(media: Media, remote: Media)
    ensures MatchMedia(media, remote).Some? <==>
            && media.kind == remote.kind
            && (media.direction == Sendonly ==> remote.direction == Recvonly)
            && (media.direction == Recvonly ==> remote.direction == Sendonly)
            && !NoPair(media.codecs, remote.codecs)
    ensures MatchMedia(media, remote).Some? ==>
            exists a, b :: IsFirstPair(media.codecs, remote.codecs, a, b) && MatchMedia(media, remote).value == (media.codecs[a], remote.codecs[b])
  {
    hide Matches, FirstPair;
    FirstPairIff(media.codecs, remote.codecs);
    if FirstPair(media.codecs, remote.codecs).Some? {
      var a, b :| IsFirstPair(media.codecs, remote.codecs, a, b);
      assert Matches(media.codecs[a], remote.codecs[b]);
    }
  }

  // Media.MatchAll
  method MatchAll(media: Media) returns (all: bool)
    ensures all == WantsAll(media)
  {
    for k := 0 to |media.codecs|
      invariant forall j :: 0 <= j < k ==> media.codecs[j].name != "ALL"
    {
      if media.codecs[k].name == "ALL" {
        return true;
      }
    }
    return false;
  }

  predicate WantsAll(media: Media) {
    exists k :: 0 <= k < |media.codecs| && media.codecs[k].name == "ALL"
  }

  // One of the medias matches.
  predicate Offers(medias: seq<Media>, consMedia: Media) {
    exists k :: 0 <= k < |medias| && MatchMedia(medias[k], consMedia).Some?
  }

  // One of the medias flows both ways.
  predicate TwoWay(medias: seq<Media>) {
    exists k :: 0 <= k < |medias| && medias[k].direction == Sendrecv
  }

  // ---- The loops ----------------------------------------------------------------------

  // What came of one media of a producer.
  datatype MediaOutcome = NoMatch | Accepted | ProducerRefused | ConsumerRefused

  // What came of one producer, for one media of the consumer: it was passed over,
  // it could not be dialled, or its medias were looked at, one after the other.
  datatype Visit = PassedOver | NotDialled | Looked(outcomes: seq<MediaOutcome>)

  predicate IsMatch(v: Visit) {
    v.Looked? && Accepted in v.outcomes
  }

  // An error that AddConsumer keeps for the producer.
  predicate Fails(v: Visit) {
    v.NotDialled? || (v.Looked? && ProducerRefused in v.outcomes)
  }

  // Nobody refused.
  predicate IsSmooth(v: Visit) {
    v.PassedOver? || (v.Looked? && ProducerRefused !in v.outcomes && ConsumerRefused !in v.outcomes)
  }

  // The medias are looked at up to the first that is taken, or all of them when
  // the consumer wants all.
  ghost predicate LooksAt(outcomes: seq<MediaOutcome>, list: seq<Media>, consMedia: Media) {
    && |outcomes| <= |list|
    && (forall k :: 0 <= k < |outcomes| ==> (outcomes[k] == NoMatch <==> MatchMedia(list[k], consMedia) == None))
    && (forall k :: 0 <= k < |outcomes| && list[k].direction == Sendrecv ==> outcomes[k] == NoMatch || outcomes[k] == Accepted)
    && (forall k :: 0 <= k < |outcomes| - 1 && outcomes[k] == Accepted ==> WantsAll(consMedia))
    && (|outcomes| < |list| ==> outcomes != [] && outcomes[|outcomes| - 1] == Accepted && !WantsAll(consMedia))
  }

  // The producers are visited up to the first match, or all of them when the
  // consumer wants all; the consumer itself and producers with an error are
  // passed over.
  ghost predicate Visits(visits: seq<Visit>, order: seq<nat>, selves: set<nat>, failed: seq<bool>, medias: nat -> seq<Media>, consMedia: Media) {
    && |visits| <= |order| == |failed|
    && (forall n :: 0 <= n < |visits| ==> (visits[n].PassedOver? <==> order[n] in selves || failed[n]))
    && (forall n :: 0 <= n < |visits| && visits[n].Looked? ==> LooksAt(visits[n].outcomes, medias(order[n]), consMedia))
    && (forall n :: 0 <= n < |visits| - 1 && IsMatch(visits[n]) ==> WantsAll(consMedia))
    && (|visits| < |order| ==> visits != [] && IsMatch(visits[|visits| - 1]) && !WantsAll(consMedia))
  }

  // prodErrors after one media of the consumer.
  function Failed(failed: seq<bool>, visits: seq<Visit>): (r: seq<bool>)
    ensures |r| == |failed|
  {
    seq(|failed|, n requires 0 <= n < |failed| => failed[n] || (n < |visits| && Fails(visits[n])))
  }

  // The errors of all medias so far.
  function AllFailed(table: seq<seq<Visit>>, n: nat): (r: seq<bool>)
    ensures |r| == n
  {
    if table == [] then seq(n, _ => false) else Failed(AllFailed(table[..|table| - 1], n), table[|table| - 1])
  }

  // The visits for every media of the consumer.
  ghost predicate AllVisits(table: seq<seq<Visit>>, order: seq<nat>, selves: set<nat>, medias: nat -> seq<Media>, consMedias: seq<Media>) {
    && |table| <= |consMedias|
    && forall m :: 0 <= m < |table| ==> Visits(table[m], order, selves, AllFailed(table[..m], |order|), medias, consMedias[m])
  }

  // The medias that are taken, as the producers that offer them.
  function Count(outcomes: seq<MediaOutcome>): nat {
    if outcomes == [] then 0 else Count(outcomes[..|outcomes| - 1]) + if outcomes[|outcomes| - 1] == Accepted then 1 else 0
  }

  function Times(i: nat, n: nat): seq<nat> {
    seq(n, _ => i)
  }

  function TakenOf(visits: seq<Visit>, order: seq<nat>): seq<nat>
    requires |visits| <= |order|
  {
    if visits == [] then []
    else
      var n := |visits| - 1;
      TakenOf(visits[..n], order) + if visits[n].Looked? then Times(order[n], Count(visits[n].outcomes)) else []
  }

  function TakenOfAll(table: seq<seq<Visit>>, order: seq<nat>): seq<nat>
    requires forall m :: 0 <= m < |table| ==> |table[m]| <= |order|
  {
    if table == [] then []
    else TakenOfAll(table[..|table| - 1], order) + TakenOf(table[|table| - 1], order)
  }

  // The producers that are dialled.
  function DialledOf(visits: seq<Visit>, order: seq<nat>): seq<nat>
    requires |visits| <= |order|
  {
    if visits == [] then []
    else
      var n := |visits| - 1;
      DialledOf(visits[..n], order) + if visits[n].Looked? then [order[n]] else []
  }

  function DialledOfAll(table: seq<seq<Visit>>, order: seq<nat>): seq<nat>
    requires forall m :: 0 <= m < |table| ==> |table[m]| <= |order|
  {
    if table == [] then []
    else DialledOfAll(table[..|table| - 1], order) + DialledOf(table[|table| - 1], order)
  }

  // ---- In the middle of a loop ---------------------------------------------------------------

  // The first medias have been looked at, and the loop goes on.
  ghost predicate Looking(outcomes: seq<MediaOutcome>, list: seq<Media>, consMedia: Media) {
    && |outcomes| <= |list|
    && (forall k :: 0 <= k < |outcomes| ==> (outcomes[k] == NoMatch <==> MatchMedia(list[k], consMedia) == None))
    && (forall k :: 0 <= k < |outcomes| && list[k].direction == Sendrecv ==> outcomes[k] == NoMatch || outcomes[k] == Accepted)
    && forall k :: 0 <= k < |outcomes| && outcomes[k] == Accepted ==> WantsAll(consMedia)
  }

  lemma LookedNext(outcomes: seq<MediaOutcome>, next: MediaOutcome, list: seq<Media>, consMedia: Media)
    requires Looking(outcomes, list, consMedia) && |outcomes| < |list|
    requires next == NoMatch <==> MatchMedia(list[|outcomes|], consMedia) == None
    requires list[|outcomes|].direction == Sendrecv ==> next == NoMatch || next == Accepted
    ensures if next == Accepted && !WantsAll(consMedia) then LooksAt(outcomes + [next], list, consMedia) else Looking(outcomes + [next], list, consMedia)
    ensures Count(outcomes + [next]) == Count(outcomes) + if next == Accepted then 1 else 0
    ensures next != Accepted ==> !IsMatch(Looked(outcomes + [next])) || IsMatch(Looked(outcomes))
  {
    hide MatchMedia, WantsAll;
    assert (outcomes + [next])[..|outcomes|] == outcomes;
  }

  lemma LookedAll(outcomes: seq<MediaOutcome>, list: seq<Media>, consMedia: Media)
    requires Looking(outcomes, list, consMedia) && |outcomes| == |list|
    ensures LooksAt(outcomes, list, consMedia) && (IsMatch(Looked(outcomes)) ==> WantsAll(consMedia))
  {
    hide MatchMedia, WantsAll;
  }

  // A media with a track, or without one, was taken.
  predicate HasTrack(v: Visit, list: seq<Media>) {
    v.Looked? && exists k :: 0 <= k < |v.outcomes| && k < |list| && v.outcomes[k] == Accepted && list[k].direction != Sendrecv
  }

  predicate HasBare(v: Visit, list: seq<Media>) {
    v.Looked? && exists k :: 0 <= k < |v.outcomes| && k < |list| && v.outcomes[k] == Accepted && list[k].direction == Sendrecv
  }

  lemma NextTrack(outcomes: seq<MediaOutcome>, next: MediaOutcome, list: seq<Media>)
    requires |outcomes| < |list|
    ensures var flow := list[|outcomes|].direction;
            && (HasTrack(Looked(outcomes + [next]), list) <==> HasTrack(Looked(outcomes), list) || (next == Accepted && flow != Sendrecv))
            && (HasBare(Looked(outcomes + [next]), list) <==> HasBare(Looked(outcomes), list) || (next == Accepted && flow == Sendrecv))
  {
    var more, n := outcomes + [next], |outcomes|;
    assert more[n] == next && forall k :: 0 <= k < n ==> more[k] == outcomes[k];
  }

  // The first producers have been visited, and the loop goes on.
  ghost predicate Visiting(visits: seq<Visit>, order: seq<nat>, selves: set<nat>, failed: seq<bool>, medias: nat -> seq<Media>, consMedia: Media) {
    && |visits| <= |order| == |failed|
    && (forall n :: 0 <= n < |visits| ==> (visits[n].PassedOver? <==> order[n] in selves || failed[n]))
    && (forall n :: 0 <= n < |visits| && visits[n].Looked? ==> LooksAt(visits[n].outcomes, medias(order[n]), consMedia))
    && forall n :: 0 <= n < |visits| && IsMatch(visits[n]) ==> WantsAll(consMedia)
  }

  lemma VisitNext(visits: seq<Visit>, next: Visit, order: seq<nat>, selves: set<nat>, failed: seq<bool>, medias: nat -> seq<Media>, consMedia: Media)
    requires Visiting(visits, order, selves, failed, medias, consMedia) && |visits| < |order|
    requires var i := order[|visits|];
             && (next.PassedOver? <==> i in selves || failed[|visits|])
             && (next.Looked? ==> LooksAt(next.outcomes, medias(i), consMedia))
    ensures if IsMatch(next) && !WantsAll(consMedia) then Visits(visits + [next], order, selves, failed, medias, consMedia)
            else Visiting(visits + [next], order, selves, failed, medias, consMedia)
  {
    hide LooksAt, WantsAll, IsMatch;
    var more, n := visits + [next], |visits|;
    forall k | 0 <= k < |more|
      ensures more[k].PassedOver? <==> order[k] in selves || failed[k]
      ensures more[k].Looked? ==> LooksAt(more[k].outcomes, medias(order[k]), consMedia)
      ensures k < n && IsMatch(more[k]) ==> WantsAll(consMedia)
    {
      if k < n { assert more[k] == visits[k]; } else { assert more[k] == next; }
    }
    assert more[n] == next;
  }

  lemma TakenNext(visits: seq<Visit>, next: Visit, order: seq<nat>)
    requires |visits| < |order|
    ensures TakenOf(visits + [next], order)
            == TakenOf(visits, order) + if next.Looked? then Times(order[|visits|], Count(next.outcomes)) else []
    ensures DialledOf(visits + [next], order) == DialledOf(visits, order) + if next.Looked? then [order[|visits|]] else []
  {
    hide Count, Times;
    assert (visits + [next])[..|visits|] == visits;
  }

  lemma VisitedAll(visits: seq<Visit>, order: seq<nat>, selves: set<nat>, failed: seq<bool>, medias: nat -> seq<Media>, consMedia: Media)
    requires Visiting(visits, order, selves, failed, medias, consMedia) && |visits| == |order|
    ensures Visits(visits, order, selves, failed, medias, consMedia)
  {
    hide LooksAt, WantsAll, IsMatch;
  }

  // Producer i gives or hears a track, or is matched without one.
  ghost predicate TrackOf(visits: seq<Visit>, order: seq<nat>, medias: nat -> seq<Media>, i: nat)
    requires |visits| <= |order|
  {
    exists n :: 0 <= n < |visits| && order[n] == i && HasTrack(visits[n], medias(i))
  }

  ghost predicate BareOf(visits: seq<Visit>, order: seq<nat>, medias: nat -> seq<Media>, i: nat)
    requires |visits| <= |order|
  {
    exists n :: 0 <= n < |visits| && order[n] == i && HasBare(visits[n], medias(i))
  }

  lemma TracksNext(visits: seq<Visit>, next: Visit, order: seq<nat>, medias: nat -> seq<Media>, i: nat)
    requires |visits| < |order|
    ensures TrackOf(visits + [next], order, medias, i) <==> TrackOf(visits, order, medias, i) || (i == order[|visits|] && HasTrack(next, medias(i)))
    ensures BareOf(visits + [next], order, medias, i) <==> BareOf(visits, order, medias, i) || (i == order[|visits|] && HasBare(next, medias(i)))
  {
    hide HasTrack, HasBare;
    var more, n := visits + [next], |visits|;
    assert more[n] == next && forall k :: 0 <= k < n ==> more[k] == visits[k];
  }

  // The same for all medias of the consumer.
  ghost predicate AllTracks(table: seq<seq<Visit>>, order: seq<nat>, medias: nat -> seq<Media>, i: nat)
    requires forall m :: 0 <= m < |table| ==> |table[m]| <= |order|
  {
    exists m :: 0 <= m < |table| && TrackOf(table[m], order, medias, i)
  }

  ghost predicate AllBares(table: seq<seq<Visit>>, order: seq<nat>, medias: nat -> seq<Media>, i: nat)
    requires forall m :: 0 <= m < |table| ==> |table[m]| <= |order|
  {
    exists m :: 0 <= m < |table| && BareOf(table[m], order, medias, i)
  }

  lemma TableNext(table: seq<seq<Visit>>, next: seq<Visit>, order: seq<nat>, selves: set<nat>, medias: nat -> seq<Media>, consMedias: seq<Media>)
    requires AllVisits(table, order, selves, medias, consMedias) && |table| < |consMedias|
    requires Visits(next, order, selves, AllFailed(table, |order|), medias, consMedias[|table|])
    ensures AllVisits(table + [next], order, selves, medias, consMedias)
    ensures forall m :: 0 <= m <= |table| ==> |(table + [next])[m]| <= |order|
    ensures AllFailed(table + [next], |order|) == Failed(AllFailed(table, |order|), next)
    ensures TakenOfAll(table + [next], order) == TakenOfAll(table, order) + TakenOf(next, order)
    ensures DialledOfAll(table + [next], order) == DialledOfAll(table, order) + DialledOf(next, order)
  {
    hide Visits, TakenOf, DialledOf, Failed;
    var more, n := table + [next], |table|;
    assert more[..n] == table && more[n] == next;
    forall m | 0 <= m < |more| ensures Visits(more[m], order, selves, AllFailed(more[..m], |order|), medias, consMedias[m]) {
      if m < n { assert more[..m] == table[..m] && more[m] == table[m]; }
    }
    forall m | 0 <= m < |more| ensures |more[m]| <= |order| {
      VisitsFit(more[m], order, selves, AllFailed(more[..m], |order|), medias, consMedias[m]);
    }
  }

  lemma VisitsFit(visits: seq<Visit>, order: seq<nat>, selves: set<nat>, failed: seq<bool>, medias: nat -> seq<Media>, consMedia: Media)
    requires Visits(visits, order, selves, failed, medias, consMedia)
    ensures |visits| <= |order|
  {
  }

  lemma TracksOfAll(table: seq<seq<Visit>>, next: seq<Visit>, order: seq<nat>, medias: nat -> seq<Media>, i: nat)
    requires |next| <= |order| && forall m :: 0 <= m < |table| ==> |table[m]| <= |order|
    ensures AllTracks(table + [next], order, medias, i) <==> AllTracks(table, order, medias, i) || TrackOf(next, order, medias, i)
    ensures AllBares(table + [next], order, medias, i) <==> AllBares(table, order, medias, i) || BareOf(next, order, medias, i)
  {
    hide TrackOf, BareOf;
    var more, n := table + [next], |table|;
    assert more[n] == next && forall k :: 0 <= k < n ==> more[k] == table[k];
  }

  // ---- Whom the loops take ----------------------------------------------------------------

  // The first producer in the list, other than the consumer itself, with a
  // matching media.
  ghost predicate IsFirst(n: int, order: seq<nat>, selves: set<nat>, medias: nat -> seq<Media>, consMedia: Media) {
    && 0 <= n < |order| && order[n] !in selves && Offers(medias(order[n]), consMedia)
    && forall j :: 0 <= j < n && order[j] !in selves ==> !Offers(medias(order[j]), consMedia)
  }

  ghost predicate Nobody(order: seq<nat>, selves: set<nat>, medias: nat -> seq<Media>, consMedia: Media) {
    forall j :: 0 <= j < |order| && order[j] !in selves ==> !Offers(medias(order[j]), consMedia)
  }

  // One media of the consumer, and the producers for it: the first of the list
  // that offers it, or with the codec "ALL" every one that does.
  ghost predicate Chosen(i: nat, order: seq<nat>, selves: set<nat>, medias: nat -> seq<Media>, consMedia: Media) {
    if exists k :: 0 <= k < |consMedia.codecs| && consMedia.codecs[k].name == "ALL"
    then i in order && i !in selves && Offers(medias(i), consMedia)
    else exists n :: IsFirst(n, order, selves, medias, consMedia) && order[n] == i
  }

  ghost predicate AllSmooth(visits: seq<Visit>) {
    forall n :: 0 <= n < |visits| ==> IsSmooth(visits[n])
  }

  // Without a refusal a producer matches exactly when it offers the media.
  lemma LookedMatches(outcomes: seq<MediaOutcome>, list: seq<Media>, consMedia: Media)
    requires LooksAt(outcomes, list, consMedia) && IsSmooth(Looked(outcomes))
    ensures Accepted in outcomes <==> Offers(list, consMedia)
  {
    hide MatchMedia;
    if Accepted in outcomes {
      var k :| 0 <= k < |outcomes| && outcomes[k] == Accepted;
      assert MatchMedia(list[k], consMedia).Some?;
    }
    if Offers(list, consMedia) {
      var k :| 0 <= k < |list| && MatchMedia(list[k], consMedia).Some?;
      if |outcomes| == |list| {
        assert outcomes[k] in outcomes;
      }
    }
  }

  // Of an ordinary media one is taken, the first that matches.
  lemma LookedOnce(outcomes: seq<MediaOutcome>, list: seq<Media>, consMedia: Media)
    requires LooksAt(outcomes, list, consMedia) && IsSmooth(Looked(outcomes)) && !WantsAll(consMedia)
    ensures Count(outcomes) == if Offers(list, consMedia) then 1 else 0
    ensures Offers(list, consMedia) ==>
              && 0 < |outcomes| <= |list| && MatchMedia(list[|outcomes| - 1], consMedia).Some?
              && forall k :: 0 <= k < |outcomes| - 1 ==> MatchMedia(list[k], consMedia) == None
  {
    hide MatchMedia, Offers, WantsAll;
    LookedMatches(outcomes, list, consMedia);
    if Accepted in outcomes {
      var n := |outcomes| - 1;
      var k :| 0 <= k < |outcomes| && outcomes[k] == Accepted;
      assert k == n;
      CountNone(outcomes[..n]);
      forall j | 0 <= j < n ensures MatchMedia(list[j], consMedia) == None {
        assert outcomes[j] in outcomes && outcomes[j] != Accepted;
      }
    } else {
      CountNone(outcomes);
    }
  }

  lemma {:induction false} CountNone(outcomes: seq<MediaOutcome>)
    ensures Count(outcomes) == 0 <==> Accepted !in outcomes
  {
    if outcomes != [] {
      var front, last := outcomes[..|outcomes| - 1], outcomes[|outcomes| - 1];
      CountNone(front);
      assert outcomes == front + [last];
    }
  }

  // The producers outside selves, up to the n-th.
  function Others(order: seq<nat>, selves: set<nat>, n: nat): seq<nat>
    requires n <= |order|
  {
    if n == 0 then [] else Others(order, selves, n - 1) + if order[n - 1] in selves then [] else [order[n - 1]]
  }

  // While nobody matches, everybody is dialled and nobody taken.
  lemma {:induction false} NobodyTaken(visits: seq<Visit>, order: seq<nat>, selves: set<nat>)
    requires |visits| <= |order| && AllSmooth(visits)
    requires forall n :: 0 <= n < |visits| ==> !IsMatch(visits[n]) && (visits[n].PassedOver? <==> order[n] in selves)
    ensures TakenOf(visits, order) == [] && DialledOf(visits, order) == Others(order, selves, |visits|)
  {
    if visits != [] {
      var n := |visits| - 1;
      NobodyTaken(visits[..n], order, selves);
      assert IsSmooth(visits[n]);
      if visits[n].Looked? {
        CountNone(visits[n].outcomes);
      }
    }
  }

  // An ordinary media: the first producer that offers it gives one track and is
  // the last to be dialled.
  lemma OrdinaryTakesOne(visits: seq<Visit>, order: seq<nat>, selves: set<nat>, failed: seq<bool>, medias: nat -> seq<Media>, consMedia: Media)
    requires Visits(visits, order, selves, failed, medias, consMedia) && AllSmooth(visits) && forall n :: 0 <= n < |order| ==> !failed[n]
    requires forall k :: 0 <= k < |consMedia.codecs| ==> consMedia.codecs[k].name != "ALL"
    ensures forall n :: IsFirst(n, order, selves, medias, consMedia) ==>
              TakenOf(visits, order) == [order[n]] && DialledOf(visits, order) == Others(order, selves, n + 1)
    ensures Nobody(order, selves, medias, consMedia) ==>
              TakenOf(visits, order) == [] && DialledOf(visits, order) == Others(order, selves, |order|)
    ensures Nobody(order, selves, medias, consMedia) || exists n :: IsFirst(n, order, selves, medias, consMedia)
  {
    hide Offers, LooksAt, Others, TakenOf, DialledOf;
    forall n | 0 <= n < |visits|
      ensures IsMatch(visits[n]) <==> visits[n].Looked? && Offers(medias(order[n]), consMedia)
    {
      assert IsSmooth(visits[n]);
      if visits[n].Looked? { LookedMatches(visits[n].outcomes, medias(order[n]), consMedia); }
    }
    if visits != [] && IsMatch(visits[|visits| - 1]) {
      OneTaken(visits, order, selves, failed, medias, consMedia);
    } else {
      NobodyTaken(visits, order, selves);
    }
  }

  lemma OneTaken(visits: seq<Visit>, order: seq<nat>, selves: set<nat>, failed: seq<bool>, medias: nat -> seq<Media>, consMedia: Media)
    requires Visits(visits, order, selves, failed, medias, consMedia) && AllSmooth(visits) && forall n :: 0 <= n < |order| ==> !failed[n]
    requires !WantsAll(consMedia) && visits != [] && IsMatch(visits[|visits| - 1])
    requires forall n :: 0 <= n < |visits| ==> (IsMatch(visits[n]) <==> visits[n].Looked? && Offers(medias(order[n]), consMedia))
    ensures var n := |visits| - 1;
            && IsFirst(n, order, selves, medias, consMedia)
            && TakenOf(visits, order) == [order[n]] && DialledOf(visits, order) == Others(order, selves, n + 1)
    ensures !Nobody(order, selves, medias, consMedia)
  {
    hide Offers, LooksAt;
    var n := |visits| - 1;
    assert order[n] !in selves;
    NobodyTaken(visits[..n], order, selves);
    assert IsSmooth(visits[n]);
    LookedOnce(visits[n].outcomes, medias(order[n]), consMedia);
    assert Times(order[n], 1) == [order[n]];
  }

  lemma TimesHas(i: nat, n: nat)
    ensures forall j :: j in Times(i, n) <==> j == i && n > 0
  {
    if n > 0 { assert Times(i, n)[0] == i; }
  }

  // Who is taken is who matches.
  lemma {:induction false} TakenMatch(visits: seq<Visit>, order: seq<nat>, i: nat)
    requires |visits| <= |order|
    ensures i in TakenOf(visits, order) <==> exists n :: 0 <= n < |visits| && order[n] == i && IsMatch(visits[n])
  {
    if visits != [] {
      var n := |visits| - 1;
      TakenMatch(visits[..n], order, i);
      assert forall j :: 0 <= j < n ==> visits[..n][j] == visits[j];
      if visits[n].Looked? {
        CountNone(visits[n].outcomes);
        TimesHas(order[n], Count(visits[n].outcomes));
      }
      assert i in TakenOf(visits, order) <==> i in TakenOf(visits[..n], order) || (order[n] == i && IsMatch(visits[n]));
    }
  }

  // Whom a media takes.
  lemma TakenIsChosen(visits: seq<Visit>, order: seq<nat>, selves: set<nat>, failed: seq<bool>, medias: nat -> seq<Media>, consMedia: Media, i: nat)
    requires Visits(visits, order, selves, failed, medias, consMedia) && AllSmooth(visits) && forall n :: 0 <= n < |order| ==> !failed[n]
    ensures i in TakenOf(visits, order) <==> Chosen(i, order, selves, medias, consMedia)
  {
    hide Offers, TakenOf, LooksAt;
    if WantsAll(consMedia) {
      TakenMatch(visits, order, i);
      forall n | 0 <= n < |visits| ensures IsMatch(visits[n]) <==> order[n] !in selves && Offers(medias(order[n]), consMedia) {
        assert IsSmooth(visits[n]);
        if visits[n].Looked? { LookedMatches(visits[n].outcomes, medias(order[n]), consMedia); }
      }
      if i in order {
        var n :| 0 <= n < |order| && order[n] == i;
        assert IsMatch(visits[n]) <==> i !in selves && Offers(medias(i), consMedia);
      }
    } else {
      OrdinaryTakesOne(visits, order, selves, failed, medias, consMedia);
      if n :| IsFirst(n, order, selves, medias, consMedia) {
        forall m | IsFirst(m, order, selves, medias, consMedia) ensures m == n {}
      }
    }
  }

  // Without a refusal there are no errors.
  lemma {:induction false} NoErrors(table: seq<seq<Visit>>, n: nat)
    requires forall m :: 0 <= m < |table| ==> AllSmooth(table[m])
    ensures forall k :: 0 <= k < n ==> !AllFailed(table, n)[k]
  {
    if table != [] {
      var m := |table| - 1;
      NoErrors(table[..m], n);
      assert AllSmooth(table[m]);
      forall k | 0 <= k < n ensures !AllFailed(table, n)[k] {
        if k < |table[m]| { assert IsSmooth(table[m][k]); }
      }
    }
  }

  // All medias together: without a refusal the producers that are taken are, for
  // each media of the consumer, the first that offers it, or all that do.
  lemma {:induction false} AllTaken(table: seq<seq<Visit>>, order: seq<nat>, selves: set<nat>, medias: nat -> seq<Media>, consMedias: seq<Media>, i: nat)
    requires AllVisits(table, order, selves, medias, consMedias) && forall m :: 0 <= m < |table| ==> AllSmooth(table[m])
    ensures i in TakenOfAll(table, order) <==> exists m :: 0 <= m < |table| && Chosen(i, order, selves, medias, consMedias[m])
  {
    hide Chosen, TakenOf, AllSmooth, Visits;
    if table != [] {
      var m := |table| - 1;
      FewerVisits(table, order, selves, medias, consMedias);
      AllTaken(table[..m], order, selves, medias, consMedias, i);
      NoErrors(table[..m], |order|);
      TakenIsChosen(table[m], order, selves, AllFailed(table[..m], |order|), medias, consMedias[m], i);
    }
  }

  lemma FewerVisits(table: seq<seq<Visit>>, order: seq<nat>, selves: set<nat>, medias: nat -> seq<Media>, consMedias: seq<Media>)
    requires AllVisits(table, order, selves, medias, consMedias) && table != []
    ensures AllVisits(table[..|table| - 1], order, selves, medias, consMedias)
    ensures forall m :: 0 <= m < |table| ==> |table[m]| <= |order|
  {
    hide AllFailed, LooksAt;
    var front := table[..|table| - 1];
    forall m | 0 <= m < |front| ensures Visits(front[m], order, selves, AllFailed(front[..m], |order|), medias, consMedias[m]) {
      assert front[..m] == table[..m] && front[m] == table[m];
    }
  }

  // The producers taken are those with a track or without.
  lemma TakenAre(table: seq<seq<Visit>>, order: seq<nat>, selves: set<nat>, medias: nat -> seq<Media>, consMedias: seq<Media>, starts: set<nat>, bare: set<nat>)
    requires AllVisits(table, order, selves, medias, consMedias) && forall m :: 0 <= m < |table| ==> |table[m]| <= |order|
    requires forall i :: i in starts <==> AllTracks(table, order, medias, i)
    requires forall i :: i in bare <==> AllBares(table, order, medias, i)
    ensures forall i :: i in starts + bare <==> i in TakenOfAll(table, order)
    ensures starts + bare == {} <==> TakenOfAll(table, order) == []
    ensures (forall m :: 0 <= m < |table| ==> AllSmooth(table[m])) ==>
              forall i :: i in TakenOfAll(table, order) <==> exists m :: 0 <= m < |table| && Chosen(i, order, selves, medias, consMedias[m])
  {
    hide AllTracks, AllBares, AllSmooth, Visits, TakenOfAll, Chosen;
    forall i ensures i in starts + bare <==> i in TakenOfAll(table, order) {
      TakenHow(table, order, selves, medias, consMedias, i);
    }
    if TakenOfAll(table, order) != [] {
      assert TakenOfAll(table, order)[0] in starts + bare;
    }
    if forall m :: 0 <= m < |table| ==> AllSmooth(table[m]) {
      forall i ensures i in TakenOfAll(table, order) <==> exists m :: 0 <= m < |table| && Chosen(i, order, selves, medias, consMedias[m]) {
        AllTaken(table, order, selves, medias, consMedias, i);
      }
    }
  }

  lemma {:induction false} TakenHow(table: seq<seq<Visit>>, order: seq<nat>, selves: set<nat>, medias: nat -> seq<Media>, consMedias: seq<Media>, i: nat)
    requires AllVisits(table, order, selves, medias, consMedias) && forall m :: 0 <= m < |table| ==> |table[m]| <= |order|
    ensures i in TakenOfAll(table, order) <==> AllTracks(table, order, medias, i) || AllBares(table, order, medias, i)
  {
    hide Visits, TakenOf, TrackOf, BareOf, AllFailed;
    if table != [] {
      var n := |table| - 1;
      FewerVisits(table, order, selves, medias, consMedias);
      TakenHow(table[..n], order, selves, medias, consMedias, i);
      TracksOfAll(table[..n], table[n], order, medias, i);
      assert table[..n] + [table[n]] == table;
      MatchedHow(table[n], order, selves, AllFailed(table[..n], |order|), medias, consMedias[n], i);
    }
  }

  lemma MatchedHow(visits: seq<Visit>, order: seq<nat>, selves: set<nat>, failed: seq<bool>, medias: nat -> seq<Media>, consMedia: Media, i: nat)
    requires Visits(visits, order, selves, failed, medias, consMedia) && |visits| <= |order|
    ensures i in TakenOf(visits, order) <==> TrackOf(visits, order, medias, i) || BareOf(visits, order, medias, i)
  {
    TakenMatch(visits, order, i);
    hide TakenOf, WantsAll;
    forall n | 0 <= n < |visits| ensures IsMatch(visits[n]) <==> HasTrack(visits[n], medias(order[n])) || HasBare(visits[n], medias(order[n])) {
      if visits[n].Looked? { LookedHow(visits[n].outcomes, medias(order[n]), consMedia); }
    }
    hide IsMatch, HasTrack, HasBare;
  }

  lemma LookedHow(outcomes: seq<MediaOutcome>, list: seq<Media>, consMedia: Media)
    requires LooksAt(outcomes, list, consMedia)
    ensures IsMatch(Looked(outcomes)) <==> HasTrack(Looked(outcomes), list) || HasBare(Looked(outcomes), list)
    ensures IsMatch(Looked(outcomes)) ==> Offers(list, consMedia)
  {
    hide MatchMedia, WantsAll;
    if Accepted in outcomes {
      var k :| 0 <= k < |outcomes| && outcomes[k] == Accepted;
      assert MatchMedia(list[k], consMedia).Some?;
    }
  }

  // A producer that is taken offers one of the medias.
  lemma TakenOffers(table: seq<seq<Visit>>, order: seq<nat>, selves: set<nat>, medias: nat -> seq<Media>, consMedias: seq<Media>, i: nat)
    requires AllVisits(table, order, selves, medias, consMedias) && forall m :: 0 <= m < |table| ==> |table[m]| <= |order|
    requires AllTracks(table, order, medias, i) || AllBares(table, order, medias, i)
    ensures i in order && i !in selves && exists m :: 0 <= m < |consMedias| && Offers(medias(i), consMedias[m])
  {
    hide AllFailed, Offers, LooksAt, WantsAll, IsMatch;
    if AllTracks(table, order, medias, i) {
      var m :| 0 <= m < |table| && TrackOf(table[m], order, medias, i);
      var n :| 0 <= n < |table[m]| && order[n] == i && HasTrack(table[m][n], medias(i));
      LookedHow(table[m][n].outcomes, medias(i), consMedias[m]);
    } else {
      var m :| 0 <= m < |table| && BareOf(table[m], order, medias, i);
      var n :| 0 <= n < |table[m]| && order[n] == i && HasBare(table[m][n], medias(i));
      LookedHow(table[m][n].outcomes, medias(i), consMedias[m]);
    }
  }

  lemma BareIsTwoWay(table: seq<seq<Visit>>, order: seq<nat>, medias: nat -> seq<Media>, i: nat)
    requires forall m :: 0 <= m < |table| ==> |table[m]| <= |order|
    requires AllBares(table, order, medias, i)
    ensures i in order && TwoWay(medias(i))
  {
    var m :| 0 <= m < |table| && BareOf(table[m], order, medias, i);
    var n :| 0 <= n < |table[m]| && order[n] == i && HasBare(table[m][n], medias(i));
  }

  // When a producer offers a media somebody is chosen.
  lemma SomebodyChosen(order: seq<nat>, selves: set<nat>, medias: nat -> seq<Media>, consMedia: Media, n: nat) returns (i: nat)
    requires n < |order| && order[n] !in selves && Offers(medias(order[n]), consMedia)
    ensures Chosen(i, order, selves, medias, consMedia)
  {
    hide Offers;
    if exists k :: 0 <= k < |consMedia.codecs| && consMedia.codecs[k].name == "ALL" {
      i := order[n];
    } else {
      var j := FindFirst(order, selves, medias, consMedia, n);
      i := order[j];
    }
  }

  lemma {:induction false} FindFirst(order: seq<nat>, selves: set<nat>, medias: nat -> seq<Media>, consMedia: Media, n: nat) returns (j: nat)
    requires n < |order| && order[n] !in selves && Offers(medias(order[n]), consMedia)
    ensures IsFirst(j, order, selves, medias, consMedia)
  {
    hide Offers;
    if k :| 0 <= k < n && order[k] !in selves && Offers(medias(order[k]), consMedia) {
      j := FindFirst(order, selves, medias, consMedia, k);
    } else {
      j := n;
    }
  }
}
