// pkg/core/node.go: the graph of receivers (roots) and senders (their
// children). Nothing in the repository hangs a child below a sender.

module Node {
  // Two codecs at different addresses are different, however alike they are.
  datatype Codec = Codec(address: nat, name: string, clockRate: nat, channels: nat)

  // ---- Lists of children ------------------------------------------------------------

  function RemoveFirst<T(==)>(s: seq<T>, x: T): (r: seq<T>)
    ensures |r| == |s| - if x in s then 1 else 0
  {
    if s == [] then [] else if s[0] == x then s[1..] else [s[0]] + RemoveFirst(s[1..], x)
  }

  lemma {:induction false} RemoveFirstAt<T>(s: seq<T>, x: T, k: nat)
    requires k < |s| && s[k] == x && x !in s[..k]
    ensures RemoveFirst(s, x) == s[..k] + s[k + 1..]
  {
    if k > 0 {
      assert s[0] in s[..k];
      assert s[1..][..k - 1] == s[..k][1..];
      RemoveFirstAt(s[1..], x, k - 1);
      assert s[..k] + s[k + 1..] == [s[0]] + (s[1..][..k - 1] + s[1..][k..]);
    }
  }

  lemma {:induction false} RemoveFirstNone<T>(s: seq<T>, x: T)
    requires x !in s
    ensures RemoveFirst(s, x) == s
  {
    if s != [] { RemoveFirstNone(s[1..], x); }
  }

  lemma {:induction false} RemoveFirstKeeps<T>(s: seq<T>, x: T, y: T)
    requires y != x
    ensures y in RemoveFirst(s, x) <==> y in s
  {
    if s != [] {
      RemoveFirstKeeps(s[1..], x, y);
      assert y in s <==> y == s[0] || y in s[1..];
    }
  }

  lemma RemoveFirstSubset<T>(s: seq<T>, x: T)
    ensures forall y :: y in RemoveFirst(s, x) ==> y in s
  {
    forall y | y in RemoveFirst(s, x) ensures y in s {
      if y == x {
        if x !in s { RemoveFirstNone(s, x); }
      } else {
        RemoveFirstKeeps(s, x, y);
      }
    }
  }

  // ---- Closing a root -----------------------------------------------------------------

  // Close of a root ranges over its slice of children while each child removes
  // itself, which shifts the rest of the same array to the left. `slots` is that
  // array, `live` what the root still has.
  function CloseFrom<T(==)>(slots: seq<T>, live: seq<T>, i: nat): seq<T>
    requires i <= |slots| && |live| <= |slots|
    decreases |slots| - i
  {
    if i == |slots| then live
    else
      var left := RemoveFirst(live, slots[i]);
      CloseFrom(left + slots[|left|..], left, i + 1)
  }

  function Leftover<T(==)>(childs: seq<T>): seq<T> {
    CloseFrom(childs, childs, 0)
  }

  predicate Distinct<T(==)>(s: seq<T>) {
    forall i, j :: 0 <= i < j < |s| ==> s[i] != s[j]
  }

  // The children at odd positions, except the last child.
  function EverySecond<T(==)>(s: seq<T>): (r: seq<T>)
    ensures |r| == if s == [] then 0 else (|s| - 1) / 2
  {
    if |s| <= 2 then [] else [s[1]] + EverySecond(s[2..])
  }

  // Closing a root with one or two children detaches them all; with more, every
  // second one stays behind.
  lemma ClosingLeaves<T>(childs: seq<T>)
    requires Distinct(childs)
    ensures Leftover(childs) == EverySecond(childs)
    ensures Leftover(childs) == [] <==> |childs| <= 2
  {
    if childs != [] {
      var none: seq<T> := [];
      assert none + childs == childs && childs[..|childs|] == childs;
      assert Halfway(none, childs, childs);
      hide Halfway, CloseFrom;
      CloseRest(none, childs, childs);
      assert none + EverySecond(childs) == EverySecond(childs);
    }
  }

  // In the middle of the loop the root has the children that were skipped and
  // the rest; the slots beyond them hold copies of the last child.
  ghost predicate Halfway<T>(kept: seq<T>, rest: seq<T>, slots: seq<T>) {
    var live := kept + rest;
    && rest != [] && Distinct(live) && |live| <= |slots| && slots[..|live|] == live
    && forall k :: |live| <= k < |slots| ==> slots[k] == rest[|rest| - 1]
  }

  function Shifted<T>(kept: seq<T>, rest: seq<T>, slots: seq<T>): seq<T>
    requires rest != [] && |kept + rest| <= |slots|
  {
    (kept + rest[1..]) + slots[|kept + rest| - 1..]
  }

  lemma CloseOne<T>(kept: seq<T>, rest: seq<T>, slots: seq<T>)
    requires Halfway(kept, rest, slots)
    ensures CloseFrom(slots, kept + rest, |kept|) == CloseFrom(Shifted(kept, rest, slots), kept + rest[1..], |kept| + 1)
  {
    var live, i, x := kept + rest, |kept|, rest[0];
    assert slots[i] == slots[..|live|][i] == x && live[..i] == kept && live[i + 1..] == rest[1..];
    assert x !in kept by { assert live[i] == x; }
    RemoveFirstAt(live, x, i);
  }

  lemma ShiftedSlots<T>(kept: seq<T>, rest: seq<T>, slots: seq<T>, k: nat)
    requires Halfway(kept, rest, slots) && k < |slots|
    ensures var n := |kept + rest| - 1; Shifted(kept, rest, slots)[k] == if k < n then (kept + rest[1..])[k] else rest[|rest| - 1]
  {
    var live := kept + rest;
    assert slots[|live| - 1] == slots[..|live|][|live| - 1] == rest[|rest| - 1];
  }

  lemma DistinctWithout<T>(kept: seq<T>, rest: seq<T>)
    requires rest != [] && Distinct(kept + rest)
    ensures rest[0] !in kept && Distinct(kept + rest[1..])
  {
    var live, left := kept + rest, kept + rest[1..];
    forall j | 0 <= j < |left| ensures left[j] == live[if j < |kept| then j else j + 1] {}
    forall j | 0 <= j < |kept| ensures kept[j] != rest[0] {
      assert live[j] != live[|kept|];
    }
  }

  lemma ShiftedHalfway<T>(kept: seq<T>, rest: seq<T>, slots: seq<T>)
    requires Halfway(kept, rest, slots) && |rest| > 2
    ensures Halfway(kept + [rest[1]], rest[2..], Shifted(kept, rest, slots))
  {
    var left, shifted := kept + rest[1..], Shifted(kept, rest, slots);
    assert (kept + [rest[1]]) + rest[2..] == left;
    assert shifted[..|left|] == left;
    DistinctWithout(kept, rest);
    forall k | |left| <= k < |shifted| ensures shifted[k] == rest[|rest| - 1] {
      ShiftedSlots(kept, rest, slots, k);
    }
  }

  lemma CloseShort<T>(kept: seq<T>, rest: seq<T>, slots: seq<T>)
    requires Halfway(kept, rest, slots) && |rest| <= 2
    ensures CloseFrom(slots, kept + rest, |kept|) == kept
  {
    CloseOne(kept, rest, slots);
    DistinctWithout(kept, rest);
    var shifted := Shifted(kept, rest, slots);
    forall k | |kept| + |rest| - 1 <= k < |slots| ensures shifted[k] == rest[|rest| - 1] {
      ShiftedSlots(kept, rest, slots, k);
    }
    assert rest == if |rest| == 1 then [rest[0]] else [rest[0], rest[1]];
    hide CloseFrom;
    if |rest| == 1 {
      assert kept + [] == kept;
      NoMore(shifted, kept, |kept| + 1);
    } else {
      assert shifted[..|kept| + 1] == kept + rest[1..];
      LastOfTwo(kept, rest[1], shifted, rest[0]);
    }
  }

  lemma {:induction false} CloseRest<T>(kept: seq<T>, rest: seq<T>, slots: seq<T>)
    requires Halfway(kept, rest, slots)
    ensures CloseFrom(slots, kept + rest, |kept|) == kept + EverySecond(rest)
    decreases |rest|
  {
    assert |kept + rest| <= |slots|;
    hide Halfway, Shifted, CloseFrom, EverySecond;
    NextRest(kept, rest);
    if |rest| <= 2 {
      CloseShort(kept, rest, slots);
    } else {
      CloseOne(kept, rest, slots);
      ShiftedHalfway(kept, rest, slots);
      CloseRest(kept + [rest[1]], rest[2..], Shifted(kept, rest, slots));
    }
  }

  lemma NextRest<T>(kept: seq<T>, rest: seq<T>)
    ensures |rest| <= 2 ==> kept + EverySecond(rest) == kept
    ensures |rest| > 2 ==>
              && (kept + [rest[1]]) + rest[2..] == kept + rest[1..] && |kept + [rest[1]]| == |kept| + 1
              && (kept + [rest[1]]) + EverySecond(rest[2..]) == kept + EverySecond(rest)
  {
    if |rest| <= 2 {
      assert EverySecond(rest) == [] && kept + [] == kept;
    } else {
      assert EverySecond(rest) == [rest[1]] + EverySecond(rest[2..]);
      assert rest[1..] == [rest[1]] + rest[2..];
      Assoc(kept, [rest[1]], rest[2..]);
      Assoc(kept, [rest[1]], EverySecond(rest[2..]));
    }
  }

  lemma Assoc<T>(a: seq<T>, b: seq<T>, c: seq<T>)
    ensures (a + b) + c == a + (b + c)
  {
  }

  lemma LastOfTwo<T>(kept: seq<T>, y: T, slots: seq<T>, x: T)
    requires Distinct(kept + [x, y]) && |slots| >= |kept| + 2 && slots[..|kept| + 1] == kept + [y]
    requires forall k :: |kept| + 1 <= k < |slots| ==> slots[k] == y
    ensures CloseFrom(slots, kept + [y], |kept| + 1) == kept
  {
    var live, i := kept + [y], |kept| + 1;
    var all := kept + [x, y];
    assert forall k :: 0 <= k < |kept| ==> kept[k] == all[k];
    assert all[|kept| + 1] == y && y !in kept;
    assert live[..|kept|] == kept && live[|kept| + 1..] == [];
    RemoveFirstAt(live, y, |kept|);
    assert kept + [] == kept;
    NoMore(kept + slots[|kept|..], kept, i + 1);
  }

  lemma {:induction false} NoMore<T>(slots: seq<T>, live: seq<T>, i: nat)
    requires |live| <= i <= |slots| && forall k :: i <= k < |slots| ==> slots[k] !in live
    ensures CloseFrom(slots, live, i) == live
    decreases |slots| - i
  {
    if i < |slots| {
      RemoveFirstNone(live, slots[i]);
      NoMore(live + slots[|live|..], live, i + 1);
    }
  }

  class Node {
    const codec: Codec
    var childs: seq<Node>
    var parent: Node?

    // A root whose children are leaves, or a leaf of such a root.
    ghost predicate Shallow()
      reads this, parent, childs
    {
      if parent == null then forall c :: c in childs ==> c.parent == this && c.childs == []
      else parent != this && parent.parent == null && childs == []
    }

    ghost function Root(): Node
      reads this
    {
      if parent == null then this else parent
    }

    constructor (codec: Codec)
      ensures this.codec == codec && childs == [] && parent == null
    {
      this.codec, childs, parent := codec, [], null;
    }

    method AppendChild(child: Node)
      modifies this`childs, child`parent
      ensures childs == old(childs) + [child] && child.parent == this
    {
      childs := childs + [child];
      child.parent := this;
    }

    method RemoveChild(child: Node)
      modifies this`childs
      ensures childs == RemoveFirst(old(childs), child)
    {
      var i := 0;
      while i < |childs|
        invariant i <= |childs| && childs == old(childs) && child !in childs[..i]
      {
        if childs[i] == child {
          RemoveFirstAt(childs, child, i);
          childs := childs[..i] + childs[i + 1..];
          return;
        }
        i := i + 1;
      }
      RemoveFirstNone(childs, child);
    }

    method Close()
      requires Shallow()
      requires parent != null ==> parent.Shallow()
      modifies Root()`childs
      ensures parent == old(parent)
      ensures if parent == null then childs == Leftover(old(childs))
              else parent.childs == RemoveFirst(old(parent.childs), this)
      decreases if parent == null then (if childs == [] then 0 else 2 * |childs| + 2) else 2 * |parent.childs| + 1
    {
      if parent != null {
        RemoveFirstSubset(parent.childs, this);
        parent.RemoveChild(this);
        if |parent.childs| == 0 {
          parent.Close();
        }
      } else {
        var slots := childs;
        var i := 0;
        while i < |slots|
          invariant i <= |slots| && |childs| <= |slots| && parent == null && |slots| == |old(childs)|
          invariant forall c :: c in childs || c in slots ==> c.parent == this && c.childs == [] && c in old(childs)
          invariant CloseFrom(slots, childs, i) == Leftover(old(childs))
        {
          var child := slots[i];
          RemoveFirstSubset(childs, child);
          child.Close();
          slots := childs + slots[|childs|..];
          i := i + 1;
        }
      }
    }
  }

  // The children of src move to dst, which loses its own.
  method MoveNode(dst: Node, src: Node)
    modifies dst`childs, src`childs, src.childs`parent
    ensures dst.childs == old(src.childs) && (src != dst ==> src.childs == [])
    ensures forall c :: c in dst.childs ==> c.parent == dst
  {
    var childs := src.childs;
    src.childs := [];
    dst.childs := childs;
    var i := 0;
    while i < |childs|
      invariant i <= |childs| && dst.childs == childs && (src != dst ==> src.childs == [])
      invariant forall c :: c in childs[..i] ==> c.parent == dst
    {
      childs[i].parent := dst;
      i := i + 1;
    }
  }

  // ---- Graphs -------------------------------------------------------------------------

  // A closed set of roots and leaves: a child knows its parent, and no node is
  // twice among the children of another.
  ghost predicate Forest(nodes: set<Node>)
    reads nodes
  {
    forall n :: n in nodes ==>
      && (n.parent != null ==> n.parent in nodes && n.parent != n && n.parent.parent == null && n.childs == [])
      && Distinct(n.childs)
      && forall c :: c in n.childs ==> c in nodes && c.parent == n
  }

  lemma {:induction false} RemoveFirstDistinct<T>(s: seq<T>, x: T)
    requires Distinct(s)
    ensures Distinct(RemoveFirst(s, x)) && x !in RemoveFirst(s, x)
  {
    if x in s {
      var k :| 0 <= k < |s| && s[k] == x;
      assert x !in s[..k];
      RemoveFirstAt(s, x, k);
      var r := s[..k] + s[k + 1..];
      assert forall i :: 0 <= i < |r| ==> r[i] == s[if i < k then i else i + 1];
    } else {
      RemoveFirstNone(s, x);
    }
  }

  // The children left when each of a list is removed.
  function RemoveEach<T(==)>(s: seq<T>, xs: seq<T>): seq<T> {
    if xs == [] then s else RemoveFirst(RemoveEach(s, xs[..|xs| - 1]), xs[|xs| - 1])
  }

  lemma {:induction false} RemoveEachKeeps<T>(s: seq<T>, xs: seq<T>)
    requires Distinct(s)
    ensures Distinct(RemoveEach(s, xs)) && forall y :: y in RemoveEach(s, xs) <==> y in s && y !in xs
  {
    if xs != [] {
      var rest, x := xs[..|xs| - 1], xs[|xs| - 1];
      RemoveEachKeeps(s, rest);
      RemoveFirstDistinct(RemoveEach(s, rest), x);
      forall y ensures y in RemoveEach(s, xs) <==> y in s && y !in xs {
        assert y in xs <==> y in rest || y == x;
        if y != x { RemoveFirstKeeps(RemoveEach(s, rest), x, y); }
      }
    }
  }

  lemma {:induction false} RemoveEachNone<T>(s: seq<T>, xs: seq<T>)
    requires forall x :: x in xs ==> x !in s
    ensures RemoveEach(s, xs) == s
  {
    if xs != [] {
      RemoveEachNone(s, xs[..|xs| - 1]);
      RemoveFirstNone(s, xs[|xs| - 1]);
    }
  }

  lemma {:induction false} LeftoverSubset<T>(childs: seq<T>)
    requires Distinct(childs)
    ensures Distinct(Leftover(childs)) && forall c :: c in Leftover(childs) ==> c in childs
  {
    ClosingLeaves(childs);
    EverySecondSubset(childs);
  }

  lemma {:induction false} EverySecondSubset<T>(s: seq<T>)
    requires Distinct(s)
    ensures Distinct(EverySecond(s)) && forall c :: c in EverySecond(s) ==> c in s[1..] && c in s
    decreases |s|
  {
    if |s| > 2 {
      assert Distinct(s[2..]);
      EverySecondSubset(s[2..]);
      assert s[1] !in s[2..];
      assert s[2..] == s[1..][1..];
    }
  }

  // Receiver.Replace: the children of a root move to another, childless one.
  method Replace(r: Node, target: Node, ghost nodes: set<Node>)
    requires Forest(nodes) && r in nodes && target in nodes && r != target
    requires r.parent == null && target.parent == null && target.childs == []
    modifies r`childs, target`childs, r.childs`parent
    ensures Forest(nodes) && target.childs == old(r.childs) && r.childs == []
    ensures forall n :: n in nodes ==> (n.parent == null <==> old(n.parent) == null)
  {
    MoveNode(target, r);
  }
}
