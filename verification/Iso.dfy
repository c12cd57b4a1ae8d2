// pkg/iso/iso.go and the fragment writers of atoms.go: ISO BMFF boxes written
// into one buffer, with sizes patched when a box ends.

module Iso {
  import opened Bytes

  // ---- Movie --------------------------------------------------------------------

  // The buffer, and where the boxes that are still open start.
  datatype State = State(b: Data, start: seq<nat>)

  datatype Op = Start(name: Data) | Write(data: Data) | End

  // Every open box has room for its size.
  predicate Valid(m: State) {
    forall k :: 0 <= k < |m.start| ==> m.start[k] + 4 <= |m.b|
  }

  function PutAt(b: Data, at: nat, v: uint32): (r: Data)
    requires at + 4 <= |b|
    ensures |r| == |b|
  {
    b[..at] + Put32(v) + b[at + 4..]
  }

  function Apply(m: State, op: Op): (r: State)
    requires Valid(m) && (op.End? ==> m.start != [])
    ensures Valid(r)
  {
    match op
    case Start(name) => State(m.b + [0, 0, 0, 0] + name, m.start + [|m.b|])
    case Write(data) => State(m.b + data, m.start)
    case End =>
      var n := |m.start| - 1;
      State(PutAt(m.b, m.start[n], (|m.b| - m.start[n]) % 0x1_0000_0000), m.start[..n])
  }

  class Movie {
    var b: Data
    var start: seq<nat>

    ghost function Current(): State
      reads this
    {
      State(b, start)
    }

    constructor ()
      ensures Current() == State([], []) && Valid(Current())
    {
      b, start := [], [];
    }

    method StartAtom(name: Data)
      requires Valid(Current())
      modifies this
      ensures Valid(Current()) && Current() == Apply(old(Current()), Start(name))
    {
      start := start + [|b|];
      b := b + [0, 0, 0, 0];
      b := b + name;
    }

    // Without an open box the source panics.
    method EndAtom()
      requires Valid(Current()) && start != []
      modifies this
      ensures Valid(Current()) && Current() == Apply(old(Current()), End)
    {
      var n := |start| - 1;
      var i := start[n];
      var size := (|b| - i) % 0x1_0000_0000;
      b := PutAt(b, i, size);
      start := start[..n];
    }

    method WriteBytes(data: Data)
      requires Valid(Current())
      modifies this
      ensures Valid(Current()) && Current() == Apply(old(Current()), Write(data))
    {
      b := b + data;
    }
  }

  // ---- Boxes ---------------------------------------------------------------------

  datatype Box = Raw(data: Data) | Node(name: Data, kids: seq<Box>)

  // The calls that write the boxes: Write for raw data, and a balanced
  // StartAtom and EndAtom around the children of a box.
  function Calls(boxes: seq<Box>): seq<Op> {
    if boxes == [] then [] else BoxCalls(boxes[0]) + Calls(boxes[1..])
  }

  function BoxCalls(box: Box): seq<Op> {
    match box
    case Raw(data) => [Write(data)]
    case Node(name, kids) => [Start(name)] + Calls(kids) + [End]
  }

  // The serialisation, by recursion: size, name and children.
  function Serial(boxes: seq<Box>): Data {
    if boxes == [] then [] else BoxSerial(boxes[0]) + Serial(boxes[1..])
  }

  function BoxSerial(box: Box): Data {
    match box
    case Raw(data) => data
    case Node(name, kids) => Sized(name, Serial(kids))
  }

  function Sized(name: Data, inner: Data): (d: Data)
    ensures |d| == 4 + |name| + |inner|
  {
    Put32((4 + |name| + |inner|) % 0x1_0000_0000) + name + inner
  }

  function RunAll(m: State, ops: seq<Op>): (r: Option<State>)
    requires Valid(m)
    ensures r.Some? ==> Valid(r.value)
    decreases |ops|
  {
    if ops == [] then Some(m)
    else if ops[0].End? && m.start == [] then None
    else RunAll(Apply(m, ops[0]), ops[1..])
  }

  lemma {:induction false} RunAppend(m: State, a: seq<Op>, b: seq<Op>)
    requires Valid(m) && RunAll(m, a).Some?
    ensures RunAll(m, a + b) == RunAll(RunAll(m, a).value, b)
    decreases |a|
  {
    hide Apply;
    if a == [] {
      assert a + b == b;
    } else {
      assert (a + b)[0] == a[0] && (a + b)[1..] == a[1..] + b;
      RunAppend(Apply(m, a[0]), a[1..], b);
    }
  }

  lemma RunOne(m: State, op: Op)
    requires Valid(m) && (op.End? ==> m.start != [])
    ensures RunAll(m, [op]) == Some(Apply(m, op))
  {
    assert [op][1..] == [];
  }

  // Ending a box patches its size and leaves the rest.
  lemma EndPatches(b: Data, start: seq<nat>, name: Data, inner: Data)
    requires Valid(State(b, start))
    ensures Valid(State(b + [0, 0, 0, 0] + name + inner, start + [|b|]))
    ensures Apply(State(b + [0, 0, 0, 0] + name + inner, start + [|b|]), End) == State(b + Sized(name, inner), start)
  {
    var all := b + [0, 0, 0, 0] + name + inner;
    hide Put32;
    assert all[..|b|] == b && all[|b| + 4..] == name + inner;
    var size := Put32((4 + |name| + |inner|) % 0x1_0000_0000);
    assert b + size + (name + inner) == b + (size + name + inner);
  }

  // Whatever was written before and is still open, the calls of any list of
  // boxes append exactly its serialisation and leave the open boxes open.
  lemma {:induction false} CallsSerialise(m: State, boxes: seq<Box>)
    requires Valid(m)
    ensures RunAll(m, Calls(boxes)) == Some(State(m.b + Serial(boxes), m.start))
    decreases boxes, 1
  {
    if boxes == [] {
      assert m.b + [] == m.b;
    } else {
      BoxCallsSerialise(m, boxes[0]);
      var mid := State(m.b + BoxSerial(boxes[0]), m.start);
      assert Valid(mid) by { assert RunAll(m, BoxCalls(boxes[0])) == Some(mid); }
      CallsSerialise(mid, boxes[1..]);
      RunAppend(m, BoxCalls(boxes[0]), Calls(boxes[1..]));
      assert m.b + BoxSerial(boxes[0]) + Serial(boxes[1..]) == m.b + (BoxSerial(boxes[0]) + Serial(boxes[1..]));
    }
  }

  lemma {:induction false} BoxCallsSerialise(m: State, box: Box)
    requires Valid(m)
    ensures RunAll(m, BoxCalls(box)) == Some(State(m.b + BoxSerial(box), m.start))
    decreases box, 0
  {
    match box
    case Raw(data) =>
      RunOne(m, Write(data));
    case Node(name, kids) =>
      var begun := Apply(m, Start(name));
      CallsSerialise(begun, kids);
      EndPatches(m.b, m.start, name, Serial(kids));
      NodeRun(m, name, kids);
  }

  lemma NodeRun(m: State, name: Data, kids: seq<Box>)
    requires Valid(m)
    requires var begun := Apply(m, Start(name)); RunAll(begun, Calls(kids)) == Some(State(begun.b + Serial(kids), begun.start))
    requires var inner := Serial(kids); var full := State(m.b + [0, 0, 0, 0] + name + inner, m.start + [|m.b|]);
             Valid(full) && Apply(full, End) == State(m.b + Sized(name, inner), m.start)
    ensures RunAll(m, [Start(name)] + Calls(kids) + [End]) == Some(State(m.b + Sized(name, Serial(kids)), m.start))
  {
    hide Serial, Sized, Calls;
    var begun, full := Apply(m, Start(name)), State(m.b + [0, 0, 0, 0] + name + Serial(kids), m.start + [|m.b|]);
    RunOne(m, Start(name));
    RunAppend(m, [Start(name)], Calls(kids));
    RunOne(full, End);
    RunAppend(m, [Start(name)] + Calls(kids), [End]);
  }
}
