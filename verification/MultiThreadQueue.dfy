/** The growing circular buffer behind every scheduler (src/MultiThreadQueue.hpp).

    `Ring` is the buffer's state as a value and `Push`, `Pull` are what one call does to it;
    the class `Queue` is the code, proved equal to them call by call.  What the buffer is for is
    then proved of whole runs of the two operations: it is a FIFO, the reference that `pull`
    hands out lives for an exactly known number of pushes, and growing costs amortised O(1). */
module MultiThreadQueue {

  const INIT_SIZE := 1

  // --- The ring as a value ---------------------------------------------------------------

  /** `top` is the front element's slot, `tail` is one past the last element's slot. */
  datatype Ring<T> = Ring(data: seq<T>, top: nat, tail: nat, curr: nat)

  /** k % n for the sums of two slots that the code reduces (`tail_ %= size_` and its like). */
  function Wrap(k: nat, n: nat): (w: nat)
    requires k < 2 * n
    ensures w < n
  {
    if k < n then k else k - n
  }

  lemma WrapIsRemainder(k: nat, n: nat)
    requires k < 2 * n
    ensures Wrap(k, n) == k % n
  {
    if n <= k {
      assert k == n * 1 + (k - n);
    }
  }

  ghost predicate Valid<T>(r: Ring<T>) {
    && 0 < |r.data|
    && r.top < |r.data|
    && r.curr <= |r.data|
    && r.tail == Wrap(r.top + r.curr, |r.data|)
  }

  predicate Full<T>(r: Ring<T>) {
    r.curr == |r.data|
  }

  /** The elements a reader meets from `top` around the ring. */
  function View<T>(r: Ring<T>): (v: seq<T>)
    requires Valid(r)
    ensures |v| == r.curr
    ensures forall i :: 0 <= i < |v| ==> v[i] == r.data[Wrap(r.top + i, |r.data|)]
  {
    seq(r.curr, i requires 0 <= i < r.curr => r.data[Wrap(r.top + i, |r.data|)])
  }

  /** A fresh buffer holds INIT_SIZE default-constructed elements. */
  function Init<T>(dflt: T): Ring<T> {
    Ring(seq(INIT_SIZE, _ => dflt), 0, 0, 0)
  }

  /** `resize`: twice the slots, the elements unrolled to the start. */
  function Grow<T>(r: Ring<T>, dflt: T): Ring<T>
    requires Valid(r)
  {
    Ring(View(r) + seq(2 * |r.data| - r.curr, _ => dflt), 0, r.curr, r.curr)
  }

  function MakeRoom<T>(r: Ring<T>, dflt: T): Ring<T>
    requires Valid(r)
  {
    if Full(r) then Grow(r, dflt) else r
  }

  function Push<T>(r: Ring<T>, x: T, dflt: T): Ring<T>
    requires Valid(r)
  {
    var g := MakeRoom(r, dflt);
    Ring(g.data[g.tail := x], g.top, Wrap(g.tail + 1, |g.data|), g.curr + 1)
  }

  /** What `pull` does once its wait is over, that is once `curr != 0`. */
  function Pull<T>(r: Ring<T>): (p: Ring<T>)
    requires Valid(r) && r.curr != 0
    ensures Valid(p)
  {
    r.(top := Wrap(r.top + 1, |r.data|), curr := r.curr - 1)
  }

  /** Growing keeps the FIFO, whatever the wrap position. */
  lemma MakeRoomKeeps<T>(r: Ring<T>, dflt: T)
    requires Valid(r)
    ensures var g := MakeRoom(r, dflt);
            Valid(g) && View(g) == View(r) && g.curr == r.curr < |g.data|
  {
    if Full(r) {
      var g := Grow(r, dflt);
      forall i | 0 <= i < r.curr ensures View(g)[i] == View(r)[i] {
      }
    }
  }

  lemma PutAppends<T>(g: Ring<T>, x: T, n: nat)
    requires Valid(g) && g.curr < |g.data| == n
    ensures g.tail < n
    ensures var p := Ring(g.data[g.tail := x], g.top, Wrap(g.tail + 1, n), g.curr + 1);
            Valid(p) && View(p) == View(g) + [x]
  {
    var p := Ring(g.data[g.tail := x], g.top, Wrap(g.tail + 1, n), g.curr + 1);
    forall i | 0 <= i < g.curr ensures View(p)[i] == View(g)[i] {
    }
  }

  /** `push` appends to the FIFO, at any wrap position and whether or not it grows first. */
  lemma PushAppends<T>(r: Ring<T>, x: T, dflt: T)
    requires Valid(r)
    ensures Valid(Push(r, x, dflt))
    ensures View(Push(r, x, dflt)) == View(r) + [x]
  {
    MakeRoomKeeps(r, dflt);
    var g := MakeRoom(r, dflt);
    PutAppends(g, x, |g.data|);
  }

  /** `pull` removes the front of the FIFO, and the slot it leaves held that front. */
  lemma PullRemovesFront<T>(r: Ring<T>)
    requires Valid(r) && r.curr != 0
    ensures Valid(Pull(r))
    ensures View(r) == [r.data[r.top]] + View(Pull(r))
  {
    var p := Pull(r);
    forall i | 0 <= i < p.curr ensures View(p)[i] == View(r)[i + 1] {
    }
  }

  // --- Whole runs ------------------------------------------------------------------------

  datatype Op<T> = DoPush(x: T) | DoPull

  function Apply<T>(r: Ring<T>, op: Op<T>, dflt: T): Ring<T>
    requires Valid(r) && (op.DoPull? ==> r.curr != 0)
  {
    match op
    case DoPush(x) => Push(r, x, dflt)
    case DoPull => Pull(r)
  }

  lemma ApplyValid<T>(r: Ring<T>, op: Op<T>, dflt: T)
    requires Valid(r) && (op.DoPull? ==> r.curr != 0)
    ensures Valid(Apply(r, op, dflt))
  {
    match op
    case DoPush(x) => PushAppends(r, x, dflt);
    case DoPull => PullRemovesFront(r);
  }

  /** Every state of a run is obtained from the one before it by one operation; a pull only
      happens once there is something to pull. */
  ghost predicate Run<T>(rs: seq<Ring<T>>, ops: seq<Op<T>>, dflt: T) {
    && |rs| == |ops| + 1
    && Valid(rs[0])
    && forall i {:trigger ops[i]} :: 0 <= i < |ops| ==>
         && Valid(rs[i])
         && (ops[i].DoPull? ==> rs[i].curr != 0)
         && rs[i + 1] == Apply(rs[i], ops[i], dflt)
  }

  lemma {:induction false} RunValid<T>(rs: seq<Ring<T>>, ops: seq<Op<T>>, dflt: T)
    requires Run(rs, ops, dflt)
    ensures Valid(rs[|ops|])
  {
    if ops != [] {
      var k := |ops| - 1;
      assert ops[k] == ops[k];
      ApplyValid(rs[k], ops[k], dflt);
    }
  }

  lemma RunPrefix<T>(rs: seq<Ring<T>>, ops: seq<Op<T>>, dflt: T)
    requires Run(rs, ops, dflt) && ops != []
    ensures Run(rs[..|ops|], ops[..|ops| - 1], dflt)
    ensures var k := |ops| - 1;
            Valid(rs[k]) && (ops[k].DoPull? ==> rs[k].curr != 0) && rs[k + 1] == Apply(rs[k], ops[k], dflt)
  {
    var ops', rs' := ops[..|ops| - 1], rs[..|ops|];
    forall i | 0 <= i < |ops'|
      ensures Valid(rs'[i]) && (ops'[i].DoPull? ==> rs'[i].curr != 0) && rs'[i + 1] == Apply(rs'[i], ops'[i], dflt)
    {
      assert ops[i] == ops'[i];
    }
    assert ops[|ops| - 1] == ops[|ops| - 1];
  }

  /** The elements pushed by a run, in order. */
  function Pushed<T>(ops: seq<Op<T>>): seq<T> {
    if ops == [] then []
    else
      var rest := Pushed(ops[..|ops| - 1]);
      match ops[|ops| - 1]
      case DoPush(x) => rest + [x]
      case DoPull => rest
  }

  /** The elements handed out by a run's pulls, in order: each is what its slot held. */
  ghost function Pulled<T>(rs: seq<Ring<T>>, ops: seq<Op<T>>, dflt: T): seq<T>
    requires Run(rs, ops, dflt)
    decreases |ops|
  {
    if ops == [] then []
    else
      RunPrefix(rs, ops, dflt);
      var k := |ops| - 1;
      var rest := Pulled(rs[..|ops|], ops[..k], dflt);
      if ops[k].DoPull? then rest + [rs[k].data[rs[k].top]] else rest
  }

  /** The ring is a FIFO: over every run what was pulled, followed by what is still inside, is
      what was inside at the start followed by what was pushed. */
  lemma {:induction false} FifoOverRuns<T>(rs: seq<Ring<T>>, ops: seq<Op<T>>, dflt: T)
    requires Run(rs, ops, dflt)
    ensures Valid(rs[|ops|])
    ensures View(rs[0]) + Pushed(ops) == Pulled(rs, ops, dflt) + View(rs[|ops|])
    decreases |ops|
  {
    if ops != [] {
      RunPrefix(rs, ops, dflt);
      var k := |ops| - 1;
      FifoOverRuns(rs[..|ops|], ops[..k], dflt);
      FifoStep(rs[k], ops[k], dflt, View(rs[0]) + Pushed(ops[..k]), Pulled(rs[..|ops|], ops[..k], dflt));
    }
  }

  lemma FifoStep<T>(r: Ring<T>, op: Op<T>, dflt: T, given: seq<T>, taken: seq<T>)
    requires Valid(r) && (op.DoPull? ==> r.curr != 0)
    requires given == taken + View(r)
    ensures Valid(Apply(r, op, dflt))
    ensures match op
            case DoPush(x) => given + [x] == taken + View(Apply(r, op, dflt))
            case DoPull => given == taken + [r.data[r.top]] + View(Apply(r, op, dflt))
  {
    match op {
      case DoPush(x) =>
        PushAppends(r, x, dflt);
        assert given + [x] == taken + (View(r) + [x]);
      case DoPull =>
        PullRemovesFront(r);
        assert taken + ([r.data[r.top]] + View(Pull(r))) == taken + [r.data[r.top]] + View(Pull(r));
    }
  }

  // --- The life of the reference that pull returns -----------------------------------------

  /** The run's invariant inside the window: the array has not been replaced, `tail` has moved
      once per push, and the slot still holds its value. */
  lemma {:induction false} WindowInvariant<T>(rs: seq<Ring<T>>, ops: seq<Op<T>>, slot: nat, v: T, dflt: T)
    requires Run(rs, ops, dflt)
    requires slot < |rs[0].data| && rs[0].data[slot] == v
    requires rs[0].top == Wrap(slot + 1, |rs[0].data|)
    requires rs[0].curr + |Pushed(ops)| < |rs[0].data|
    ensures var c, k := |rs[0].data|, |Pushed(ops)|;
            && |rs[|ops|].data| == c
            && rs[|ops|].curr <= rs[0].curr + k
            && rs[|ops|].tail == Wrap(rs[0].tail + k, c)
            && rs[|ops|].data[slot] == v
    decreases |ops|
  {
    var c := |rs[0].data|;
    if ops == [] {
    } else {
      RunPrefix(rs, ops, dflt);
      var j := |ops| - 1;
      var k := |Pushed(ops[..j])|;
      WindowInvariant(rs[..|ops|], ops[..j], slot, v, dflt);
    }
  }

  /** The exact life of the reference.  After a pull from `r` leaves n elements in c slots, the
      slot keeps the pulled value, and the array is not replaced, through any run with fewer than
      c - n pushes; and the push that would be number c - n writes exactly that slot, still
      without growing. */
  lemma ReferenceLife<T>(r: Ring<T>, rs: seq<Ring<T>>, ops: seq<Op<T>>, x: T, dflt: T)
    requires Valid(r) && r.curr != 0
    requires Run(rs, ops, dflt) && rs[0] == Pull(r)
    requires |Pushed(ops)| < |r.data| - Pull(r).curr
    ensures var c, n, last := |r.data|, Pull(r).curr, rs[|ops|];
            && Valid(last)
            && |last.data| == c && !Full(last)
            && last.data[r.top] == r.data[r.top]
            && (last.tail == r.top <==> |Pushed(ops)| == c - n - 1)
            && Push(last, x, dflt).data
               == last.data[(if |Pushed(ops)| == c - n - 1 then r.top else last.tail) := x]
  {
    var c, k := |r.data|, |Pushed(ops)|;
    WindowInvariant(rs, ops, r.top, r.data[r.top], dflt);
    RunValid(rs, ops, dflt);
  }

  /** The window can be empty: pulling from a full buffer leaves a reference that the very next
      push overwrites. */
  lemma ReferenceDiesAtOnce<T>(r: Ring<T>, x: T, dflt: T)
    requires Valid(r) && Full(r)
    ensures Push(Pull(r), x, dflt).data == r.data[r.top := x]
  {
    assert MakeRoom(Pull(r), dflt) == Pull(r) && Pull(r).tail == r.top;
  }

  // --- Growth is amortised -----------------------------------------------------------------

  /** Elements that one operation copies into a new array. */
  function CopyCost<T>(r: Ring<T>, op: Op<T>): nat {
    if op.DoPush? && Full(r) then r.curr else 0
  }

  function Copied<T>(rs: seq<Ring<T>>, ops: seq<Op<T>>): nat
    requires |rs| == |ops| + 1
  {
    if ops == [] then 0
    else Copied(rs[..|ops|], ops[..|ops| - 1]) + CopyCost(rs[|ops| - 1], ops[|ops| - 1])
  }

  function Peak<T>(rs: seq<Ring<T>>): nat {
    if rs == [] then 0
    else
      var rest := Peak(rs[..|rs| - 1]);
      if rest < rs[|rs| - 1].curr then rs[|rs| - 1].curr else rest
  }

  ghost predicate PowerOfTwo(n: nat) {
    n == 1 || (n % 2 == 0 && 0 < n && PowerOfTwo(n / 2))
  }

  lemma {:induction false} PeakAtMost<T>(rs: seq<Ring<T>>, ops: seq<Op<T>>, dflt: T)
    requires Run(rs, ops, dflt) && rs[0] == Init(dflt)
    ensures rs[|ops|].curr <= Peak(rs) <= |Pushed(ops)|
    decreases |ops|
  {
    if ops != [] {
      RunPrefix(rs, ops, dflt);
      PeakAtMost(rs[..|ops|], ops[..|ops| - 1], dflt);
      CurrWithinPushes(rs, ops, dflt);
      assert rs[..|rs| - 1] == rs[..|ops|];
    }
  }

  lemma CurrWithinPushes<T>(rs: seq<Ring<T>>, ops: seq<Op<T>>, dflt: T)
    requires Run(rs, ops, dflt) && rs[0] == Init(dflt)
    ensures rs[|ops|].curr <= |Pushed(ops)|
  {
    FifoOverRuns(rs, ops, dflt);
    assert View(rs[0]) == [];
    assert |View(rs[|ops|])| <= |Pulled(rs, ops, dflt) + View(rs[|ops|])|;
  }

  /** Over every run from an empty buffer the size is a power of two, growing has copied exactly
      size - 1 elements, the size is within twice the peak occupancy, and so all copying together
      is below twice the number of pushes. */
  lemma {:induction false} GrowthIsAmortised<T>(rs: seq<Ring<T>>, ops: seq<Op<T>>, dflt: T)
    requires Run(rs, ops, dflt) && rs[0] == Init(dflt)
    ensures var size := |rs[|ops|].data|;
            && PowerOfTwo(size)
            && Copied(rs, ops) == size - 1
            && (size == 1 || size <= 2 * (Peak(rs) - 1))
            && Copied(rs, ops) <= 2 * |Pushed(ops)|
    decreases |ops|
  {
    if ops != [] {
      RunPrefix(rs, ops, dflt);
      var k := |ops| - 1;
      GrowthIsAmortised(rs[..|ops|], ops[..k], dflt);
      assert rs[..|rs| - 1] == rs[..|ops|];
      if ops[k].DoPush? && Full(rs[k]) {
        assert |rs[k + 1].data| == 2 * |rs[k].data|;
      }
    }
    PeakAtMost(rs, ops, dflt);
  }

  // --- The code ----------------------------------------------------------------------------

  class Queue<T> {
    var size: nat
    var currSize: nat
    var data: array<T>
    var top: nat
    var tail: nat
    const dflt: T  // what T() constructs
    ghost var copied: nat

    ghost predicate Ok()
      reads this, data
    {
      data.Length == size && Valid(Abs())
    }

    ghost function Abs(): Ring<T>
      reads this, data
    {
      Ring(data[..], top, tail, currSize)
    }

    ghost function Contents(): seq<T>
      requires Ok()
      reads this, data
    {
      View(Abs())
    }

    constructor (dflt: T)
      ensures Ok() && fresh(data) && this.dflt == dflt && copied == 0
      ensures Abs() == Init(dflt)
    {
      this.dflt := dflt;
      size := INIT_SIZE;
      data := new T[INIT_SIZE](_ => dflt);
      currSize, top, tail, copied := 0, 0, 0, 0;
    }

    method Resize() returns (newSize: nat)
      requires Ok() && currSize == size
      modifies this
      ensures Ok() && fresh(data)
      ensures Abs() == Grow(old(Abs()), dflt)
      ensures newSize == size == 2 * old(size)
      ensures copied == old(copied) + old(currSize)
    {
      var oldData := data;
      ghost var was := Abs();
      data := new T[size * 2](_ => dflt);
      var newI, oldI := 0, top;
      while newI < currSize
        invariant newI <= currSize == size && top < size && oldI == Wrap(top + newI, size)
        invariant data.Length == 2 * size && fresh(data) && data != oldData
        invariant size == old(size) && top == old(top) && currSize == old(currSize)
        invariant copied == old(copied) + newI
        invariant forall i :: 0 <= i < newI ==> data[i] == View(was)[i]
        invariant forall i :: newI <= i < data.Length ==> data[i] == dflt
      {
        assert View(was)[newI] == was.data[oldI] == oldData[oldI];
        data[newI] := oldData[oldI];
        newI, oldI := newI + 1, oldI + 1;
        WrapIsRemainder(oldI, size);
        oldI := oldI % size;
        copied := copied + 1;
      }
      top, tail := 0, newI;
      size := size * 2;
      assert data[..] == View(was) + seq(2 * |was.data| - was.curr, _ => dflt);
      return size;
    }

    method PushBack(x: T)
      requires Ok()
      modifies this, data
      ensures Ok() && (data == old(data) || fresh(data))
      ensures data == old(data) <==> old(currSize) < old(size)
      ensures Abs() == Push(old(Abs()), x, dflt)
      ensures Contents() == old(Contents()) + [x]
      ensures copied == old(copied) + CopyCost(old(Abs()), DoPush(x))
    {
      PushAppends(Abs(), x, dflt);
      if size == currSize {
        var _ := Resize();
      }
      ghost var g := Abs();
      data[tail] := x;
      tail := tail + 1;
      WrapIsRemainder(tail, size);
      tail := tail % size;
      currSize := currSize + 1;
      assert data[..] == g.data[g.tail := x];
    }

    /** The critical section of `pull` after its wait.  The reference it returns is a slot of the
        array that was current at the time. */
    method PullFront() returns (buffer: array<T>, slot: nat)
      requires Ok() && currSize != 0
      modifies this
      ensures Ok() && data == old(data) && data[..] == old(data[..])
      ensures Abs() == Pull(old(Abs()))
      ensures buffer == data && slot == old(top) && slot < buffer.Length
      ensures old(Contents()) == [buffer[slot]] + Contents()
      ensures copied == old(copied)
    {
      PullRemovesFront(Abs());
      buffer, slot := data, top;
      top := top + 1;
      WrapIsRemainder(top, size);
      top := top % size;
      currSize := currSize - 1;
    }
  }
}
