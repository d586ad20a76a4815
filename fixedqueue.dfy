/**
 * The fixed-size queue behind the moving averages
 * (src/technical-analysis/queue.js): `size` slots, first all the sentinel
 * -1; a push appends a value and drops the oldest slot, and the queue is
 * ready once the oldest slot no longer holds the sentinel.
 */
module FixedQueue {
  import opened JsNumber

  /** The value the slots start with, which `push` reads as "not filled yet". */
  const Sentinel: real := -1.0

  /** `new Array(size).fill(-1)`. */
  function Filled(size: nat): (q: seq<real>)
    ensures |q| == size && forall i :: 0 <= i < size ==> q[i] == Sentinel
  {
    seq(size, _ => Sentinel)
  }

  /** The slots after `push(v)`: `v` appended, the oldest slot shifted out. */
  function Pushed(q: seq<real>, v: real): seq<real>
  {
    (q + [v])[1..]
  }

  /**
   * What `push` answers: `q[0] != -1`.  On a queue of size 0 the slot is
   * `undefined`, which differs from -1.
   */
  predicate Ready(q: seq<real>)
  {
    |q| == 0 || q[0] != Sentinel
  }

  /** The sum a left-to-right `reduce((p, c) => p + c)` computes. */
  function Sum(q: seq<real>): real
  {
    if q == [] then 0.0 else Sum(q[..|q| - 1]) + q[|q| - 1]
  }

  /**
   * `calc()`: the mean of the slots.  `reduce` without a start value throws
   * on an empty array, so a queue of size 0 has no mean.
   */
  function Mean(q: seq<real>): (r: Option<real>)
    ensures r.None? <==> |q| == 0
  {
    if |q| == 0 then None else Some(Sum(q) / |q| as real)
  }

  /** The slots after pushing every value of `vs` in order. */
  function PushAll(q: seq<real>, vs: seq<real>): seq<real>
    decreases |vs|
  {
    if vs == [] then q else PushAll(Pushed(q, vs[0]), vs[1..])
  }

  class Queue {
    /** The slots, oldest first. */
    var q: seq<real>

    /** `new Queue(size)`: `size` slots holding the sentinel. */
    constructor (size: nat)
      ensures q == Filled(size)
    {
      q := Filled(size);
    }

    method Push(v: real) returns (ready: bool)
      modifies this
      ensures q == Pushed(old(q), v)
      ensures ready == Ready(q)
    {
      q := q + [v];
      q := q[1..];
      ready := |q| == 0 || q[0] != Sentinel;
    }

    /** `calc()`. */
    function Calc(): Option<real>
      reads this
    {
      Mean(q)
    }
  }

  /** `push` keeps the number of slots. */
  lemma PushedLength(q: seq<real>, v: real)
    ensures |Pushed(q, v)| == |q|
  {
  }

  /** `push` is first-in first-out: the oldest slot leaves, `v` becomes the newest. */
  lemma PushedFifo(q: seq<real>, v: real)
    requires 0 < |q|
    ensures Pushed(q, v) == q[1..] + [v]
    ensures Pushed(q, v)[|q| - 1] == v
  {
  }

  /** Pushing into a queue drops its oldest slots and keeps the newest values. */
  lemma {:induction false} PushAllShifts(q: seq<real>, vs: seq<real>)
    ensures PushAll(q, vs) == (q + vs)[|vs|..]
    decreases |vs|
  {
    if vs != [] {
      PushAllShifts(Pushed(q, vs[0]), vs[1..]);
      assert (q + [vs[0]])[1..] + vs[1..] == (q + vs)[1..];
      assert ((q + vs)[1..])[|vs| - 1..] == (q + vs)[|vs|..];
    }
  }

  /**
   * Pushing `vs`, none of them -1, into a fresh queue of `size > 0` slots:
   * the push that made it `|vs|` pushes answers true exactly when
   * `|vs| >= size` — false for the first `size - 1` pushes, true from push
   * `size` on.
   */
  lemma ReadyAfter(size: nat, vs: seq<real>)
    requires 0 < size && 0 < |vs|
    requires forall i :: 0 <= i < |vs| ==> vs[i] != Sentinel
    ensures |PushAll(Filled(size), vs)| == size
    ensures Ready(PushAll(Filled(size), vs)) <==> size <= |vs|
  {
    var start := Filled(size);
    PushAllShifts(start, vs);
    var r := (start + vs)[|vs|..];
    assert |r| == size;
    if |vs| < size {
      assert r[0] == start[|vs|];
    } else {
      assert r[0] == vs[|vs| - size];
    }
  }

  /** Once `size > 0` values have been pushed, the slots hold the last `size` of them. */
  lemma KeepsLast(size: nat, vs: seq<real>)
    requires 0 < size <= |vs|
    ensures PushAll(Filled(size), vs) == vs[|vs| - size..]
  {
    PushAllShifts(Filled(size), vs);
    DropPast(Filled(size), vs, |vs|);
  }

  /** Once `size > 0` values have been pushed, `calc` is the mean of the last `size` of them. */
  lemma MeanOfLast(size: nat, vs: seq<real>)
    requires 0 < size <= |vs|
    ensures Mean(PushAll(Filled(size), vs)) == Some(Sum(vs[|vs| - size..]) / size as real)
  {
    KeepsLast(size, vs);
  }

  lemma MeanOf(q: seq<real>)
    requires 0 < |q|
    ensures Mean(q) == Some(Sum(q) / |q| as real)
  {
  }

  lemma DropPast(a: seq<real>, b: seq<real>, k: int)
    requires |a| <= k <= |a| + |b|
    ensures (a + b)[k..] == b[k - |a|..]
  {
  }

  /** Pushing 1, 2 and 3 into a queue of size 3 makes it ready with mean 2. */
  lemma MeanExample()
    ensures Ready(PushAll(Filled(3), [1.0, 2.0, 3.0]))
    ensures Mean(PushAll(Filled(3), [1.0, 2.0, 3.0])) == Some(2.0)
  {
    PushAllShifts(Filled(3), [1.0, 2.0, 3.0]);
    var r := PushAll(Filled(3), [1.0, 2.0, 3.0]);
    assert r == [1.0, 2.0, 3.0];
    assert Sum(r) == 6.0 by {
      assert r[..2] == [1.0, 2.0];
      assert r[..2][..1] == [1.0];
      assert [1.0][..0] == [];
    }
  }
}
