/**
 * Index arithmetic of a ring of `size` slots, shared by the two ring
 * buffers and their iterator: the successor `(i + 1) % size`, the
 * predecessor used as an iterator's stop index, and the walk of slots an
 * iterator visits.
 */
module RingIndex {

  /** `x % n` for `x` below `2 * n`. */
  lemma ModBelowTwice(x: int, n: int)
    requires n > 0 && 0 <= x < 2 * n
    ensures x % n == if x < n then x else x - n
  {
    var q, r := x / n, x % n;
    assert x == n * q + r && 0 <= r < n;
  }

  /** `(i + 1) % size`, for an index already in range. */
  function Succ(i: nat, size: nat): (r: nat)
    requires i < size
    ensures r < size
    ensures r == (i + 1) % size
  {
    ModBelowTwice(i + 1, size);
    if i + 1 == size then 0 else i + 1
  }

  /** `if i == 0 { size - 1 } else { i - 1 }`: the slot before `i`. */
  function Pred(i: nat, size: nat): (r: nat)
    requires i < size
    ensures r < size
    ensures Succ(r, size) == i
  {
    if i == 0 then size - 1 else i - 1
  }

  /** The slot reached from `i` after `k` calls of `Succ`. */
  function Advance(i: nat, k: nat, size: nat): (r: nat)
    requires i < size
    ensures r < size
  {
    if k == 0 then i else Succ(Advance(i, k - 1, size), size)
  }

  /** Each slot has exactly one predecessor: `Succ` is injective. */
  lemma SuccInjective(i: nat, j: nat, size: nat)
    requires i < size && j < size && Succ(i, size) == Succ(j, size)
    ensures i == j
  {
  }

  /** `k < size` successor steps from `i` land on `i + k`, wrapped once. */
  lemma {:induction false} AdvanceWraps(i: nat, k: nat, size: nat)
    requires i < size && k < size
    ensures Advance(i, k, size) == if i + k < size then i + k else i + k - size
  {
    if k > 0 {
      AdvanceWraps(i, k - 1, size);
    }
  }

  /** `size` successor steps, and no fewer, return to the starting slot. */
  lemma {:induction false} FullCycle(i: nat, size: nat)
    requires i < size
    ensures Advance(i, size, size) == i
    ensures forall k :: 0 < k < size ==> Advance(i, k, size) != i
  {
    AdvanceWraps(i, size - 1, size);
    forall k | 0 < k < size
      ensures Advance(i, k, size) != i
    {
      AdvanceWraps(i, k, size);
    }
  }

  /** The slots `start, Succ(start), ...` visited by `count` steps. */
  function Walk(start: nat, count: nat, size: nat): (w: seq<nat>)
    requires start < size
    ensures |w| == count
    decreases count
  {
    if count == 0 then [] else [start] + Walk(Succ(start, size), count - 1, size)
  }

  /** The number of `Succ` steps from `from` to `to`. */
  function Distance(from: nat, to: nat, size: nat): (d: nat)
    requires from < size && to < size
    ensures d < size
    ensures d == 0 <==> from == to
  {
    if from <= to then to - from else to + size - from
  }

  /** The `k`-th slot of a walk is `start + k`, wrapped once. */
  lemma {:induction false} WalkAt(start: nat, count: nat, size: nat, k: nat)
    requires start < size && count <= size && k < count
    ensures Walk(start, count, size)[k] == if start + k < size then start + k else start + k - size
    decreases k
  {
    if k > 0 {
      WalkAt(Succ(start, size), count - 1, size, k - 1);
    }
  }

  /**
   * A walk of `size - 1` steps from `start` visits every slot except the
   * one before `start`, each once, in wrap-around order.
   */
  lemma WalkAllButPred(start: nat, count: nat, size: nat)
    requires start < size && count == size - 1
    ensures Distance(start, Pred(start, size), size) == count
    ensures forall k :: 0 <= k < count ==> Walk(start, count, size)[k] != Pred(start, size)
    ensures forall j, k :: 0 <= j < k < count ==> Walk(start, count, size)[j] != Walk(start, count, size)[k]
    ensures forall i :: 0 <= i < size && i != Pred(start, size) ==>
              Distance(start, i, size) < count && Walk(start, count, size)[Distance(start, i, size)] == i
  {
    forall k | 0 <= k < count
      ensures Walk(start, count, size)[k] != Pred(start, size)
    {
      WalkAt(start, count, size, k);
    }
    forall j, k | 0 <= j < k < count
      ensures Walk(start, count, size)[j] != Walk(start, count, size)[k]
    {
      WalkAt(start, count, size, j);
      WalkAt(start, count, size, k);
    }
    forall i | 0 <= i < size && i != Pred(start, size)
      ensures Distance(start, i, size) < count && Walk(start, count, size)[Distance(start, i, size)] == i
    {
      WalkAt(start, count, size, Distance(start, i, size));
    }
  }

  /** Taking one step from `start` shortens the walk to `last` by its first slot. */
  lemma WalkStep(start: nat, last: nat, size: nat)
    requires start < size && last < size && start != last
    ensures Walk(start, Distance(start, last, size), size)[0] == start
    ensures Walk(Succ(start, size), Distance(Succ(start, size), last, size), size)
         == Walk(start, Distance(start, last, size), size)[1..]
  {
  }
}
