/**
 * Vertical flip of a row-major image, as the heightmap loaders do it:
 * split the samples at half their count, cut both halves into chunks of
 * one row width, pair the top chunks with the bottom chunks taken in
 * reverse order, and swap the paired elements. The swaps are described
 * as a list of run pairs (a run at the top exchanged element by element
 * with a run of the same length further down); the runs are disjoint, so
 * the order the parallel iterators run the swaps in does not matter.
 */
module RowFlip {
  import opened Wrappers
  import opened RowMajor

  /** Some row of width `w` holds position `i`. */
  lemma {:induction false} RowExists(i: nat, w: nat)
    requires w > 0
    ensures exists r: nat :: Area(r, w) <= i < Area(r, w) + w
    decreases i
  {
    if i < w {
      assert Area(0, w) <= i < Area(0, w) + w;
    } else {
      RowExists(i - w, w);
      var r: nat :| Area(r, w) <= i - w < Area(r, w) + w;
      assert Area(r + 1, w) <= i < Area(r + 1, w) + w;
    }
  }

  /** At most one row holds a position. */
  lemma RowUnique(r: nat, q: nat, i: nat, w: nat)
    requires Area(r, w) <= i < Area(r, w) + w && Area(q, w) <= i < Area(q, w) + w
    ensures r == q
  {
    if r < q {
      AreaGap(r, q, w);
    } else if q < r {
      AreaGap(q, r, w);
    }
  }

  /** The row of width `w` that position `i` falls in. */
  ghost function ChunkOf(i: nat, w: nat): (r: nat)
    requires w > 0
    ensures Area(r, w) <= i < Area(r, w) + w
  {
    RowExists(i, w);
    var r: nat :| Area(r, w) <= i < Area(r, w) + w; r
  }

  lemma ChunkOfAt(r: nat, c: nat, w: nat)
    requires c < w
    ensures ChunkOf(At(r, c, w), w) == r
  {
    RowUnique(ChunkOf(At(r, c, w), w), r, At(r, c, w), w);
  }

  /** Column of position `i`. */
  ghost function Offset(i: nat, w: nat): (c: nat)
    requires w > 0
    ensures c < w && i == At(ChunkOf(i, w), c, w)
  {
    i - Area(ChunkOf(i, w), w)
  }

  lemma OffsetAt(r: nat, c: nat, w: nat)
    requires c < w
    ensures Offset(At(r, c, w), w) == c
  {
    ChunkOfAt(r, c, w);
  }

  lemma AtBelow(r: nat, c: nat, w: nat, rows: nat)
    requires c < w && r < rows
    ensures At(r, c, w) < Area(rows, w)
  {
    AreaMono(r + 1, rows, w);
  }

  lemma RowBelow(i: nat, w: nat, rows: nat)
    requires w > 0 && i < Area(rows, w)
    ensures ChunkOf(i, w) < rows
  {
    if ChunkOf(i, w) >= rows {
      AreaMono(rows, ChunkOf(i, w), w);
    }
  }

  // ---------------------------------------------------------------
  // The swaps `flip_image_vertical` performs
  // ---------------------------------------------------------------

  function Min(a: int, b: int): int
  {
    if a < b then a else b
  }

  /** Number of chunks of at most `w` samples that `a` samples split into; the last may be short. */
  function Chunks(a: nat, w: nat): nat
    requires w > 0
    decreases a
  {
    if a == 0 then 0 else 1 + Chunks(a - Min(a, w), w)
  }

  lemma {:induction false} ChunkStart(a: nat, w: nat, t: nat)
    requires w > 0 && t < Chunks(a, w)
    ensures Area(t, w) < a
    decreases a
  {
    if t > 0 {
      ChunkStart(a - Min(a, w), w, t - 1);
    }
  }

  lemma {:induction false} ChunksOfRows(q: nat, w: nat)
    requires w > 0
    ensures Chunks(Area(q, w), w) == q
  {
    if q > 0 {
      ChunksOfRows(q - 1, w);
      AreaMono(1, q, w);
    }
  }

  /** Chunks of the top half, the first `len / 2` samples. */
  function TopChunks(len: nat, w: nat): nat
    requires w > 0
  {
    Chunks(len / 2, w)
  }

  /** Chunks of the bottom half, the remaining samples. */
  function BottomChunks(len: nat, w: nat): nat
    requires w > 0
  {
    Chunks(len - len / 2, w)
  }

  /** The zipped chunk iterators stop with the shorter of the two. */
  function PairCount(len: nat, w: nat): nat
    requires w > 0
  {
    Min(TopChunks(len, w), BottomChunks(len, w))
  }

  /** Start of the bottom chunk paired with top chunk `t`: the bottom chunks are taken in reverse. */
  function BottomStart(len: nat, w: nat, t: nat): (start: nat)
    requires w > 0 && t < BottomChunks(len, w)
    ensures len / 2 <= start < len
  {
    ChunkStart(len - len / 2, w, BottomChunks(len, w) - 1 - t);
    len / 2 + Area(BottomChunks(len, w) - 1 - t, w)
  }

  /** Elements swapped between top chunk `t` and its partner: the shorter chunk's length. */
  function PairLen(len: nat, w: nat, t: nat): (m: int)
    requires w > 0 && t < PairCount(len, w)
    ensures 0 < m <= w
    ensures Area(t, w) + m <= len / 2 && BottomStart(len, w, t) + m <= len
  {
    ChunkStart(len / 2, w, t);
    Min(Min(w, len / 2 - Area(t, w)), Min(w, len - BottomStart(len, w, t)))
  }

  lemma ChunkBounds(len: nat, w: nat, t: nat)
    requires w > 0 && t < PairCount(len, w)
    ensures Area(t, w) < len / 2 <= BottomStart(len, w, t) < len
    ensures 0 < PairLen(len, w, t) <= w
    ensures Area(t, w) + PairLen(len, w, t) <= len / 2
    ensures BottomStart(len, w, t) + PairLen(len, w, t) <= len
  {
    ChunkStart(len / 2, w, t);
    ChunkStart(len - len / 2, w, BottomChunks(len, w) - 1 - t);
  }

  // ---------------------------------------------------------------
  // Swapping a list of run pairs
  // ---------------------------------------------------------------

  /** Two equally long runs to exchange: `[top, top + size)` with `[bottom, bottom + size)`. */
  datatype RunPair = RunPair(top: nat, bottom: nat, size: nat)

  /** Position of column `k` of the first run. */
  function TopAt(p: RunPair, k: nat): nat
  {
    p.top + k
  }

  /** Position of column `k` of the second run. */
  function BottomAt(p: RunPair, k: nat): nat
  {
    p.bottom + k
  }

  /**
   * The pairs are nested inside a sequence of `len` samples: each first
   * run ends before its second run starts, and each later pair lies
   * between the two runs of every earlier pair. No two runs overlap.
   */
  ghost predicate Nested(ps: seq<RunPair>, len: nat)
  {
    (forall t :: 0 <= t < |ps| ==> ps[t].top + ps[t].size <= ps[t].bottom && ps[t].bottom + ps[t].size <= len)
    && (forall u, t :: 0 <= u < t < |ps| ==>
          ps[u].top + ps[u].size <= ps[t].top && ps[t].bottom + ps[t].size <= ps[u].bottom)
  }

  /** Whether position `i` lies in a run of one of the first `n` pairs. */
  ghost predicate InRuns(ps: seq<RunPair>, n: nat, i: nat)
    requires n <= |ps|
  {
    exists t: nat, k: nat :: t < n && k < ps[t].size && (i == TopAt(ps[t], k) || i == BottomAt(ps[t], k))
  }

  /** Each of the first `n` pairs has its two runs exchanged between `s` and `r`. */
  ghost predicate PairsSwapped<T>(s: seq<T>, r: seq<T>, ps: seq<RunPair>, n: nat)
    requires n <= |ps| && Nested(ps, |s|) && |r| == |s|
  {
    forall t: nat, k: nat :: t < n && k < ps[t].size ==>
      r[TopAt(ps[t], k)] == s[BottomAt(ps[t], k)] && r[BottomAt(ps[t], k)] == s[TopAt(ps[t], k)]
  }

  /** Every position outside the runs of the first `n` pairs keeps its sample. */
  ghost predicate RestKept<T>(s: seq<T>, r: seq<T>, ps: seq<RunPair>, n: nat)
    requires n <= |ps| && |r| == |s|
  {
    forall i :: 0 <= i < |s| && !InRuns(ps, n, i) ==> r[i] == s[i]
  }

  /**
   * `r` is `s` with the runs of the first `n` pairs exchanged: each first
   * run holds the samples of its second run and the other way round, and
   * every position outside those runs keeps its sample.
   */
  ghost predicate SwappedFirst<T>(s: seq<T>, r: seq<T>, ps: seq<RunPair>, n: nat)
  {
    n <= |ps| && Nested(ps, |s|) && |r| == |s| && PairsSwapped(s, r, ps, n) && RestKept(s, r, ps, n)
  }

  /** Exchanging all pairs twice gives back the samples. */
  lemma SwapTwice<T>(s: seq<T>, r: seq<T>, q: seq<T>, ps: seq<RunPair>)
    requires SwappedFirst(s, r, ps, |ps|) && SwappedFirst(r, q, ps, |ps|)
    ensures q == s
  {
    forall i | 0 <= i < |s|
      ensures q[i] == s[i]
    {
      if InRuns(ps, |ps|, i) {
        var t: nat, k: nat :| t < |ps| && k < ps[t].size && (i == TopAt(ps[t], k) || i == BottomAt(ps[t], k));
        assert q[TopAt(ps[t], k)] == r[BottomAt(ps[t], k)];
        assert q[BottomAt(ps[t], k)] == r[TopAt(ps[t], k)];
      }
    }
  }

  /** Exchanging all pairs has one outcome. */
  lemma SwapUnique<T>(s: seq<T>, r: seq<T>, q: seq<T>, ps: seq<RunPair>)
    requires SwappedFirst(s, r, ps, |ps|) && SwappedFirst(s, q, ps, |ps|)
    ensures r == q
  {
    forall i | 0 <= i < |s|
      ensures r[i] == q[i]
    {
      if InRuns(ps, |ps|, i) {
        var t: nat, k: nat :| t < |ps| && k < ps[t].size && (i == TopAt(ps[t], k) || i == BottomAt(ps[t], k));
        assert r[TopAt(ps[t], k)] == q[TopAt(ps[t], k)];
        assert r[BottomAt(ps[t], k)] == q[BottomAt(ps[t], k)];
      }
    }
  }

  /** `b` is `a` with the runs `[top, top + m)` and `[bottom, bottom + m)` exchanged. */
  ghost predicate RunsExchanged<T>(a: seq<T>, b: seq<T>, top: nat, bottom: nat, m: nat)
    requires top + m <= bottom && bottom + m <= |a|
  {
    |b| == |a|
    && (forall i :: top <= i < top + m ==> b[i] == a[i - top + bottom])
    && (forall i :: bottom <= i < bottom + m ==> b[i] == a[i - bottom + top])
    && (forall i :: 0 <= i < |a| && !(top <= i < top + m) && !(bottom <= i < bottom + m) ==> b[i] == a[i])
  }

  /** Exchange the samples at positions `i` and `j`. */
  method Exchange<T>(data: array<T>, i: nat, j: nat)
    requires i < j < data.Length
    modifies data
    ensures data[..] == old(data[..])[i := old(data[j])][j := old(data[i])]
    ensures multiset(data[..]) == multiset(old(data[..]))
  {
    data[i], data[j] := data[j], data[i];
  }

  /**
   * Swap two equally long runs of samples element by element, as the
   * zipped row iterators do.
   */
  method SwapRuns<T>(data: array<T>, top: nat, bottom: nat, m: nat)
    requires top + m <= bottom && bottom + m <= data.Length
    modifies data
    ensures RunsExchanged(old(data[..]), data[..], top, bottom, m)
    ensures multiset(data[..]) == multiset(old(data[..]))
  {
    var k := 0;
    while k < m
      invariant 0 <= k <= m
      invariant RunsExchanged(old(data[..]), data[..], top, bottom, k)
      invariant multiset(data[..]) == multiset(old(data[..]))
    {
      Exchange(data, top + k, bottom + k);
      k := k + 1;
    }
  }

  /** After exchanging pair `t`, its runs hold each other's original samples and earlier pairs stay exchanged. */
  lemma StepPairs<T>(s: seq<T>, a: seq<T>, b: seq<T>, ps: seq<RunPair>, t: nat)
    requires t < |ps| && Nested(ps, |s|) && |a| == |s|
    requires PairsSwapped(s, a, ps, t) && RestKept(s, a, ps, t)
    requires RunsExchanged(a, b, ps[t].top, ps[t].bottom, ps[t].size)
    ensures PairsSwapped(s, b, ps, t + 1)
  {
    var p := ps[t];
    forall k: nat | k < p.size
      ensures !InRuns(ps, t, TopAt(p, k)) && !InRuns(ps, t, BottomAt(p, k))
    {
    }
  }

  /** After exchanging pair `t`, positions outside the first `t + 1` pairs still hold their samples. */
  lemma StepRest<T>(s: seq<T>, a: seq<T>, b: seq<T>, ps: seq<RunPair>, t: nat)
    requires t < |ps| && Nested(ps, |s|) && |a| == |s| && RestKept(s, a, ps, t)
    requires RunsExchanged(a, b, ps[t].top, ps[t].bottom, ps[t].size)
    ensures RestKept(s, b, ps, t + 1)
  {
    var p := ps[t];
    forall i | 0 <= i < |s|
      ensures !InRuns(ps, t + 1, i) ==> b[i] == s[i]
    {
      if p.top <= i < p.top + p.size {
        assert i == TopAt(p, i - p.top);
      } else if p.bottom <= i < p.bottom + p.size {
        assert i == BottomAt(p, i - p.bottom);
      }
    }
  }

  /** Exchange the runs of every pair, pair after pair. */
  method SwapPairs<T>(data: array<T>, ps: seq<RunPair>)
    requires Nested(ps, data.Length)
    modifies data
    ensures SwappedFirst(old(data[..]), data[..], ps, |ps|)
    ensures multiset(data[..]) == multiset(old(data[..]))
  {
    var t := 0;
    while t < |ps|
      invariant t <= |ps|
      invariant SwappedFirst(old(data[..]), data[..], ps, t)
      invariant multiset(data[..]) == multiset(old(data[..]))
    {
      ghost var prev := data[..];
      SwapRuns(data, ps[t].top, ps[t].bottom, ps[t].size);
      StepPairs(old(data[..]), prev, data[..], ps, t);
      StepRest(old(data[..]), prev, data[..], ps, t);
      t := t + 1;
    }
  }

  // ---------------------------------------------------------------
  // The pairs `flip_image_vertical` swaps
  // ---------------------------------------------------------------

  lemma BottomStartAt(len: nat, w: nat, t: nat)
    requires w > 0 && t < BottomChunks(len, w)
    ensures BottomStart(len, w, t) == len / 2 + Area(BottomChunks(len, w) - 1 - t, w)
  {
  }

  /** The bottom chunk of a later pair ends before the bottom chunk of an earlier pair starts. */
  lemma BottomChunksApart(len: nat, w: nat, u: nat, t: nat)
    requires w > 0 && u < t < BottomChunks(len, w)
    ensures BottomStart(len, w, t) + w <= BottomStart(len, w, u)
  {
    var n := BottomChunks(len, w);
    BottomStartAt(len, w, t);
    BottomStartAt(len, w, u);
    AreaGap(n - 1 - t, n - 1 - u, w);
  }

  /** Runs of a later pair lie after the top run and before the bottom run of an earlier pair. */
  lemma PairsApart(len: nat, w: nat, u: nat, t: nat)
    requires w > 0 && u < t < PairCount(len, w)
    ensures Area(u, w) + PairLen(len, w, u) <= Area(t, w)
    ensures BottomStart(len, w, t) + PairLen(len, w, t) <= BottomStart(len, w, u)
  {
    AreaGap(u, t, w);
    BottomChunksApart(len, w, u, t);
  }

  /** The chunk pairs `flip_image_vertical` swaps, in the order the zipped chunk iterators yield them. */
  function FlipPairs(len: nat, w: nat): seq<RunPair>
    requires w > 0
  {
    seq(PairCount(len, w), t requires 0 <= t < PairCount(len, w) =>
      RunPair(Area(t, w), BottomStart(len, w, t), PairLen(len, w, t)))
  }

  lemma FlipPairAt(len: nat, w: nat, t: nat)
    requires w > 0 && t < PairCount(len, w)
    ensures |FlipPairs(len, w)| == PairCount(len, w)
    ensures FlipPairs(len, w)[t] == RunPair(Area(t, w), BottomStart(len, w, t), PairLen(len, w, t))
  {
  }

  lemma FlipPairsNested(len: nat, w: nat)
    requires w > 0
    ensures Nested(FlipPairs(len, w), len)
  {
    var ps := FlipPairs(len, w);
    forall t | 0 <= t < |ps|
      ensures ps[t].top + ps[t].size <= ps[t].bottom && ps[t].bottom + ps[t].size <= len
    {
      ChunkBounds(len, w, t);
    }
    forall u, t | 0 <= u < t < |ps|
      ensures ps[u].top + ps[u].size <= ps[t].top && ps[t].bottom + ps[t].size <= ps[u].bottom
    {
      PairsApart(len, w, u, t);
    }
  }

  /** `r` is what `flip_image_vertical` makes of `s` with chunks of width `w`. */
  ghost predicate IsFlip<T>(s: seq<T>, r: seq<T>, w: nat)
    requires w > 0
  {
    SwappedFirst(s, r, FlipPairs(|s|, w), PairCount(|s|, w))
  }

  /** Flipping twice gives back the samples. */
  lemma FlipTwice<T>(s: seq<T>, r: seq<T>, q: seq<T>, w: nat)
    requires w > 0 && IsFlip(s, r, w) && IsFlip(r, q, w)
    ensures q == s
  {
    SwapTwice(s, r, q, FlipPairs(|s|, w));
  }

  /**
   * `flip_image_vertical` on a mutable slice. The chunk iterators panic
   * when the chunk size is zero.
   */
  method FlipInPlace<T>(data: array<T>, width: nat) returns (outcome: Run<Unit>)
    modifies data
    ensures outcome.Panics? <==> width == 0
    ensures outcome.Panics? ==> data[..] == old(data[..])
    ensures outcome.Returns? ==> IsFlip(old(data[..]), data[..], width)
    ensures multiset(data[..]) == multiset(old(data[..]))
  {
    if width == 0 {
      return Panics("chunk_size must not be zero");
    }
    FlipPairsNested(data.Length, width);
    SwapPairs(data, FlipPairs(data.Length, width));
    outcome := Returns(Unit);
  }

  // ---------------------------------------------------------------
  // A row mirror: row r exchanged with row rows-1-r
  // ---------------------------------------------------------------

  /** The position whose sample a row mirror moves to position `i`: same column, mirrored row. */
  ghost function MirrorSource(rows: nat, w: nat, i: nat): (src: nat)
    requires w > 0 && i < Area(rows, w)
    ensures src < Area(rows, w)
  {
    RowBelow(i, w, rows);
    AtBelow(rows - 1 - ChunkOf(i, w), Offset(i, w), w, rows);
    At(rows - 1 - ChunkOf(i, w), Offset(i, w), w)
  }

  /** The samples after mirroring the rows; a middle row stays in place. */
  ghost function Mirrored<T>(s: seq<T>, rows: nat, w: nat): (r: seq<T>)
    requires w > 0 && |s| == Area(rows, w)
    ensures |r| == |s|
  {
    seq(|s|, i requires 0 <= i < |s| => s[MirrorSource(rows, w, i)])
  }

  /** The sample at row `r`, column `c`. */
  ghost function Cell<T>(s: seq<T>, rows: nat, w: nat, r: nat, c: nat): T
    requires |s| == Area(rows, w) && r < rows && c < w
  {
    AtBelow(r, c, w, rows);
    s[At(r, c, w)]
  }

  /** Mirroring puts row `rows - 1 - r` where row `r` was, column by column. */
  lemma MirroredRows<T>(s: seq<T>, rows: nat, w: nat)
    requires w > 0 && |s| == Area(rows, w)
    ensures forall r: nat, c: nat :: r < rows && c < w ==>
              Cell(Mirrored(s, rows, w), rows, w, r, c) == Cell(s, rows, w, rows - 1 - r, c)
  {
    forall r: nat, c: nat | r < rows && c < w
      ensures Cell(Mirrored(s, rows, w), rows, w, r, c) == Cell(s, rows, w, rows - 1 - r, c)
    {
      AtBelow(r, c, w, rows);
      ChunkOfAt(r, c, w);
      OffsetAt(r, c, w);
    }
  }

  /** The mirror of the mirror of a position is the position itself. */
  lemma MirrorSourceInvolution(rows: nat, w: nat, i: nat)
    requires w > 0 && i < Area(rows, w)
    ensures MirrorSource(rows, w, MirrorSource(rows, w, i)) == i
  {
    var r, c := ChunkOf(i, w), Offset(i, w);
    MirrorSourceAt(rows, w, i);
    var j := MirrorSource(rows, w, i);
    ChunkOfAt(rows - 1 - r, c, w);
    OffsetAt(rows - 1 - r, c, w);
    MirrorSourceAt(rows, w, j);
  }

  /** Mirroring twice gives back the image. */
  lemma MirrorInvolution<T>(s: seq<T>, rows: nat, w: nat)
    requires w > 0 && |s| == Area(rows, w)
    ensures Mirrored(Mirrored(s, rows, w), rows, w) == s
  {
    forall i | 0 <= i < |s|
      ensures Mirrored(Mirrored(s, rows, w), rows, w)[i] == s[i]
    {
      MirrorSourceInvolution(rows, w, i);
    }
  }

  /** With an even number of rows the split at half the samples falls on a row boundary. */
  lemma EvenSplit(rows: nat, w: nat)
    requires w > 0 && rows % 2 == 0
    ensures Area(rows, w) / 2 == Area(rows / 2, w)
    ensures BottomChunks(Area(rows, w), w) == rows / 2
    ensures PairCount(Area(rows, w), w) == rows / 2
  {
    AreaAdd(rows / 2, rows / 2, w);
    ChunksOfRows(rows / 2, w);
  }

  /** With an even number of rows, chunk pair `t` is row `t` with row `rows - 1 - t`, all `w` columns. */
  lemma EvenPair(rows: nat, w: nat, t: nat)
    requires w > 0 && rows % 2 == 0 && t < rows / 2
    ensures t < PairCount(Area(rows, w), w)
    ensures PairLen(Area(rows, w), w, t) == w
    ensures BottomStart(Area(rows, w), w, t) == Area(rows - 1 - t, w)
  {
    var q := rows / 2;
    EvenSplit(rows, w);
    AreaGap(t, q, w);
    AreaAdd(q, q - 1 - t, w);
    AreaGap(rows - 1 - t, rows, w);
  }

  /** Row `t` paired with row `rows - 1 - t`, for the rows above the middle. */
  function RowPairs(rows: nat, w: nat): seq<RunPair>
  {
    seq(rows / 2, t requires 0 <= t < rows / 2 => RunPair(Area(t, w), Area(rows - 1 - t, w), w))
  }

  lemma RowPairAt(rows: nat, w: nat, t: nat)
    requires t < rows / 2
    ensures |RowPairs(rows, w)| == rows / 2
    ensures RowPairs(rows, w)[t] == RunPair(Area(t, w), Area(rows - 1 - t, w), w)
  {
  }

  /** Rows `t` and `rows - 1 - t` lie in order, without overlap, inside the image. */
  lemma RowPairBounds(rows: nat, w: nat, t: nat)
    requires t < rows / 2
    ensures Area(t, w) + w <= Area(rows - 1 - t, w)
    ensures Area(rows - 1 - t, w) + w <= Area(rows, w)
  {
    AreaGap(t, rows - 1 - t, w);
    AreaGap(rows - 1 - t, rows, w);
  }

  /** A later row pair lies between the two rows of an earlier one. */
  lemma RowPairsApart(rows: nat, w: nat, u: nat, t: nat)
    requires u < t < rows / 2
    ensures Area(u, w) + w <= Area(t, w)
    ensures Area(rows - 1 - t, w) + w <= Area(rows - 1 - u, w)
  {
    AreaGap(u, t, w);
    AreaGap(rows - 1 - t, rows - 1 - u, w);
  }

  lemma RowPairsNested(rows: nat, w: nat)
    ensures Nested(RowPairs(rows, w), Area(rows, w))
  {
    var ps := RowPairs(rows, w);
    forall t | 0 <= t < |ps|
      ensures ps[t].top + ps[t].size <= ps[t].bottom && ps[t].bottom + ps[t].size <= Area(rows, w)
    {
      RowPairAt(rows, w, t);
      RowPairBounds(rows, w, t);
    }
    forall u, t | 0 <= u < t < |ps|
      ensures ps[u].top + ps[u].size <= ps[t].top && ps[t].bottom + ps[t].size <= ps[u].bottom
    {
      RowPairAt(rows, w, u);
      RowPairAt(rows, w, t);
      RowPairsApart(rows, w, u, t);
    }
  }

  lemma MirrorSourceAt(rows: nat, w: nat, i: nat)
    requires w > 0 && i < Area(rows, w)
    ensures ChunkOf(i, w) < rows && MirrorSource(rows, w, i) == Area(rows - 1 - ChunkOf(i, w), w) + Offset(i, w)
  {
    RowBelow(i, w, rows);
  }

  /** A position in a row above the middle lies in the first run of its row pair; its mirror in the second. */
  lemma MirrorUpper(rows: nat, w: nat, i: nat)
    requires w > 0 && i < Area(rows, w) && ChunkOf(i, w) < rows / 2
    ensures var p := RowPairs(rows, w)[ChunkOf(i, w)];
            i == TopAt(p, Offset(i, w)) && MirrorSource(rows, w, i) == BottomAt(p, Offset(i, w))
  {
    var row, c := ChunkOf(i, w), Offset(i, w);
    RowPairAt(rows, w, row);
    assert i == Area(row, w) + c;
    MirrorSourceAt(rows, w, i);
  }

  /** A position in a row below the middle lies in the second run of its row pair; its mirror in the first. */
  lemma MirrorLower(rows: nat, w: nat, i: nat)
    requires w > 0 && i < Area(rows, w) && ChunkOf(i, w) < rows && rows - 1 - ChunkOf(i, w) < rows / 2
    ensures var p := RowPairs(rows, w)[rows - 1 - ChunkOf(i, w)];
            i == BottomAt(p, Offset(i, w)) && MirrorSource(rows, w, i) == TopAt(p, Offset(i, w))
  {
    var row, c := ChunkOf(i, w), Offset(i, w);
    var u := rows - 1 - row;
    RowPairAt(rows, w, u);
    assert rows - 1 - u == row;
    assert i == Area(row, w) + c;
    MirrorSourceAt(rows, w, i);
  }

  /** A position in the middle row of an odd number of rows is its own mirror and lies in no row pair. */
  lemma MirrorMiddle(rows: nat, w: nat, i: nat)
    requires w > 0 && i < Area(rows, w)
    requires rows / 2 <= ChunkOf(i, w) < rows && rows / 2 <= rows - 1 - ChunkOf(i, w)
    ensures MirrorSource(rows, w, i) == i && !InRuns(RowPairs(rows, w), rows / 2, i)
  {
    var ps, row := RowPairs(rows, w), ChunkOf(i, w);
    forall u | 0 <= u < rows / 2
      ensures ps[u].top + ps[u].size <= Area(row, w) && Area(row, w) + w <= ps[u].bottom
    {
      RowPairAt(rows, w, u);
      AreaGap(u, row, w);
      AreaGap(row, rows - 1 - u, w);
    }
  }

  /** Exchanging every row above the middle with its mirror row is the row mirror. */
  lemma RowSwapIsMirror<T>(s: seq<T>, r: seq<T>, rows: nat, w: nat)
    requires w > 0 && |s| == Area(rows, w) && SwappedFirst(s, r, RowPairs(rows, w), rows / 2)
    ensures r == Mirrored(s, rows, w)
  {
    forall i | 0 <= i < |s|
      ensures r[i] == Mirrored(s, rows, w)[i]
    {
      RowBelow(i, w, rows);
      if ChunkOf(i, w) < rows / 2 {
        MirrorUpper(rows, w, i);
      } else if rows - 1 - ChunkOf(i, w) < rows / 2 {
        MirrorLower(rows, w, i);
      } else {
        MirrorMiddle(rows, w, i);
      }
    }
  }

  /**
   * The evident intent of the flip: mirror the rows of an image of
   * `rows` rows of width `width`, leaving a middle row in place.
   */
  method MirrorRowsInPlace<T>(data: array<T>, rows: nat, width: nat)
    requires width > 0 && data.Length == Area(rows, width)
    modifies data
    ensures data[..] == Mirrored(old(data[..]), rows, width)
    ensures multiset(data[..]) == multiset(old(data[..]))
  {
    RowPairsNested(rows, width);
    SwapPairs(data, RowPairs(rows, width));
    RowSwapIsMirror(old(data[..]), data[..], rows, width);
  }

  /** With an even number of rows the chunk pairs of the flip are exactly the mirrored row pairs. */
  lemma EvenPairsAreRows(rows: nat, w: nat)
    requires w > 0 && rows % 2 == 0
    ensures FlipPairs(Area(rows, w), w) == RowPairs(rows, w)
  {
    EvenSplit(rows, w);
    var fs, rs := FlipPairs(Area(rows, w), w), RowPairs(rows, w);
    forall t | 0 <= t < rows / 2
      ensures fs[t] == rs[t]
    {
      EvenPair(rows, w, t);
      FlipPairAt(Area(rows, w), w, t);
      RowPairAt(rows, w, t);
    }
  }

  /** With an even number of rows `flip_image_vertical` is the row mirror. */
  lemma EvenFlipIsMirror<T>(s: seq<T>, r: seq<T>, rows: nat, w: nat)
    requires w > 0 && |s| == Area(rows, w) && rows % 2 == 0 && IsFlip(s, r, w)
    ensures r == Mirrored(s, rows, w)
  {
    EvenPairsAreRows(rows, w);
    EvenSplit(rows, w);
    RowSwapIsMirror(s, r, rows, w);
  }

  /**
   * Three rows of width two: the split at three samples falls inside the
   * middle row, so the flip pairs position 0 with position 5 and position
   * 2 with position 3, each for a single column.
   */
  lemma SixSampleFlipPairs()
    ensures |FlipPairs(6, 2)| == 2
    ensures FlipPairs(6, 2)[0] == RunPair(0, 5, 1) && FlipPairs(6, 2)[1] == RunPair(2, 3, 1)
  {
    assert Chunks(1, 2) == 1;
    assert Chunks(3, 2) == 2;
    assert PairCount(6, 2) == 2;
    assert Area(1, 2) == 2;
    assert BottomStart(6, 2, 0) == 5 && BottomStart(6, 2, 1) == 3;
    assert PairLen(6, 2, 0) == 1 && PairLen(6, 2, 1) == 1;
  }

  /** The row mirror of three rows of width two moves the sample at position 4 to position 0. */
  lemma ThreeRowMirror<T>(s: seq<T>)
    requires |s| == 6
    ensures Area(3, 2) == 6 && Mirrored(s, 3, 2)[0] == s[4]
  {
    assert Area(3, 2) == 6;
    MirroredRows(s, 3, 2);
    assert Cell(Mirrored(s, 3, 2), 3, 2, 0, 0) == Cell(s, 3, 2, 2, 0);
    assert At(0, 0, 2) == 0 && At(2, 0, 2) == 4;
  }

  /**
   * With three rows of width two the flip moves the sample at position 5
   * to position 0, so it differs from the row mirror whenever those two
   * samples differ.
   */
  lemma OddRowsNotMirrored<T>(s: seq<T>, r: seq<T>)
    requires |s| == 6 && IsFlip(s, r, 2)
    ensures r[0] == s[5]
    ensures s[4] != s[5] ==> r != Mirrored(s, 3, 2)
  {
    SixSampleFlipPairs();
    ThreeRowMirror(s);
    var p := RunPair(0, 5, 1);
    assert TopAt(p, 0) == 0 && BottomAt(p, 0) == 5;
  }
}
