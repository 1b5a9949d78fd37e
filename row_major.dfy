/**
 * Row-major layout of an image: the offset of a row is the number of
 * samples in the rows above it, defined by repeated addition so that
 * proofs about positions stay in linear arithmetic.
 */
module RowMajor {

  /** Number of samples in `rows` rows of width `w`; the start of row `rows`. */
  function Area(rows: nat, w: nat): nat
  {
    if rows == 0 then 0 else Area(rows - 1, w) + w
  }

  /** Position of row `r`, column `c` in an image whose rows have width `w`. */
  function At(r: nat, c: nat, w: nat): nat
  {
    Area(r, w) + c
  }

  /** `Area` is the product of row count and width. */
  lemma {:induction false} AreaIsProduct(rows: nat, w: nat)
    ensures Area(rows, w) == rows * w
  {
    if rows > 0 {
      AreaIsProduct(rows - 1, w);
      assert (rows - 1) * w + w == rows * w;
    }
  }

  lemma {:induction false} AreaAdd(a: nat, b: nat, w: nat)
    ensures Area(a + b, w) == Area(a, w) + Area(b, w)
    decreases b
  {
    if b > 0 {
      AreaAdd(a, b - 1, w);
    }
  }

  lemma AreaMono(a: nat, b: nat, w: nat)
    requires a <= b
    ensures Area(a, w) <= Area(b, w)
  {
    AreaAdd(a, b - a, w);
  }

  /** Row `a` ends no later than row `b` starts. */
  lemma AreaGap(a: nat, b: nat, w: nat)
    requires a < b
    ensures Area(a, w) + w <= Area(b, w)
  {
    AreaMono(a + 1, b, w);
  }
}
