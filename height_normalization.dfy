/**
 * Normalisation of heightmap samples to [-1, 1]: find the sample of
 * largest magnitude, take the reciprocal of that magnitude, and multiply
 * every sample by it. Samples are reals here (the source uses `f16`).
 */
module HeightNormalization {

  function Abs(x: real): (r: real)
    ensures r >= 0.0 && (r == x || r == -x)
  {
    if x < 0.0 then -x else x
  }

  /** The largest magnitude among the samples. */
  function MaxAbs(s: seq<real>): (m: real)
    requires |s| > 0
    ensures forall i :: 0 <= i < |s| ==> Abs(s[i]) <= m
    ensures exists i :: 0 <= i < |s| && Abs(s[i]) == m
  {
    if |s| == 1 then Abs(s[0])
    else
      var rest := MaxAbs(s[1..]);
      assert forall i :: 1 <= i < |s| ==> s[i] == s[1..][i - 1];
      if Abs(s[0]) >= rest then Abs(s[0]) else rest
  }

  /** Every sample multiplied by `factor`. */
  function Scaled(s: seq<real>, factor: real): (r: seq<real>)
    ensures |r| == |s|
    ensures forall i :: 0 <= i < |s| ==> r[i] == s[i] * factor
  {
    seq(|s|, i requires 0 <= i < |s| => s[i] * factor)
  }

  /**
   * How a normalisation ends: the `unwrap` of the maximum panics on an
   * empty slice; an all-zero slice has extreme 0, whose reciprocal is
   * infinite, and `0 * inf` turns every sample into NaN; otherwise every
   * sample is scaled by the reciprocal of the extreme.
   */
  datatype Normalization = PanicsOnEmpty | AllNaN | Normalized(extreme: real)

  /**
   * The `max_by` over magnitudes: the index of a sample of largest
   * magnitude, or `None` for an empty slice.
   */
  method ExtremeIndex(data: array<real>) returns (k: int)
    ensures data.Length == 0 <==> k == -1
    ensures data.Length > 0 ==> 0 <= k < data.Length && Abs(data[k]) == MaxAbs(data[..])
    ensures data.Length > 0 ==> forall j :: 0 <= j < data.Length ==> Abs(data[j]) <= Abs(data[k])
  {
    if data.Length == 0 {
      return -1;
    }
    k := 0;
    var i := 1;
    while i < data.Length
      invariant 1 <= i <= data.Length && 0 <= k < i
      invariant forall j :: 0 <= j < i ==> Abs(data[j]) <= Abs(data[k])
    {
      if Abs(data[i]) >= Abs(data[k]) {
        k := i;
      }
      i := i + 1;
    }
    ghost var s := data[..];
    ghost var w :| 0 <= w < |s| && Abs(s[w]) == MaxAbs(s);
    assert Abs(data[w]) <= Abs(data[k]);
  }

  /** The second pass of `normalize_height`: every sample times `factor`. */
  method ScaleInPlace(data: array<real>, factor: real)
    modifies data
    ensures data[..] == Scaled(old(data[..]), factor)
  {
    ghost var before := data[..];
    var i := 0;
    while i < data.Length
      invariant 0 <= i <= data.Length
      invariant forall j :: 0 <= j < i ==> data[j] == before[j] * factor
      invariant forall j :: i <= j < data.Length ==> data[j] == before[j]
    {
      data[i] := data[i] * factor;
      i := i + 1;
    }
    assert forall j :: 0 <= j < data.Length ==> data[..][j] == Scaled(before, factor)[j];
  }

  /** `normalize_height` on a mutable slice of samples. */
  method NormalizeInPlace(data: array<real>) returns (outcome: Normalization)
    modifies data
    ensures outcome == PanicsOnEmpty <==> data.Length == 0
    ensures outcome == AllNaN <==> data.Length > 0 && MaxAbs(old(data[..])) == 0.0
    ensures outcome.Normalized? ==>
              outcome.extreme == MaxAbs(old(data[..])) > 0.0
              && data[..] == NormalizedSamples(old(data[..]))
    ensures !outcome.Normalized? ==> data[..] == old(data[..])
  {
    var k := ExtremeIndex(data);
    if k < 0 {
      return PanicsOnEmpty;
    }
    var extreme := Abs(data[k]);
    if extreme == 0.0 {
      return AllNaN;
    }
    ScaleInPlace(data, 1.0 / extreme);
    outcome := Normalized(extreme);
  }

  /** The samples after a normalisation that does not end in NaN. */
  function NormalizedSamples(s: seq<real>): (r: seq<real>)
    requires |s| > 0 && MaxAbs(s) > 0.0
    ensures |r| == |s|
  {
    Scaled(s, 1.0 / MaxAbs(s))
  }

  lemma ScaleBounded(x: real, m: real)
    requires m > 0.0 && Abs(x) <= m
    ensures -1.0 <= x * (1.0 / m) <= 1.0
  {
    var inv := 1.0 / m;
    assert inv > 0.0 && m * inv == 1.0;
    if x >= 0.0 {
      assert x * inv <= m * inv;
    } else {
      assert (-x) * inv <= m * inv;
    }
  }

  /** Scaling by the reciprocal of a magnitude bound lands in [-1, 1]. */
  lemma ScaledWithinUnit(s: seq<real>, m: real, inverse: real)
    requires m > 0.0 && inverse == 1.0 / m
    requires forall i :: 0 <= i < |s| ==> Abs(s[i]) <= m
    ensures forall i :: 0 <= i < |s| ==> -1.0 <= Scaled(s, inverse)[i] <= 1.0
  {
    var r := Scaled(s, inverse);
    forall i | 0 <= i < |s|
      ensures -1.0 <= r[i] <= 1.0
    {
      ScaleBounded(s[i], m);
    }
  }

  /** After normalisation every sample lies in [-1, 1]. */
  lemma NormalizedWithinUnit(s: seq<real>)
    requires |s| > 0 && MaxAbs(s) > 0.0
    ensures forall i :: 0 <= i < |s| ==> -1.0 <= NormalizedSamples(s)[i] <= 1.0
  {
    var m := MaxAbs(s);
    ScaledWithinUnit(s, m, 1.0 / m);
  }

  /** A sample whose magnitude is the scaling bound becomes 1 or -1. */
  lemma ScaledExtremeIsUnit(x: real, m: real)
    requires m > 0.0 && Abs(x) == m
    ensures Abs(x * (1.0 / m)) == 1.0
  {
    assert m * (1.0 / m) == 1.0;
    if x < 0.0 {
      assert x * (1.0 / m) == -(m * (1.0 / m));
    }
  }

  lemma ScaledAtIsUnit(s: seq<real>, m: real, inverse: real, i: int)
    requires 0 <= i < |s| && m > 0.0 && inverse == 1.0 / m && Abs(s[i]) == m
    ensures Abs(Scaled(s, inverse)[i]) == 1.0
  {
    ScaledExtremeIsUnit(s[i], m);
  }

  /** The sample of largest magnitude becomes exactly 1 or -1. */
  lemma ExtremeBecomesUnit(s: seq<real>)
    requires |s| > 0 && MaxAbs(s) > 0.0
    ensures exists i :: 0 <= i < |s| && Abs(NormalizedSamples(s)[i]) == 1.0
  {
    var m := MaxAbs(s);
    var i :| 0 <= i < |s| && Abs(s[i]) == m;
    ScaledAtIsUnit(s, m, 1.0 / m, i);
    assert NormalizedSamples(s)[i] == Scaled(s, 1.0 / m)[i];
  }

  /** Scaling by a positive factor keeps every sample's sign. */
  lemma ScaledKeepsSigns(s: seq<real>, factor: real)
    requires factor > 0.0
    ensures forall i :: 0 <= i < |s| ==>
              (s[i] > 0.0 <==> Scaled(s, factor)[i] > 0.0)
              && (s[i] < 0.0 <==> Scaled(s, factor)[i] < 0.0)
  {
    var r := Scaled(s, factor);
    forall i | 0 <= i < |s|
      ensures (s[i] > 0.0 <==> r[i] > 0.0) && (s[i] < 0.0 <==> r[i] < 0.0)
    {
      PositiveFactorSign(s[i], factor);
    }
  }

  lemma PositiveFactorSign(x: real, factor: real)
    requires factor > 0.0
    ensures (x > 0.0 <==> x * factor > 0.0) && (x < 0.0 <==> x * factor < 0.0)
  {
    if x < 0.0 {
      assert (-x) * factor > 0.0;
    }
  }

  lemma ReciprocalPositive(m: real)
    requires m > 0.0
    ensures 1.0 / m > 0.0
  {
  }

  /** Normalisation preserves the sign of every sample. */
  lemma SignsPreserved(s: seq<real>)
    requires |s| > 0 && MaxAbs(s) > 0.0
    ensures forall i :: 0 <= i < |s| ==>
              (s[i] > 0.0 <==> NormalizedSamples(s)[i] > 0.0)
              && (s[i] < 0.0 <==> NormalizedSamples(s)[i] < 0.0)
  {
    var m := MaxAbs(s);
    ReciprocalPositive(m);
    ScaledKeepsSigns(s, 1.0 / m);
  }
}
