/**
 * The three draw strategies of the Monte Carlo engine
 * (`_sample_uniform`, `_sample_normal_bounded`, `_sample_integer`).
 *
 * The random generator itself is not modelled: each sampler receives the raw
 * draws it would have obtained from numpy, one per trial, under numpy's own
 * contract for them:
 *   - `np.random.uniform(lo, hi, n)` is `lo + (hi - lo) * u` for unit draws `u` in [0, 1);
 *   - `np.random.normal(mean, std, n)` is `mean + std * z` for standard-normal draws `z`
 *     (any real), and raises ValueError when `std < 0`;
 *   - `np.random.randint(lo, hi + 1, n)` yields integers in [lo, hi + 1), and raises
 *     ValueError when `lo >= hi + 1`.
 */
module Sampling {
  import opened Common

  /** Unit draws as numpy's uniform generator produces them. */
  ghost predicate UnitDraws(u: seq<real>) {
    forall i :: 0 <= i < |u| ==> 0.0 <= u[i] < 1.0
  }

  /** Every element of `s` lies in the closed range [lo, hi]. */
  ghost predicate Within(s: seq<real>, lo: real, hi: real) {
    forall i :: 0 <= i < |s| ==> lo <= s[i] <= hi
  }

  ghost predicate IntWithin(s: seq<int>, lo: int, hi: int) {
    forall i :: 0 <= i < |s| ==> lo <= s[i] <= hi
  }

  /** `np.clip` of one value: `min(max(x, lo), hi)`. */
  function Clip(x: real, lo: real, hi: real): (r: real)
    ensures lo <= hi ==> lo <= r <= hi
    ensures lo <= x <= hi ==> r == x
  {
    Min(Max(x, lo), hi)
  }

  lemma ClipMonotone(x: real, y: real, lo: real, hi: real)
    requires x <= y
    ensures Clip(x, lo, hi) <= Clip(y, lo, hi)
  {
  }

  /** `_sample_uniform`: one value per unit draw; numpy does not check `lo <= hi`. */
  function SampleUniform(lo: real, hi: real, u: seq<real>): (r: seq<real>)
    requires UnitDraws(u)
    ensures |r| == |u|
    ensures lo <= hi ==> Within(r, lo, hi)
  {
    seq(|u|, i requires 0 <= i < |u| => UniformDraw(lo, hi, u[i]))
  }

  function UniformDraw(lo: real, hi: real, u: real): (x: real)
    requires 0.0 <= u < 1.0
    ensures lo <= hi ==> lo <= x <= hi
  {
    if lo <= hi then
      NonNegativeProduct(hi - lo, u);
      NonNegativeProduct(hi - lo, 1.0 - u);
      lo + (hi - lo) * u
    else
      lo + (hi - lo) * u
  }

  /**
   * `_sample_integer`: numpy's exclusive upper bound is `hi + 1`, so every
   * sample lies in the inclusive range [lo, hi]; an inverted range raises.
   */
  function SampleInteger(lo: int, hi: int, draws: seq<int>): (r: Result<seq<int>>)
    requires lo <= hi ==> forall i :: 0 <= i < |draws| ==> lo <= draws[i] < hi + 1
    ensures r.Err? <==> hi < lo
    ensures r.Ok? ==> |r.value| == |draws| && IntWithin(r.value, lo, hi)
  {
    if lo >= hi + 1 then Err(ValueError) else Ok(draws)
  }

  /** Centre and spread of the bounded normal: midpoint and a quarter of the width. */
  function NormalMean(lo: real, hi: real): real { (lo + hi) / 2.0 }

  function NormalStd(lo: real, hi: real): (std: real)
    ensures std == 0.0 <==> lo == hi
    ensures std > 0.0 <==> lo < hi
  {
    (hi - lo) / 4.0
  }

  /** The ad hoc skew transform `x + skew * (x - mean)^2 / std`. */
  function Skewed(x: real, mean: real, std: real, skew: real): real
    requires std != 0.0
  {
    x + skew * (x - mean) * (x - mean) / std
  }

  /** With a positive spread and a non-negative skew the transform never lowers a sample. */
  lemma SkewNeverDecreases(x: real, mean: real, std: real, skew: real)
    requires std > 0.0 && skew >= 0.0
    ensures Skewed(x, mean, std, skew) >= x
  {
    var sq := (x - mean) * (x - mean);
    assert sq >= 0.0;
    assert skew * sq >= 0.0;
    assert skew * sq / std >= 0.0;
    assert skew * (x - mean) * (x - mean) == skew * sq;
  }

  /**
   * `_sample_normal_bounded` exactly as written: the skew branch divides by
   * `std` even when the range is a single point, and `0 / 0` makes every
   * sample NaN (numpy warns, and the warning is silenced).
   */
  function NormalBoundedAsWritten(lo: real, hi: real, skew: real, z: seq<real>): (r: Result<seq<Float>>)
    ensures r.Err? <==> hi < lo
    ensures r.Ok? ==> |r.value| == |z|
    ensures r.Ok? && lo == hi && skew != 0.0 ==> forall i :: 0 <= i < |z| ==> r.value[i].NonFinite?
    ensures r.Ok? && (lo < hi || skew == 0.0) ==>
      forall i :: 0 <= i < |z| ==> r.value[i].Finite? && lo <= r.value[i].v <= hi
  {
    if hi < lo then Err(ValueError)
    else Ok(seq(|z|, i requires 0 <= i < |z| => DrawAsWritten(lo, hi, skew, z[i])))
  }

  /** One sample of `_sample_normal_bounded` as written, for a non-inverted range. */
  function DrawAsWritten(lo: real, hi: real, skew: real, z: real): (x: Float)
    requires lo <= hi
    ensures x.NonFinite? <==> lo == hi && skew != 0.0
    ensures x.Finite? ==> lo <= x.v <= hi
    ensures lo < hi && skew != 0.0 ==>
      x == Finite(Clip(Skewed(NormalMean(lo, hi) + NormalStd(lo, hi) * z, NormalMean(lo, hi), NormalStd(lo, hi), skew), lo, hi))
  {
    var mean, std := NormalMean(lo, hi), NormalStd(lo, hi);
    var raw := mean + std * z;
    if skew == 0.0 then Finite(Clip(raw, lo, hi))
    else if std == 0.0 then NonFinite
    else Finite(Clip(Skewed(raw, mean, std, skew), lo, hi))
  }

  /** The degenerate range (v, v) with a non-zero skew yields NaN instead of v. */
  lemma DegenerateSkewIsNaN()
    ensures NormalBoundedAsWritten(5.0, 5.0, 0.2, [0.0]) == Ok([NonFinite])
    ensures SampleNormalBounded(5.0, 5.0, 0.2, [0.0]) == Ok([5.0])
  {
    var asWritten := NormalBoundedAsWritten(5.0, 5.0, 0.2, [0.0]);
    assert asWritten.value[0] == NonFinite;
    assert asWritten.value == [NonFinite];
    var guarded := SampleNormalBounded(5.0, 5.0, 0.2, [0.0]);
    assert guarded.value[0] == 5.0;
    assert guarded.value == [5.0];
  }

  /** One bounded-normal sample: skew (only when the spread is positive), then clamp. */
  function BoundedDraw(lo: real, hi: real, skew: real, z: real): (x: real)
    requires lo <= hi
    ensures lo <= x <= hi
    ensures lo < hi && skew != 0.0 ==>
      x == Clip(Skewed(NormalMean(lo, hi) + NormalStd(lo, hi) * z, NormalMean(lo, hi), NormalStd(lo, hi), skew), lo, hi)
  {
    var mean, std := NormalMean(lo, hi), NormalStd(lo, hi);
    var raw := mean + std * z;
    if skew != 0.0 && std != 0.0 then Clip(Skewed(raw, mean, std, skew), lo, hi)
    else Clip(raw, lo, hi)
  }

  /**
   * `_sample_normal_bounded` with the degenerate-range division guarded:
   * every sample lies in [lo, hi] whatever the pre-clamp draw, and with
   * `skew == 0` the sample is the clamped normal draw itself.
   */
  function SampleNormalBounded(lo: real, hi: real, skew: real, z: seq<real>): (r: Result<seq<real>>)
    ensures r.Err? <==> hi < lo
    ensures r.Ok? ==> |r.value| == |z| && Within(r.value, lo, hi)
    ensures r.Ok? && skew == 0.0 ==>
      forall i :: 0 <= i < |z| ==> r.value[i] == Clip(NormalMean(lo, hi) + NormalStd(lo, hi) * z[i], lo, hi)
    ensures r.Ok? && skew != 0.0 && lo < hi ==>
      forall i :: 0 <= i < |z| ==>
        r.value[i] == Clip(Skewed(NormalMean(lo, hi) + NormalStd(lo, hi) * z[i], NormalMean(lo, hi), NormalStd(lo, hi), skew), lo, hi)
  {
    if hi < lo then Err(ValueError)
    else Ok(seq(|z|, i requires 0 <= i < |z| => BoundedDraw(lo, hi, skew, z[i])))
  }

  /** Whenever the range has positive width, the guarded sampler agrees with the code as written. */
  lemma NormalBoundedAgreesWhenSpread(lo: real, hi: real, skew: real, z: seq<real>)
    requires lo < hi || skew == 0.0
    ensures NormalBoundedAsWritten(lo, hi, skew, z).Ok? == SampleNormalBounded(lo, hi, skew, z).Ok?
    ensures SampleNormalBounded(lo, hi, skew, z).Ok? ==>
      forall i :: 0 <= i < |z| ==>
        NormalBoundedAsWritten(lo, hi, skew, z).value[i] == Finite(SampleNormalBounded(lo, hi, skew, z).value[i])
  {
  }

  /** A positive skew never lowers a clamped sample below its unskewed counterpart. */
  lemma {:induction false} PositiveSkewRaisesSamples(lo: real, hi: real, skew: real, z: seq<real>)
    requires lo <= hi && skew > 0.0
    ensures SampleNormalBounded(lo, hi, skew, z).Ok? && SampleNormalBounded(lo, hi, 0.0, z).Ok?
    ensures forall i :: 0 <= i < |z| ==>
      SampleNormalBounded(lo, hi, skew, z).value[i] >= SampleNormalBounded(lo, hi, 0.0, z).value[i]
  {
    forall i | 0 <= i < |z|
      ensures BoundedDraw(lo, hi, skew, z[i]) >= BoundedDraw(lo, hi, 0.0, z[i])
    {
      var mean, std := NormalMean(lo, hi), NormalStd(lo, hi);
      var raw := mean + std * z[i];
      if std != 0.0 {
        SkewNeverDecreases(raw, mean, std, skew);
        ClipMonotone(raw, Skewed(raw, mean, std, skew), lo, hi);
      }
    }
  }
}
