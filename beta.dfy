/** Beta values from methylated and unmethylated intensities (`_get_beta`
    in preprocessing_functions.py). */
module BetaValues {
  import opened Wrappers
  import opened Floats

  datatype BetaError = ValueError(message: string) | ShapeMismatch

  /** `np.maximum(x, 0)` when `min_zero` is set. */
  function Floor0(x: Float, minZero: bool): Float {
    if minZero then Max(x, Finite(0.0)) else x
  }

  /** The beta value of one probe: m / (m + u + offset) after the optional
      floor at 0, clipped into [t, 1 - t] when the threshold t is positive. */
  function BetaOf(m: Float, u: Float, offset: real, t: real, minZero: bool): Float {
    var m' := Floor0(m, minZero);
    var u' := Floor0(u, minZero);
    var ratio := Div(m', Add(Add(m', u'), Finite(offset)));
    if t > 0.0 then Min(Max(ratio, Finite(t)), Finite(1.0 - t)) else ratio
  }

  /** `_get_beta`: rejects a negative offset, then a threshold outside
      [0, 0.5], before computing anything; arrays of different lengths do
      not combine; otherwise one beta value per probe. */
  function GetBeta(methylated: seq<Float>, unmethylated: seq<Float>, offset: real, betaThreshold: real, minZero: bool)
    : (r: Result<seq<Float>, BetaError>)
    ensures offset < 0.0 ==> r == Err(ValueError("'offset' must be non-negative"))
    ensures offset >= 0.0 && !(0.0 <= betaThreshold <= 0.5) ==> r == Err(ValueError("'beta_threshold' must be between 0 and 0.5"))
    ensures r.Ok? <==> offset >= 0.0 && 0.0 <= betaThreshold <= 0.5 && |methylated| == |unmethylated|
    ensures r.Ok? ==>
              && |r.value| == |methylated|
              && forall i :: 0 <= i < |methylated| ==>
                   r.value[i] == BetaOf(methylated[i], unmethylated[i], offset, betaThreshold, minZero)
  {
    if offset < 0.0 then Err(ValueError("'offset' must be non-negative"))
    else if !(0.0 <= betaThreshold <= 0.5) then Err(ValueError("'beta_threshold' must be between 0 and 0.5"))
    else if |methylated| != |unmethylated| then Err(ShapeMismatch)
    else Ok(seq(|methylated|, i requires 0 <= i < |methylated| =>
                  BetaOf(methylated[i], unmethylated[i], offset, betaThreshold, minZero)))
  }

  /** A value the floor at 0 can produce: NaN, +inf or a non-negative real. */
  predicate NonNegative(x: Float) {
    x.NaN? || x.PosInf? || (x.Finite? && x.v >= 0.0)
  }

  /** NaN or a real in [0, 1]. */
  predicate UnitOrNaN(x: Float) {
    x.NaN? || (x.Finite? && 0.0 <= x.v <= 1.0)
  }

  lemma FloorIsNonNegative(x: Float)
    ensures NonNegative(Floor0(x, true))
  {
  }

  lemma DivBounds(a: real, b: real)
    requires 0.0 <= a <= b && b != 0.0
    ensures 0.0 <= a / b <= 1.0
  {
    assert a / b * b == a;
  }

  /** m / (m + u + offset) of non-negative operands is NaN or in [0, 1]. */
  lemma RatioInUnit(a: Float, b: Float, offset: real)
    requires NonNegative(a) && NonNegative(b) && offset >= 0.0
    ensures UnitOrNaN(Div(a, Add(Add(a, b), Finite(offset))))
  {
    var d := Add(Add(a, b), Finite(offset));
    if a.Finite? && b.Finite? {
      assert d == Finite(a.v + b.v + offset);
      if a.v + b.v + offset != 0.0 {
        DivBounds(a.v, a.v + b.v + offset);
      } else {
        assert a.v == 0.0;
      }
    } else if a.Finite? && b.PosInf? {
      assert d == PosInf;
    } else if a.PosInf? && !b.NaN? {
      assert d == PosInf;
    }
  }

  /** Clipping into [t, 1 - t] with t in [0, 0.5] keeps a value in [0, 1]. */
  lemma ClipInUnit(x: Float, t: real)
    requires UnitOrNaN(x) && 0.0 < t <= 0.5
    ensures UnitOrNaN(Min(Max(x, Finite(t)), Finite(1.0 - t)))
  {
    if x.Finite? {
      var y := if x.v < t then t else x.v;
      assert Max(x, Finite(t)) == Finite(y);
      assert Min(Finite(y), Finite(1.0 - t)) == Finite(if 1.0 - t < y then 1.0 - t else y);
    }
  }

  /** With `min_zero` and a non-negative offset, every defined beta lies in
      [0, 1]; the threshold only narrows that. */
  lemma BetaInUnitInterval(m: Float, u: Float, offset: real, t: real)
    requires offset >= 0.0 && 0.0 <= t <= 0.5
    ensures var b := BetaOf(m, u, offset, t, true);
      !b.NaN? ==> LessEq(Finite(0.0), b) && LessEq(b, Finite(1.0))
  {
    FloorIsNonNegative(m);
    FloorIsNonNegative(u);
    var ratio := Div(Floor0(m, true), Add(Add(Floor0(m, true), Floor0(u, true)), Finite(offset)));
    RatioInUnit(Floor0(m, true), Floor0(u, true), offset);
    if t > 0.0 {
      ClipInUnit(ratio, t);
    }
  }

  /** With a positive threshold t, every defined beta lies in [t, 1 - t],
      whatever the inputs. */
  lemma BetaWithinThreshold(m: Float, u: Float, offset: real, t: real, minZero: bool)
    requires 0.0 < t <= 0.5
    ensures var b := BetaOf(m, u, offset, t, minZero);
      !b.NaN? ==> LessEq(Finite(t), b) && LessEq(b, Finite(1.0 - t))
  {
  }

  /** Without a threshold the beta of finite intensities is the plain ratio,
      and a zero denominator with a zero numerator gives NaN rather than an
      error. */
  lemma BetaIsPlainRatio(m: real, u: real, offset: real)
    ensures var m' := if m < 0.0 then 0.0 else m;
            var u' := if u < 0.0 then 0.0 else u;
            var b := BetaOf(Finite(m), Finite(u), offset, 0.0, true);
      && (m' + u' + offset != 0.0 ==> b == Finite(m' / (m' + u' + offset)))
      && (m' == 0.0 && u' + offset == 0.0 ==> b.NaN?)
  {
    BetaOfFloored(m, u, offset);
  }

  /** Without a threshold, the beta value of finite intensities is the
      floored methylated intensity over the floored total plus the offset. */
  lemma BetaOfFloored(m: real, u: real, offset: real)
    ensures var m' := if m < 0.0 then 0.0 else m;
            var u' := if u < 0.0 then 0.0 else u;
      BetaOf(Finite(m), Finite(u), offset, 0.0, true) == Div(Finite(m'), Finite(m' + u' + offset))
  {
    var m' := if m < 0.0 then 0.0 else m;
    var u' := if u < 0.0 then 0.0 else u;
    UnthresholdedBeta(Finite(m), Finite(u), offset);
    FloorOfFinite(m);
    FloorOfFinite(u);
    assert Add(Add(Finite(m'), Finite(u')), Finite(offset)) == Finite(m' + u' + offset);
  }

  lemma UnthresholdedBeta(m: Float, u: Float, offset: real)
    ensures BetaOf(m, u, offset, 0.0, true)
         == Div(Floor0(m, true), Add(Add(Floor0(m, true), Floor0(u, true)), Finite(offset)))
  {
  }

  lemma FloorOfFinite(x: real)
    ensures Floor0(Finite(x), true) == Finite(if x < 0.0 then 0.0 else x)
  {
  }
}
