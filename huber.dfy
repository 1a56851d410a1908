/** Huber's M-estimator of location with MAD scale (`huber` in
    preprocessing_functions.py). Samples are finite reals or NaN; NaN is
    `None`. Location and scale are `Float`s, so that the NaN produced by the
    median of an empty sample is followed through the computation. */
module Huber {
  import opened Wrappers
  import opened Floats
  import opened Seqs

  /** `y[~np.isnan(y)]`: the values that are not NaN, in order. */
  function Present(y: seq<Option<real>>): (r: seq<real>)
    ensures |r| <= |y|
    ensures forall x :: x in r <==> Some(x) in y
  {
    if |y| == 0 then []
    else
      var rest := Present(y[1..]);
      assert forall o :: o in y <==> o == y[0] || o in y[1..];
      match y[0]
      case Some(x) => [x] + rest
      case None => rest
  }

  /** `np.median`: the middle element of the sorted sample, or the average of
      the two middle elements; NaN for an empty sample. */
  function Median(xs: seq<real>): (r: Float)
    ensures r.NaN? <==> |xs| == 0
    ensures !r.NaN? ==> r.Finite?
  {
    var a := SortReals(xs);
    var n := |a|;
    if n == 0 then NaN
    else if n % 2 == 1 then Finite(a[n / 2])
    else Finite((a[n / 2 - 1] + a[n / 2]) / 2.0)
  }

  /** The median is at least any lower bound of the whole sample. */
  lemma MedianAtLeast(xs: seq<real>, lo: real)
    requires forall x :: x in xs ==> lo <= x
    ensures Median(xs).Finite? ==> lo <= Median(xs).v
  {
    var a := SortReals(xs);
    forall i | 0 <= i < |a|
      ensures lo <= a[i]
    {
      assert a[i] in multiset(a);
      assert a[i] in multiset(xs);
      assert a[i] in xs;
    }
  }

  /** `np.abs(y - mu)` for a finite `mu`. */
  function AbsDev(ys: seq<real>, mu: real): (r: seq<real>)
    ensures |r| == |ys|
    ensures forall x :: x in r ==> x >= 0.0
  {
    seq(|ys|, i requires 0 <= i < |ys| => if ys[i] < mu then mu - ys[i] else ys[i] - mu)
  }

  /** `np.median(np.abs(y - mu)) * 1.4826`; NaN when `mu` is NaN. */
  function Scale(ys: seq<real>, mu: Float): (r: Float)
    ensures r.NaN? <==> (!mu.Finite? || |ys| == 0)
    ensures mu.Finite? && |ys| > 0 ==> r.Finite?
    ensures r.Finite? ==> r.v >= 0.0
  {
    if !mu.Finite? then NaN
    else
      var m := Median(AbsDev(ys, mu.v));
      MedianAtLeast(AbsDev(ys, mu.v), 0.0);
      Mul(m, Finite(1.4826))
  }

  /** `np.clip(y, lo, hi)` for one value. */
  function Clip(x: real, lo: Float, hi: Float): Float {
    Min(Max(Finite(x), lo), hi)
  }

  function SumF(xs: seq<Float>): Float {
    if |xs| == 0 then Finite(0.0) else Add(SumF(xs[..|xs| - 1]), xs[|xs| - 1])
  }

  /** `np.mean`: NaN for an empty array. */
  function Mean(xs: seq<Float>): Float {
    if |xs| == 0 then NaN else Div(SumF(xs), Finite(|xs| as real))
  }

  /** One Huber step: the mean of the sample clipped into
      [mu - k*s, mu + k*s]. */
  function Step(ys: seq<real>, mu: Float, s: Float, k: real): Float {
    var lo := Sub(mu, Mul(Finite(k), s));
    var hi := Add(mu, Mul(Finite(k), s));
    Mean(seq(|ys|, i requires 0 <= i < |ys| => Clip(ys[i], lo, hi)))
  }

  lemma PresentEmptyIffAllNaN(y: seq<Option<real>>)
    ensures |Present(y)| == 0 <==> forall i :: 0 <= i < |y| ==> y[i].None?
  {
    var ys := Present(y);
    if |ys| > 0 {
      assert Some(ys[0]) in y;
    }
    if exists i :: 0 <= i < |y| && y[i].Some? {
      var i :| 0 <= i < |y| && y[i].Some?;
      assert y[i].value in ys;
    }
  }

  /** The stop rule `np.abs(mu - mu1) < tol * s`. */
  predicate Stops(mu: Float, mu1: Float, s: Float, tol: real) {
    Less(Abs(Sub(mu, mu1)), Mul(Finite(tol), s))
  }

  /** The `while True` loop, cut off after `fuel` steps: `Some(mu)` for the
      location at which the loop breaks, `None` when the fuel runs out. */
  function Iterate(ys: seq<real>, mu: Float, s: Float, k: real, tol: real, fuel: nat): Option<Float>
    decreases fuel
  {
    if fuel == 0 then None
    else
      var mu1 := Step(ys, mu, s, k);
      if Stops(mu, mu1, s, tol) then Some(mu) else Iterate(ys, mu1, s, k, tol, fuel - 1)
  }

  datatype HuberError =
    | EmptySample
    | ZeroScale(message: string)
    | NotConverged

  const ZeroScaleMessage := "Cannot estimate scale: MAD is zero for this sample"

  /** `huber` exactly as written: no check for an empty NaN-free sample. */
  function HuberAsWritten(y: seq<Option<real>>, k: real, tol: real, fuel: nat): Result<(Float, Float), HuberError> {
    var ys := Present(y);
    var mu := Median(ys);
    var s := Scale(ys, mu);
    if s == Finite(0.0) then Err(ZeroScale(ZeroScaleMessage))
    else match Iterate(ys, mu, s, k, tol, fuel)
      case None => Err(NotConverged)
      case Some(m) => Ok((m, s))
  }

  /** With NaN as location the loop never breaks, however much fuel it has. */
  lemma {:induction false} IterateFromNaNNeverStops(ys: seq<real>, s: Float, k: real, tol: real, fuel: nat)
    ensures Iterate(ys, NaN, s, k, tol, fuel) == None
    decreases fuel
  {
    if fuel > 0 {
      var mu1 := Step(ys, NaN, s, k);
      assert Sub(NaN, mu1).NaN?;
      assert !Stops(NaN, mu1, s, tol);
      assert Mul(Finite(k), s).NaN? || !Mul(Finite(k), s).NaN?;
      assert Sub(NaN, Mul(Finite(k), s)).NaN?;
      assert Step(ys, NaN, s, k) == NaN by {
        var lo := Sub(NaN, Mul(Finite(k), s));
        var hi := Add(NaN, Mul(Finite(k), s));
        var c := seq(|ys|, i requires 0 <= i < |ys| => Clip(ys[i], lo, hi));
        if |c| > 0 {
          assert c[|c| - 1].NaN?;
          assert SumF(c).NaN?;
        }
      }
      IterateFromNaNNeverStops(ys, s, k, tol, fuel - 1);
    }
  }

  /** The code as written never returns on a sample that is empty or all NaN:
      the median is NaN, `s == 0` is false, and every stop test compares
      NaN. */
  lemma AsWrittenLoopsOnEmptySample(y: seq<Option<real>>, k: real, tol: real, fuel: nat)
    requires forall i :: 0 <= i < |y| ==> y[i].None?
    ensures HuberAsWritten(y, k, tol, fuel) == Err(NotConverged)
  {
    var ys := Present(y);
    PresentEmptyIffAllNaN(y);
    IterateFromNaNNeverStops(ys, Scale(ys, NaN), k, tol, fuel);
  }

  /** `huber` with the empty sample rejected, as the R original it follows
      does; the rest of the model uses this one. */
  function HuberSpec(y: seq<Option<real>>, k: real, tol: real, fuel: nat): (r: Result<(Float, Float), HuberError>)
    ensures r == Err(EmptySample) <==> (forall i :: 0 <= i < |y| ==> y[i].None?)
    ensures (forall i :: 0 <= i < |y| ==> y[i].None?) || HuberAsWritten(y, k, tol, fuel) == r
  {
    PresentEmptyIffAllNaN(y);
    AsWrittenNeverEmptySample(y, k, tol, fuel);
    if |Present(y)| == 0 then Err(EmptySample) else HuberAsWritten(y, k, tol, fuel)
  }

  lemma AsWrittenNeverEmptySample(y: seq<Option<real>>, k: real, tol: real, fuel: nat)
    ensures HuberAsWritten(y, k, tol, fuel) != Err(EmptySample)
  {
  }

  /** The result of the corrected `huber`: the scale is the initial
      1.4826 * MAD, positive, and never updated by the loop; zero scale is
      reported exactly when it is zero; and a returned location is one at
      which the stop rule holds. */
  lemma HuberResult(y: seq<Option<real>>, k: real, tol: real, fuel: nat)
    ensures var ys := Present(y);
            var s0 := Scale(ys, Median(ys));
            var r := HuberSpec(y, k, tol, fuel);
      && (r == Err(ZeroScale(ZeroScaleMessage)) <==> |ys| > 0 && s0 == Finite(0.0))
      && (r.Ok? ==>
            && r.value.1 == s0
            && s0.Finite? && s0.v > 0.0
            && Stops(r.value.0, Step(ys, r.value.0, s0, k), s0, tol))
  {
    var ys := Present(y);
    var mu := Median(ys);
    var s0 := Scale(ys, mu);
    PresentEmptyIffAllNaN(y);
    if |ys| > 0 {
      assert HuberSpec(y, k, tol, fuel) == HuberAsWritten(y, k, tol, fuel);
      if s0 != Finite(0.0) {
        assert mu.Finite? && s0.Finite?;
        assert s0.v != 0.0;
        IterateStopsOnlyWhenClose(ys, mu, s0, k, tol, fuel);
      }
    }
  }

  /** The loop breaks only where |mu - Step(mu)| < tol * s. */
  lemma {:induction false} IterateStopsOnlyWhenClose(ys: seq<real>, mu: Float, s: Float, k: real, tol: real, fuel: nat)
    ensures Iterate(ys, mu, s, k, tol, fuel).Some? ==>
              var m := Iterate(ys, mu, s, k, tol, fuel).value;
              Stops(m, Step(ys, m, s, k), s, tol)
    decreases fuel
  {
    if fuel > 0 && !Stops(mu, Step(ys, mu, s, k), s, tol) {
      IterateStopsOnlyWhenClose(ys, Step(ys, mu, s, k), s, k, tol, fuel - 1);
    }
  }

  /** More fuel never changes a location the loop has already reached: the
      cut-off only stands in for the missing termination argument. */
  lemma {:induction false} IterateFuelMonotone(ys: seq<real>, mu: Float, s: Float, k: real, tol: real, fuel: nat, more: nat)
    requires fuel <= more
    requires Iterate(ys, mu, s, k, tol, fuel).Some?
    ensures Iterate(ys, mu, s, k, tol, more) == Iterate(ys, mu, s, k, tol, fuel)
    decreases fuel
  {
    if !Stops(mu, Step(ys, mu, s, k), s, tol) {
      IterateFuelMonotone(ys, Step(ys, mu, s, k), s, k, tol, fuel - 1, more - 1);
    }
  }

  lemma HuberFuelMonotone(y: seq<Option<real>>, k: real, tol: real, fuel: nat, more: nat)
    requires fuel <= more && HuberSpec(y, k, tol, fuel).Ok?
    ensures HuberSpec(y, k, tol, more) == HuberSpec(y, k, tol, fuel)
  {
    var ys := Present(y);
    IterateFuelMonotone(ys, Median(ys), Scale(ys, Median(ys)), k, tol, fuel, more);
  }

  lemma ClipFinite(x: real, lo: real, hi: real)
    requires lo <= hi
    ensures Clip(x, Finite(lo), Finite(hi)).Finite?
    ensures lo <= Clip(x, Finite(lo), Finite(hi)).v <= hi
  {
    var m := if x < lo then lo else x;
    assert Max(Finite(x), Finite(lo)) == Finite(m);
  }

  /** `n * x` as repeated addition, which keeps the induction below linear. */
  function Times(n: nat, x: real): real {
    if n == 0 then 0.0 else Times(n - 1, x) + x
  }

  lemma {:induction false} TimesIsProduct(n: nat, x: real)
    ensures Times(n, x) == (n as real) * x
  {
    if n > 0 {
      TimesIsProduct(n - 1, x);
      assert (n as real) * x == ((n - 1) as real) * x + x;
    }
  }

  /** A sum of finite values within [lo, hi] is finite and within n times those bounds. */
  lemma {:induction false} SumFWithin(xs: seq<Float>, lo: real, hi: real)
    requires forall i :: 0 <= i < |xs| ==> xs[i].Finite? && lo <= xs[i].v <= hi
    ensures SumF(xs).Finite?
    ensures Times(|xs|, lo) <= SumF(xs).v <= Times(|xs|, hi)
  {
    if |xs| > 0 {
      var init := xs[..|xs| - 1];
      assert forall i :: 0 <= i < |init| ==> init[i] == xs[i];
      SumFWithin(init, lo, hi);
      assert SumF(xs) == Finite(SumF(init).v + xs[|xs| - 1].v);
    }
  }

  lemma MeanWithin(sum: real, n: real, lo: real, hi: real)
    requires n > 0.0 && n * lo <= sum <= n * hi
    ensures lo <= sum / n <= hi
  {
    assert sum / n * n == sum;
  }

  lemma MeanWithinTimes(sum: real, n: nat, lo: real, hi: real)
    requires n > 0 && Times(n, lo) <= sum <= Times(n, hi)
    ensures lo <= sum / (n as real) <= hi
  {
    TimesIsProduct(n, lo);
    TimesIsProduct(n, hi);
    MeanWithin(sum, n as real, lo, hi);
  }

  /** Each Huber step moves a finite location by at most k * s: the clipped
      values, and so their mean, lie in [mu - k*s, mu + k*s]. */
  lemma StepWithinClipBounds(ys: seq<real>, mu: real, s: real, k: real)
    requires |ys| > 0 && k >= 0.0 && s >= 0.0
    ensures Step(ys, Finite(mu), Finite(s), k).Finite?
    ensures mu - k * s <= Step(ys, Finite(mu), Finite(s), k).v <= mu + k * s
  {
    var lo := mu - k * s;
    var hi := mu + k * s;
    assert Sub(Finite(mu), Mul(Finite(k), Finite(s))) == Finite(lo);
    assert Add(Finite(mu), Mul(Finite(k), Finite(s))) == Finite(hi);
    var c := seq(|ys|, i requires 0 <= i < |ys| => Clip(ys[i], Finite(lo), Finite(hi)));
    forall i | 0 <= i < |c|
      ensures c[i].Finite? && lo <= c[i].v <= hi
    {
      ClipFinite(ys[i], lo, hi);
    }
    assert Step(ys, Finite(mu), Finite(s), k) == Mean(c);
    SumFWithin(c, lo, hi);
    assert Mean(c) == Finite(SumF(c).v / (|c| as real));
    MeanWithinTimes(SumF(c).v, |c|, lo, hi);
  }

  /** The corrected `huber` spelled out step by step: reject an empty
      sample, then a zero scale, then run the loop from the median. */
  lemma HuberSpecSteps(y: seq<Option<real>>, k: real, tol: real, fuel: nat)
    ensures var ys := Present(y);
      HuberSpec(y, k, tol, fuel)
      == if |ys| == 0 then Err(EmptySample)
         else if Scale(ys, Median(ys)) == Finite(0.0) then Err(ZeroScale(ZeroScaleMessage))
         else match Iterate(ys, Median(ys), Scale(ys, Median(ys)), k, tol, fuel)
           case None => Err(NotConverged)
           case Some(m) => Ok((m, Scale(ys, Median(ys))))
  {
  }

  /** The `while True` loop of `huber`, at most `maxIterations` times. */
  method IterateLoop(ys: seq<real>, mu0: Float, s: Float, k: real, tol: real, maxIterations: nat)
    returns (o: Option<Float>)
    ensures o == Iterate(ys, mu0, s, k, tol, maxIterations)
  {
    var mu := mu0;
    var i := 0;
    while i < maxIterations
      invariant 0 <= i <= maxIterations
      invariant Iterate(ys, mu, s, k, tol, maxIterations - i) == Iterate(ys, mu0, s, k, tol, maxIterations)
    {
      var mu1 := Step(ys, mu, s, k);
      if Stops(mu, mu1, s, tol) {
        return Some(mu);
      }
      mu := mu1;
      i := i + 1;
    }
    return None;
  }

  /** `huber`: the loop reassigns `mu` until the stop rule holds, here at
      most `maxIterations` times. */
  method HuberEstimate(y: seq<Option<real>>, k: real, tol: real, maxIterations: nat)
    returns (r: Result<(Float, Float), HuberError>)
    ensures r == HuberSpec(y, k, tol, maxIterations)
  {
    HuberSpecSteps(y, k, tol, maxIterations);
    var ys := Present(y);
    if |ys| == 0 {
      return Err(EmptySample);
    }
    var mu := Median(ys);
    var s := Scale(ys, mu);
    if s == Finite(0.0) {
      return Err(ZeroScale(ZeroScaleMessage));
    }
    var o := IterateLoop(ys, mu, s, k, tol, maxIterations);
    match o
    case None => return Err(NotConverged);
    case Some(m) => return Ok((m, s));
  }
}
