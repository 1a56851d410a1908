/** Normal+exponential background correction (`normexp_signal` and
    `normexp_get_xs` in preprocessing_functions.py). The transcendental
    functions (exp, log and the normal log-density and log-survival at 0)
    are passed in as `Numerics`; what is modelled is the order of the
    guards, the floor applied to negative signals, the alpha floor of 10
    and the offset. */
module Normexp {
  import opened Wrappers
  import opened Floats
  import Huber

  /** One row of `param`: mu, log sigma and log alpha. */
  datatype Par = Par(mu: Float, logSigma: Float, logAlpha: Float)

  /** `np.exp`, `np.log`, `norm.logpdf(0, loc, scale)` and
      `norm.logsf(0, loc, scale)`. */
  datatype Numerics = Numerics(
    exp: Float -> Float,
    log: Float -> Float,
    logPdfAtZero: (Float, Float) -> Float,
    logSfAtZero: (Float, Float) -> Float)

  datatype NormexpError =
    | ValueError(message: string)
    | HuberFailed(cause: Huber.HuberError)
    | IndexError

  const AlphaMessage := "alpha must be positive"
  const SigmaMessage := "sigma must be positive"
  const NeedControlsOrParam := "'controls' or 'param' must be given"

  /** The smallest value a negative signal is raised to. */
  const SmallSignal: real := 0.000001

  /** An intensity: a finite real, or NaN as `None`. */
  function ToFloat(o: Option<real>): Float {
    match o
    case Some(v) => Finite(v)
    case None => NaN
  }

  /** The expected signal given the observed foreground, before the floor:
      mu_sf + sigma^2 * exp(logpdf - logsf), with
      mu_sf = x - mu - sigma^2 / alpha. */
  function RawSignal(num: Numerics, par: Par, x: seq<Option<real>>): (r: seq<Float>)
    ensures |r| == |x|
  {
    var sigma := num.exp(par.logSigma);
    var sigma2 := Mul(sigma, sigma);
    var alpha := num.exp(par.logAlpha);
    seq(|x|, i requires 0 <= i < |x| =>
      var muSf := Sub(Sub(ToFloat(x[i]), par.mu), Div(sigma2, alpha));
      Add(muSf, Mul(sigma2, num.exp(Sub(num.logPdfAtZero(muSf, sigma), num.logSfAtZero(muSf, sigma))))))
  }

  /** Some defined signal is below zero (a comparison with NaN is false). */
  predicate AnyNegative(signal: seq<Float>) {
    exists i :: 0 <= i < |signal| && Less(signal[i], Finite(0.0))
  }

  /** The numerical-accuracy floor: if any defined signal is negative,
      every defined signal becomes max(signal, 1e-6). */
  function FloorSignal(signal: seq<Float>): (r: seq<Float>)
    ensures |r| == |signal|
  {
    if AnyNegative(signal) then
      seq(|signal|, i requires 0 <= i < |signal| =>
        if signal[i].NaN? then NaN else Max(signal[i], Finite(SmallSignal)))
    else signal
  }

  /** The floor keeps NaN where it was, leaves the signal alone when nothing
      is negative, and otherwise raises every defined value to at least 1e-6
      while keeping those already above it; either way no defined value is
      negative afterwards. */
  lemma FloorPolicy(signal: seq<Float>)
    ensures var r := FloorSignal(signal);
      && (forall i :: 0 <= i < |r| ==> (r[i].NaN? <==> signal[i].NaN?))
      && (!AnyNegative(signal) ==> r == signal)
      && (AnyNegative(signal) ==> forall i :: 0 <= i < |r| && !r[i].NaN? ==>
            LessEq(Finite(SmallSignal), r[i])
            && (LessEq(Finite(SmallSignal), signal[i]) ==> r[i] == signal[i]))
      && (forall i :: 0 <= i < |r| && !r[i].NaN? ==> LessEq(Finite(0.0), r[i]))
  {
    var r := FloorSignal(signal);
    if !AnyNegative(signal) {
      forall i | 0 <= i < |r| && !r[i].NaN?
        ensures LessEq(Finite(0.0), r[i])
      {
        assert !Less(signal[i], Finite(0.0));
      }
    }
  }

  /** `normexp_signal`: alpha <= 0 is rejected before sigma <= 0, both
      after exponentiation (so NaN passes both tests); otherwise the
      floored signal, one value per intensity, none of them negative. */
  function NormexpSignal(num: Numerics, par: Par, x: seq<Option<real>>): (r: Result<seq<Float>, NormexpError>)
    ensures var alpha := num.exp(par.logAlpha);
            var sigma := num.exp(par.logSigma);
      && (r == Err(ValueError(AlphaMessage)) <==> LessEq(alpha, Finite(0.0)))
      && (r == Err(ValueError(SigmaMessage)) <==> !LessEq(alpha, Finite(0.0)) && LessEq(sigma, Finite(0.0)))
      && (r.Err? ==> r.error == ValueError(AlphaMessage) || r.error == ValueError(SigmaMessage))
    ensures r.Ok? ==>
              && |r.value| == |x|
              && forall i :: 0 <= i < |x| && !r.value[i].NaN? ==> LessEq(Finite(0.0), r.value[i])
  {
    var alpha := num.exp(par.logAlpha);
    var sigma := num.exp(par.logSigma);
    if LessEq(alpha, Finite(0.0)) then Err(ValueError(AlphaMessage))
    else if LessEq(sigma, Finite(0.0)) then Err(ValueError(SigmaMessage))
    else
      FloorPolicy(RawSignal(num, par, x));
      Ok(FloorSignal(RawSignal(num, par, x)))
  }

  /** Python's built-in `max(a, 10)`: keeps `a` unless 10 is larger, so NaN
      is kept. */
  function FloorAlpha(a: Float): (r: Float)
    ensures r.NaN? || LessEq(Finite(10.0), r)
    ensures r.NaN? <==> a.NaN?
  {
    if Less(a, Finite(10.0)) then Finite(10.0) else a
  }

  /** mu, sigma and alpha fitted for one probe. */
  datatype Fit = Fit(mu: Float, sigma: Float, alpha: Float)

  const HuberK: real := 1.5
  const HuberTol: real := 0.000001

  /** `mu[i], sigma[i] = huber(controls[i, :])` and
      `alpha[i] = max(huber(xf[i, :])[0] - mu[i], 10)`. */
  function FitRow(xfRow: seq<Option<real>>, controlRow: seq<Option<real>>, maxIterations: nat): (r: Result<Fit, NormexpError>)
    ensures r.Err? ==> r.error.HuberFailed?
    ensures r.Ok? ==> AlphaFloored(r.value.alpha)
  {
    match Huber.HuberSpec(controlRow, HuberK, HuberTol, maxIterations)
    case Err(e) => Err(HuberFailed(e))
    case Ok((m, s)) =>
      match Huber.HuberSpec(xfRow, HuberK, HuberTol, maxIterations)
      case Err(e) => Err(HuberFailed(e))
      case Ok((mx, _)) => Ok(Fit(m, s, FloorAlpha(Sub(mx, m))))
  }

  /** The fitting loop from probe `i` on: the first error, in row order,
      or one fit per remaining row. */
  function FitsFrom(xf: seq<seq<Option<real>>>, controls: seq<seq<Option<real>>>, maxIterations: nat, i: nat)
    : (r: Result<seq<Fit>, NormexpError>)
    requires i <= |xf|
    ensures r.Err? ==> r.error.HuberFailed? || r.error.IndexError?
    ensures r.Ok? ==>
              && |r.value| == |xf| - i
              && AlphasFloored(r.value)
    decreases |xf| - i
  {
    if i == |xf| then Ok([])
    else if i >= |controls| then Err(IndexError)
    else
      match FitRow(xf[i], controls[i], maxIterations)
      case Err(e) => Err(e)
      case Ok(f) =>
        var rest := FitsFrom(xf, controls, maxIterations, i + 1);
        PrependFloored(f, rest);
        Prepend([f], rest)
  }

  /** An alpha that is NaN or at least 10, as `max(alpha, 10)` leaves it. */
  predicate AlphaFloored(a: Float) {
    a.NaN? || LessEq(Finite(10.0), a)
  }

  predicate AlphasFloored(fits: seq<Fit>) {
    forall j :: 0 <= j < |fits| ==> AlphaFloored(fits[j].alpha)
  }

  lemma PrependFloored(f: Fit, rest: Result<seq<Fit>, NormexpError>)
    requires AlphaFloored(f.alpha) && (rest.Ok? ==> AlphasFloored(rest.value))
    ensures Prepend([f], rest).Ok? ==> AlphasFloored(Prepend([f], rest).value)
  {
    if rest.Ok? {
      var fits := [f] + rest.value;
      forall j | 0 <= j < |fits|
        ensures AlphaFloored(fits[j].alpha)
      {
        if j > 0 {
          assert fits[j] == rest.value[j - 1];
        }
      }
    }
  }

  /** The rows already computed, followed by the outcome of the rest of a
      loop. */
  function Prepend<T>(done: seq<T>, rest: Result<seq<T>, NormexpError>): (r: Result<seq<T>, NormexpError>)
    ensures r.Err? <==> rest.Err?
    ensures r.Err? ==> r.error == rest.error
    ensures r.Ok? ==> r.value == done + rest.value
    ensures done == [] ==> r == rest
  {
    match rest
    case Err(e) => Err(e)
    case Ok(v) =>
      assert done == [] ==> done + v == v;
      Ok(done + v)
  }

  lemma PrependTwice<T>(a: seq<T>, b: seq<T>, rest: Result<seq<T>, NormexpError>)
    ensures Prepend(a, Prepend(b, rest)) == Prepend(a + b, rest)
  {
    if rest.Ok? {
      assert a + (b + rest.value) == (a + b) + rest.value;
    }
  }

  /** `np.column_stack((mu, np.log(sigma), np.log(alpha)))`. */
  function Params(num: Numerics, fits: seq<Fit>): (r: seq<Par>)
    ensures |r| == |fits|
  {
    seq(|fits|, j requires 0 <= j < |fits| => Par(fits[j].mu, num.log(fits[j].sigma), num.log(fits[j].alpha)))
  }

  /** The signal loop from row `i` on. */
  function SignalsFrom(num: Numerics, ps: seq<Par>, xf: seq<seq<Option<real>>>, i: nat)
    : (r: Result<seq<seq<Float>>, NormexpError>)
    requires i <= |xf|
    ensures r.Err? ==> r.error.IndexError? || r.error == ValueError(AlphaMessage) || r.error == ValueError(SigmaMessage)
    ensures r.Ok? ==>
              && |r.value| == |xf| - i
              && (forall j :: 0 <= j < |r.value| ==> |r.value[j]| == |xf[i + j]|)
              && forall j, l :: 0 <= j < |r.value| && 0 <= l < |r.value[j]| && !r.value[j][l].NaN? ==>
                   LessEq(Finite(0.0), r.value[j][l])
    decreases |xf| - i
  {
    if i == |xf| then Ok([])
    else if i >= |ps| then Err(IndexError)
    else
      match NormexpSignal(num, ps[i], xf[i])
      case Err(e) => Err(e)
      case Ok(signal) => Prepend([signal], SignalsFrom(num, ps, xf, i + 1))
  }

  /** `result + offset`. */
  function AddOffset(rows: seq<seq<Float>>, offset: real): (r: seq<seq<Float>>)
    ensures |r| == |rows| && forall j :: 0 <= j < |r| ==> |r[j]| == |rows[j]|
  {
    seq(|rows|, j requires 0 <= j < |rows| =>
      seq(|rows[j]|, l requires 0 <= l < |rows[j]| => Add(rows[j][l], Finite(offset))))
  }

  datatype NormexpXs = NormexpXs(xs: seq<seq<Float>>, param: seq<Par>)

  /** `normexp_get_xs`: the error when neither `param` nor `controls` is
      given (and only then); a supplied `param` comes back unchanged, a
      fitted one holds alphas floored at 10; `xs` has the shape of `xf` and
      no defined entry below `offset`. */
  function GetXsSpec(
    num: Numerics, xf: seq<seq<Option<real>>>, controls: Option<seq<seq<Option<real>>>>,
    offset: real, param: Option<seq<Par>>, maxIterations: nat)
    : (r: Result<NormexpXs, NormexpError>)
    ensures r == Err(ValueError(NeedControlsOrParam)) <==> param.None? && controls.None?
    ensures param.Some? && r.Ok? ==> r.value.param == param.value
    ensures param.None? && r.Ok? ==>
              && controls.Some?
              && FitsFrom(xf, controls.value, maxIterations, 0).Ok?
              && var fits := FitsFrom(xf, controls.value, maxIterations, 0).value;
                 && r.value.param == Params(num, fits)
                 && AlphasFloored(fits)
    ensures r.Ok? ==>
              && |r.value.xs| == |xf|
              && (forall j :: 0 <= j < |xf| ==> |r.value.xs[j]| == |xf[j]|)
              && forall j, l :: 0 <= j < |xf| && 0 <= l < |xf[j]| && !r.value.xs[j][l].NaN? ==>
                   LessEq(Finite(offset), r.value.xs[j][l])
  {
    var ps :=
      if param.Some? then Ok(param.value)
      else if controls.None? then Err(ValueError(NeedControlsOrParam))
      else match FitsFrom(xf, controls.value, maxIterations, 0)
        case Err(e) => Err(e)
        case Ok(fits) => Ok(Params(num, fits));
    match ps
    case Err(e) => Err(e)
    case Ok(p) =>
      match SignalsFrom(num, p, xf, 0)
      case Err(e) => Err(e)
      case Ok(rows) =>
        OffsetKeepsBound(rows, offset);
        Ok(NormexpXs(AddOffset(rows, offset), p))
  }

  lemma OffsetKeepsBound(rows: seq<seq<Float>>, offset: real)
    requires forall j, l :: 0 <= j < |rows| && 0 <= l < |rows[j]| && !rows[j][l].NaN? ==> LessEq(Finite(0.0), rows[j][l])
    ensures forall j, l :: 0 <= j < |rows| && 0 <= l < |rows[j]| && !AddOffset(rows, offset)[j][l].NaN? ==>
              LessEq(Finite(offset), AddOffset(rows, offset)[j][l])
  {
  }

  /** The first `k` fits held in the three arrays of the fitting loop. */
  function Fits(mus: seq<Float>, sigmas: seq<Float>, alphas: seq<Float>, k: nat): (r: seq<Fit>)
    requires k <= |mus| && k <= |sigmas| && k <= |alphas|
    ensures |r| == k
  {
    seq(k, j requires 0 <= j < k => Fit(mus[j], sigmas[j], alphas[j]))
  }

  lemma FitsExtend(mus: seq<Float>, sigmas: seq<Float>, alphas: seq<Float>, i: nat, f: Fit)
    requires i < |mus| && i < |sigmas| && i < |alphas|
    ensures Fits(mus[i := f.mu], sigmas[i := f.sigma], alphas[i := f.alpha], i + 1) == Fits(mus, sigmas, alphas, i) + [f]
  {
  }

  /** One iteration of the fitting loop: two Huber estimates. */
  method FitProbe(xfRow: seq<Option<real>>, controlRow: seq<Option<real>>, maxIterations: nat)
    returns (r: Result<Fit, NormexpError>)
    ensures r == FitRow(xfRow, controlRow, maxIterations)
  {
    var hc := Huber.HuberEstimate(controlRow, HuberK, HuberTol, maxIterations);
    if hc.Err? {
      return Err(HuberFailed(hc.error));
    }
    var hx := Huber.HuberEstimate(xfRow, HuberK, HuberTol, maxIterations);
    if hx.Err? {
      return Err(HuberFailed(hx.error));
    }
    return Ok(Fit(hc.value.0, hc.value.1, FloorAlpha(Sub(hx.value.0, hc.value.0))));
  }

  /** One successful probe moves from the rest of the fitting loop to the
      fits already computed. */
  lemma FitsFromStep(xf: seq<seq<Option<real>>>, c: seq<seq<Option<real>>>, maxIterations: nat, i: nat,
                     done: seq<Fit>, f: Fit)
    requires i < |xf| && i < |c| && FitRow(xf[i], c[i], maxIterations) == Ok(f)
    ensures Prepend(done, FitsFrom(xf, c, maxIterations, i))
            == Prepend(done + [f], FitsFrom(xf, c, maxIterations, i + 1))
  {
    PrependTwice(done, [f], FitsFrom(xf, c, maxIterations, i + 1));
  }

  /** A missing control row or a failed fit ends the fitting loop with that error. */
  lemma FitsFromStops(xf: seq<seq<Option<real>>>, c: seq<seq<Option<real>>>, maxIterations: nat, i: nat,
                      done: seq<Fit>, e: NormexpError)
    requires i < |xf|
    requires if i >= |c| then e == IndexError else FitRow(xf[i], c[i], maxIterations) == Err(e)
    ensures Prepend(done, FitsFrom(xf, c, maxIterations, i)) == Err(e)
  {
  }

  /** `mu[i], sigma[i], alpha[i] = f`: the arrays then hold one more fit. */
  method StoreFit(mu: array<Float>, sigma: array<Float>, alpha: array<Float>, i: nat, f: Fit)
    requires i < mu.Length && i < sigma.Length && i < alpha.Length
    requires mu != sigma && mu != alpha && sigma != alpha
    modifies mu, sigma, alpha
    ensures Fits(mu[..], sigma[..], alpha[..], i + 1) == Fits(old(mu[..]), old(sigma[..]), old(alpha[..]), i) + [f]
  {
    ghost var ms, ss, als := mu[..], sigma[..], alpha[..];
    mu[i], sigma[i], alpha[i] := f.mu, f.sigma, f.alpha;
    assert mu[..] == ms[i := f.mu];
    assert sigma[..] == ss[i := f.sigma];
    assert alpha[..] == als[i := f.alpha];
    FitsExtend(ms, ss, als, i, f);
  }

  /** The fitting loop of `normexp_get_xs`: fills the `mu`, `sigma` and
      `alpha` arrays probe by probe. */
  method FitAll(xf: seq<seq<Option<real>>>, c: seq<seq<Option<real>>>, maxIterations: nat)
    returns (r: Result<seq<Fit>, NormexpError>)
    ensures r == FitsFrom(xf, c, maxIterations, 0)
  {
    var n := |xf|;
    var mu := new Float[n];
    var sigma := new Float[n];
    var alpha := new Float[n];
    var i := 0;
    ghost var done: seq<Fit> := [];
    while i < n
      invariant 0 <= i <= n
      invariant done == Fits(mu[..], sigma[..], alpha[..], i)
      invariant FitsFrom(xf, c, maxIterations, 0) == Prepend(done, FitsFrom(xf, c, maxIterations, i))
    {
      if i >= |c| {
        FitsFromStops(xf, c, maxIterations, i, done, IndexError);
        return Err(IndexError);
      }
      var fit := FitProbe(xf[i], c[i], maxIterations);
      if fit.Err? {
        FitsFromStops(xf, c, maxIterations, i, done, fit.error);
        return Err(fit.error);
      }
      StoreFit(mu, sigma, alpha, i, fit.value);
      FitsFromStep(xf, c, maxIterations, i, done, fit.value);
      done := done + [fit.value];
      i := i + 1;
    }
    assert done + [] == done;
    return Ok(Fits(mu[..], sigma[..], alpha[..], n));
  }

  /** The signal loop of `normexp_get_xs`: `result[i, :] =
      normexp_signal(param[i], xf[i, :])` row by row. */
  method SignalRows(num: Numerics, ps: seq<Par>, xf: seq<seq<Option<real>>>)
    returns (r: Result<seq<seq<Float>>, NormexpError>)
    ensures r == SignalsFrom(num, ps, xf, 0)
  {
    var n := |xf|;
    var result := new seq<Float>[n];
    var i := 0;
    while i < n
      invariant 0 <= i <= n
      invariant SignalsFrom(num, ps, xf, 0) == Prepend(result[..i], SignalsFrom(num, ps, xf, i))
    {
      if i >= |ps| {
        return Err(IndexError);
      }
      var signal := NormexpSignal(num, ps[i], xf[i]);
      if signal.Err? {
        return Err(signal.error);
      }
      PrependTwice(result[..i], [signal.value], SignalsFrom(num, ps, xf, i + 1));
      result[i] := signal.value;
      assert result[..i + 1] == result[..i] + [signal.value];
      i := i + 1;
    }
    assert SignalsFrom(num, ps, xf, n) == Ok([]);
    assert result[..] == result[..n] + [];
    return Ok(result[..]);
  }

  /** `normexp_get_xs`: fits `param` unless it is given, then corrects every
      row and adds the offset. */
  method NormexpGetXs(
    num: Numerics, xf: seq<seq<Option<real>>>, controls: Option<seq<seq<Option<real>>>>,
    offset: real, param: Option<seq<Par>>, maxIterations: nat)
    returns (r: Result<NormexpXs, NormexpError>)
    ensures r == GetXsSpec(num, xf, controls, offset, param, maxIterations)
  {
    var ps: seq<Par>;
    if param.Some? {
      ps := param.value;
    } else {
      if controls.None? {
        return Err(ValueError(NeedControlsOrParam));
      }
      var fits := FitAll(xf, controls.value, maxIterations);
      if fits.Err? {
        return Err(fits.error);
      }
      ps := Params(num, fits.value);
    }
    var rows := SignalRows(num, ps, xf);
    if rows.Err? {
      return Err(rows.error);
    }
    return Ok(NormexpXs(AddOffset(rows.value, offset), ps));
  }
}
