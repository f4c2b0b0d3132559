/** `kbn_conf(N, B, CL)`: argument validation, the start at the corrected
    posterior mode and the bidirectional expansion loop, plus the elementwise
    wrapper `vec_kbn_conf`.

    The loop calls `quad(f, a, b)` on the posterior density `f` of the call;
    that integral is the parameter `integ(a, b)`, of which only
    non-negativity is assumed (and, where a contract says so, additivity). The
    loop of `kbn_conf` need not terminate, so `fuel` bounds the number of
    passes and running out is `ConvergenceFailure`. */
module KbnSearch {
  import opened Wrappers
  import opened Numeric
  import opened KbnPosterior

  /** `tol`: the minimum step size. */
  const Tol: real := 0.000001

  /** The arguments once validated: `N` as an integer, `B` and `CL` as given. */
  datatype Args = Args(n: int, b: real, cl: real)

  /** The argument checks of `kbn_conf`, in `kbn_conf`'s order: `int(N) == N`,
      then `0 < CL < 1`, then `B >= 0`. A negative integral N passes. */
  function Validate(n: real, b: real, cl: real): (r: Result<Args, KbnError>)
    ensures r == Failure(InvalidCount) <==> n.Floor as real != n
    ensures r == Failure(InvalidConfidence) <==> n.Floor as real == n && (cl <= 0.0 || cl >= 1.0)
    ensures r == Failure(InvalidBackground) <==> n.Floor as real == n && 0.0 < cl < 1.0 && b < 0.0
    ensures r.Success? <==> n.Floor as real == n && 0.0 < cl < 1.0 && b >= 0.0
    ensures r.Success? ==> r.value.n as real == n && r.value.b == b && r.value.cl == cl
  {
    var k := Trunc(n);
    TruncExact(n);
    if k as real != n then Failure(InvalidCount)
    else if cl <= 0.0 || cl >= 1.0 then Failure(InvalidConfidence)
    else if b < 0.0 then Failure(InvalidBackground)
    else Success(Args(k, b, cl))
  }

  /** What is assumed of `quad(f, a, b)` for the posterior density `f`. */
  ghost predicate IntegNonNeg(integ: (real, real) -> real)
  {
    forall a, b :: 0.0 <= a <= b ==> integ(a, b) >= 0.0
  }

  /** The exact integral is additive over adjacent sub-intervals. */
  ghost predicate MassAdditive(integ: (real, real) -> real)
  {
    forall a, b, c :: 0.0 <= a <= b <= c ==> integ(a, b) + integ(b, c) == integ(a, c)
  }

  /** One scalar search problem: the validated arguments, the normalisation
      constant and the abstract numerics. */
  datatype Problem = Problem(n: nat, b: real, cl: real, c: real,
                             exp: real -> real, integ: (real, real) -> real)
  {
    ghost predicate Valid()
    {
      && 0.0 < cl < 1.0
      && b >= 0.0
      && c > 0.0
      && ExpPositive(exp)
      && IntegNonNeg(integ)
    }
  }

  /** The density that the search integrates: the posterior of this call's
      N and B, with its normalisation constant C. */
  function F(p: Problem, s: real): real
    requires ExpPositive(p.exp)
  {
    Density(p.c, p.n, p.b, s, p.exp)
  }

  /** The corrected posterior mode `max(N - B, 0)`: the paper's `B + N` is a typo. */
  function Mode(p: Problem): real
  {
    Max(p.n as real - p.b, 0.0)
  }

  /** The working state of one search. */
  datatype SearchState = SearchState(smin: real, smax: real, fmin: real, fmax: real, conf: real)

  /** The branch test of the loop: grow the upper side when the lower bound is
      pinned at zero or when its density is the lower one. */
  predicate UpperSide(s: SearchState)
  {
    s.smin == 0.0 || s.fmin < s.fmax
  }

  /** What holds of the search state before and after every pass. */
  ghost predicate Inv(p: Problem, s: SearchState)
    requires p.Valid()
  {
    && 0.0 <= s.smin <= Mode(p) <= s.smax
    && s.fmin == F(p, s.smin)
    && s.fmax == F(p, s.smax)
    && s.fmax > 0.0
    && (s.smin > 0.0 ==> s.fmin > 0.0)
    && s.conf >= 0.0
    && (s.smin == Mode(p) || s.smin == 0.0 || s.smin >= Tol)
  }

  /** Above the mode the density is positive: `S + B > 0` or `N == 0`. */
  lemma DensityPositiveFrom(p: Problem, s: real)
    requires p.Valid()
    requires s >= Mode(p) || s > 0.0
    ensures F(p, s) > 0.0
  {
    if p.n > 0 {
      assert s + p.b > 0.0;
    }
  }

  /** The start state: both bounds at the corrected mode, both boundary
      densities taken there, and no accumulated probability yet. */
  function Init(p: Problem): SearchState
    requires ExpPositive(p.exp)
  {
    var s0 := Mode(p);
    SearchState(s0, s0, F(p, s0), F(p, s0), 0.0)
  }

  lemma InitInv(p: Problem)
    requires p.Valid()
    ensures Inv(p, Init(p))
    ensures MassAdditive(p.integ) ==> Init(p).conf == p.integ(Init(p).smin, Init(p).smax)
  {
    DensityPositiveFrom(p, Mode(p));
    var s0 := Mode(p);
    if MassAdditive(p.integ) {
      assert p.integ(s0, s0) + p.integ(s0, s0) == p.integ(s0, s0);
    }
  }

  /** The step size on the upper side. */
  function UpperStepSize(p: Problem, s: SearchState): (h: real)
    requires p.Valid() && s.fmax > 0.0
    ensures h >= Tol
  {
    Max(0.2 * Abs(p.cl - s.conf) / p.cl / s.fmax, Tol)
  }

  /** The step size on the lower side: at most a tenth of `smin`, unless that
      is below `tol`. */
  function LowerStepSize(p: Problem, s: SearchState): (h: real)
    requires p.Valid() && s.fmin > 0.0
    ensures Tol <= h <= Max(0.1 * s.smin, Tol)
  {
    Max(Min(0.2 * Abs(p.cl - s.conf) / p.cl / s.fmin, 0.1 * s.smin), Tol)
  }

  /** One pass of `while conf < CL`. */
  function Step(p: Problem, s: SearchState): (t: SearchState)
    requires p.Valid() && Inv(p, s) && s.conf < p.cl
    ensures Inv(p, t)
  {
    if UpperSide(s) then
      var h := UpperStepSize(p, s);
      var hi := s.smax + h;
      DensityPositiveFrom(p, hi);
      SearchState(s.smin, hi, s.fmin, F(p, hi), s.conf + p.integ(s.smax, hi))
    else
      var h := LowerStepSize(p, s);
      if s.smin - h < Tol then
        SearchState(0.0, s.smax, F(p, 0.0), s.fmax, s.conf + p.integ(0.0, s.smin))
      else
        var lo := s.smin - h;
        DensityPositiveFrom(p, lo);
        SearchState(lo, s.smax, F(p, lo), s.fmax, s.conf + p.integ(lo, s.smin))
  }

  /** How one pass moves the state. */
  lemma StepMoves(p: Problem, s: SearchState)
    requires p.Valid() && Inv(p, s) && s.conf < p.cl
    ensures var t := Step(p, s);
      && t.smin <= s.smin && s.smax <= t.smax
      && s.conf <= t.conf
      && (s.smin == 0.0 ==> t.smin == 0.0)
      && (UpperSide(s) ==> t.smin == s.smin && t.smax >= s.smax + Tol)
      && (!UpperSide(s) ==>
            && t.smax == s.smax
            && t.smin < s.smin
            && (t.smin == 0.0 || (t.smin >= Tol && s.smin - t.smin <= Max(0.1 * s.smin, Tol)))
            && (t.smin == 0.0 <==> s.smin - LowerStepSize(p, s) < Tol)
            && (t.smin != 0.0 ==> t.smin == s.smin - LowerStepSize(p, s)))
      && (t.smax - t.smin >= s.smax - s.smin + Tol || (s.smin > 0.0 && t.smin == 0.0))
  {
  }

  /** Under additivity, `conf` stays the mass of `[smin, smax]`. */
  lemma StepKeepsMass(p: Problem, s: SearchState)
    requires p.Valid() && Inv(p, s) && s.conf < p.cl
    requires MassAdditive(p.integ) && s.conf == p.integ(s.smin, s.smax)
    ensures Step(p, s).conf == p.integ(Step(p, s).smin, Step(p, s).smax)
  {
  }

  /** The loop as a recursive function: stop once `conf >= CL`, fail when the
      fuel is spent. */
  function Run(p: Problem, s: SearchState, fuel: nat): Result<SearchState, KbnError>
    requires p.Valid() && Inv(p, s)
    decreases fuel
  {
    if s.conf >= p.cl then Success(s)
    else if fuel == 0 then Failure(ConvergenceFailure)
    else Run(p, Step(p, s), fuel - 1)
  }

  /** What a whole run guarantees, pass by pass. */
  lemma {:induction false} RunOutcome(p: Problem, s: SearchState, fuel: nat)
    requires p.Valid() && Inv(p, s)
    ensures var r := Run(p, s, fuel);
      && (r.Failure? ==> r.error == ConvergenceFailure)
      && (r.Success? ==> Inv(p, r.value) && r.value.conf >= p.cl)
      && (r.Success? ==> r.value.smin <= s.smin && s.smax <= r.value.smax && s.conf <= r.value.conf)
      && (r.Success? && s.smin == 0.0 ==> r.value.smin == 0.0)
      && (r.Success? && MassAdditive(p.integ) && s.conf == p.integ(s.smin, s.smax) ==>
            p.integ(r.value.smin, r.value.smax) >= p.cl)
    decreases fuel
  {
    if s.conf < p.cl && fuel > 0 {
      StepMoves(p, s);
      if MassAdditive(p.integ) && s.conf == p.integ(s.smin, s.smax) {
        StepKeepsMass(p, s);
      }
      RunOutcome(p, Step(p, s), fuel - 1);
    }
  }

  /** The `while conf < CL` loop as written, with at most `fuel` passes. */
  method Search(p: Problem, fuel: nat) returns (r: Result<SearchState, KbnError>)
    requires p.Valid()
    ensures r == Run(p, Init(p), fuel)
  {
    InitInv(p);
    var s := Init(p);
    var passes := 0;
    while s.conf < p.cl && passes < fuel
      invariant 0 <= passes <= fuel
      invariant Inv(p, s)
      invariant Run(p, s, fuel - passes) == Run(p, Init(p), fuel)
      decreases fuel - passes
    {
      assert Run(p, s, fuel - passes) == Run(p, Step(p, s), fuel - passes - 1);
      s := Step(p, s);
      passes := passes + 1;
    }
    if s.conf < p.cl {
      assert fuel - passes == 0;
      r := Failure(ConvergenceFailure);
    } else {
      r := Success(s);
    }
  }

  /** The returned pair `(smin, smax)`. */
  datatype Interval = Interval(smin: real, smax: real)

  /** `kbn_conf(N, B, CL)` with at most `fuel` passes of the loop. */
  function KbnConf(n: real, b: real, cl: real, exp: real -> real,
                   integ: (real, real) -> real, fuel: nat): (r: Result<Interval, KbnError>)
    requires ExpPositive(exp) && IntegNonNeg(integ)
    ensures n.Floor as real != n ==> r == Failure(InvalidCount)
    ensures n.Floor as real == n && (cl <= 0.0 || cl >= 1.0) ==> r == Failure(InvalidConfidence)
    ensures n.Floor as real == n && 0.0 < cl < 1.0 && b < 0.0 ==> r == Failure(InvalidBackground)
    ensures n.Floor as real == n && 0.0 < cl < 1.0 && b >= 0.0 && n < 0.0 ==> r == Failure(ZeroDivision)
    ensures n.Floor as real == n && 0.0 < cl < 1.0 && b >= 0.0 && n >= 0.0 && r.Failure? ==>
              r.error == ConvergenceFailure
    ensures r.Success? ==> n.Floor as real == n && n >= 0.0 && 0.0 < cl < 1.0 && b >= 0.0
    ensures r.Success? ==> 0.0 <= r.value.smin <= Max(n - b, 0.0) <= r.value.smax
    ensures r.Success? && n <= b ==> r.value.smin == 0.0
    ensures r.Success? && MassAdditive(integ) ==> integ(r.value.smin, r.value.smax) >= cl
  {
    match Validate(n, b, cl)
    case Failure(e) => Failure(e)
    case Success(args) =>
      match NormConst(args.n, args.b, exp)
      case Failure(e) => Failure(e)
      case Success(c) =>
        var p := Problem(args.n, args.b, args.cl, c, exp, integ);
        InitInv(p);
        RunOutcome(p, Init(p), fuel);
        match Run(p, Init(p), fuel)
        case Failure(e) => Failure(e)
        case Success(s) => Success(Interval(s.smin, s.smax))
  }

  /** `kbn_conf` as the Python code runs it: the validation, the `_cconst` loop and
      the search loop. */
  method ComputeInterval(n: real, b: real, cl: real, exp: real -> real,
                         integ: (real, real) -> real, fuel: nat) returns (r: Result<Interval, KbnError>)
    requires ExpPositive(exp) && IntegNonNeg(integ)
    ensures r == KbnConf(n, b, cl, exp, integ, fuel)
  {
    var v := Validate(n, b, cl);
    if v.Failure? {
      return Failure(v.error);
    }
    var args := v.value;
    var c := CConst(args.n, args.b, exp);
    if c.Failure? {
      return Failure(c.error);
    }
    var p := Problem(args.n, args.b, args.cl, c.value, exp, integ);
    var s := Search(p, fuel);
    if s.Failure? {
      return Failure(s.error);
    }
    r := Success(Interval(s.value.smin, s.value.smax));
  }

  /** One aligned element of the broadcast inputs of `vec_kbn_conf`. */
  datatype Query = Query(n: real, b: real, cl: real)

  /** `vec_kbn_conf` on already-broadcast inputs: `kbn_conf` element by
      element, in order, raising the first error met. Each element's call
      integrates its own posterior, so the integral is chosen by the
      element's N and B: `integ(n, b)` is that call's integral. */
  function VecKbnConf(qs: seq<Query>, exp: real -> real,
                      integ: (real, real) -> ((real, real) -> real), fuel: nat)
    : (r: Result<seq<Interval>, KbnError>)
    requires ExpPositive(exp) && forall n, b :: IntegNonNeg(integ(n, b))
    ensures r.Success? ==>
              && |r.value| == |qs|
              && forall i :: 0 <= i < |qs| ==>
                   KbnConf(qs[i].n, qs[i].b, qs[i].cl, exp, integ(qs[i].n, qs[i].b), fuel)
                     == Success(r.value[i])
    ensures r.Failure? ==>
              exists i :: 0 <= i < |qs|
                && KbnConf(qs[i].n, qs[i].b, qs[i].cl, exp, integ(qs[i].n, qs[i].b), fuel)
                     == Failure(r.error)
                && forall j :: 0 <= j < i ==>
                     KbnConf(qs[j].n, qs[j].b, qs[j].cl, exp, integ(qs[j].n, qs[j].b), fuel).Success?
  {
    if |qs| == 0 then Success([])
    else
      match KbnConf(qs[0].n, qs[0].b, qs[0].cl, exp, integ(qs[0].n, qs[0].b), fuel)
      case Failure(e) => Failure(e)
      case Success(iv) =>
        match VecKbnConf(qs[1..], exp, integ, fuel)
        case Failure(e) => Failure(e)
        case Success(rest) => Success([iv] + rest)
  }
}
