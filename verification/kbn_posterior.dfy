/** The posterior machinery of the Kraft, Burrows & Nousek (1991) interval:
    the normalisation constant `_cconst`, the posterior density `_fcnb` and
    its self-normalising form `_fnb`.

    `exp` is not computable over the reals, so it is a parameter of every
    member that needs it; the only law assumed of it is that it is positive
    (plus `exp(0) == 1` where a lemma says so). `gamma(n + 1)` on integers is
    `Fact(n)`, and `B ** n` is the exact power `Pow(B, n)`. */
module KbnPosterior {
  import opened Wrappers
  import opened Numeric

  /** The ways `kbn_conf` can fail. The first three are `kbn_conf`'s
      `ValueError`s, `ZeroDivision` is the `ZeroDivisionError` raised by
      `1. / s` when the normalisation sum is empty, and `ConvergenceFailure`
      stands for running out of loop iterations. */
  datatype KbnError =
    | InvalidCount
    | InvalidConfidence
    | InvalidBackground
    | ZeroDivision
    | ConvergenceFailure

  /** The law assumed of the abstract exponential. */
  ghost predicate ExpPositive(exp: real -> real)
  {
    forall x :: exp(x) > 0.0
  }

  /** The Poisson probability of `n` background events, `exp(-B) * B^n / n!`,
      with `e` standing for the value of `exp(-B)`. */
  function PoissonTerm(n: nat, b: real, e: real): real
  {
    e * Pow(b, n) / (Fact(n) as real)
  }

  /** The sum of the first `count` Poisson terms, n = 0 .. count - 1. */
  function PoissonSum(count: nat, b: real, e: real): real
  {
    if count == 0 then 0.0 else PoissonSum(count - 1, b, e) + PoissonTerm(count - 1, b, e)
  }

  lemma PoissonTermNonNegative(n: nat, b: real, e: real)
    requires b >= 0.0 && e > 0.0
    ensures PoissonTerm(n, b, e) >= 0.0
  {
    PowNonNegative(b, n);
  }

  /** With a non-negative background the sum is dominated by its n = 0 term `e`. */
  lemma {:induction false} PoissonSumAtLeastFirst(count: nat, b: real, e: real)
    requires count >= 1 && b >= 0.0 && e > 0.0
    ensures PoissonSum(count, b, e) >= e
  {
    if count > 1 {
      PoissonSumAtLeastFirst(count - 1, b, e);
      PoissonTermNonNegative(count - 1, b, e);
    }
  }

  /** With no background every term but the n = 0 one vanishes. */
  lemma {:induction false} PoissonSumNoBackground(count: nat, e: real)
    requires count >= 1
    ensures PoissonSum(count, 0.0, e) == e
  {
    if count > 1 {
      PoissonSumNoBackground(count - 1, e);
      PowZeroBase(count - 1);
    }
  }

  /** Number of passes of the summation loop: one per n from 0 to N, none
      when N is negative. */
  function TermCount(n: int): nat
  {
    if n >= 0 then n + 1 else 0
  }

  lemma PoissonSumFacts(n: int, b: real, e: real)
    requires b >= 0.0 && e > 0.0
    ensures PoissonSum(TermCount(n), b, e) == 0.0 <==> n < 0
    ensures n >= 0 ==> PoissonSum(TermCount(n), b, e) >= e
    ensures n >= 0 && b == 0.0 ==> PoissonSum(TermCount(n), b, e) == e
  {
    if n >= 0 {
      PoissonSumAtLeastFirst(n + 1, b, e);
      if b == 0.0 {
        PoissonSumNoBackground(n + 1, e);
      }
    }
  }

  lemma Reciprocal(s: real, e: real)
    requires s >= e > 0.0
    ensures 1.0 / s > 0.0 && (1.0 / s) * s == 1.0 && 1.0 / s <= 1.0 / e
  {
  }

  /** `_cconst(N, B)`: the reciprocal of the probability of at most N
      background events, which makes the posterior integrate to one. For a
      negative N the sum has no terms and the division raises. */
  function NormConst(n: int, b: real, exp: real -> real): (r: Result<real, KbnError>)
    requires b >= 0.0 && ExpPositive(exp)
    ensures r.Success? <==> n >= 0
    ensures r.Failure? ==> r.error == ZeroDivision
    ensures r.Success? ==> r.value > 0.0 && r.value * PoissonSum(n + 1, b, exp(-b)) == 1.0
    ensures r.Success? ==> r.value <= 1.0 / exp(-b)
    ensures n >= 0 && b == 0.0 && exp(0.0) == 1.0 ==> r == Success(1.0)
  {
    PoissonSumFacts(n, b, exp(-b));
    var s := PoissonSum(TermCount(n), b, exp(-b));
    if n >= 0 then
      Reciprocal(s, exp(-b));
      Success(1.0 / s)
    else
      // the sum has no terms, so it is zero and the division by it raises
      Failure(ZeroDivision)
  }

  /** `_cconst` as the Python code writes it: an accumulation loop over n = 0 .. N. */
  method CConst(n: int, b: real, exp: real -> real) returns (r: Result<real, KbnError>)
    requires b >= 0.0 && ExpPositive(exp)
    ensures r == NormConst(n, b, exp)
  {
    var s := 0.0;
    var k := 0;
    while k < n + 1
      invariant 0 <= k <= TermCount(n)
      invariant s == PoissonSum(k, b, exp(-b))
    {
      s := s + PoissonTerm(k, b, exp(-b));
      k := k + 1;
    }
    if s == 0.0 {
      r := Failure(ZeroDivision);
    } else {
      r := Success(1.0 / s);
    }
  }

  /** `_fcnb(C, N, B, S)`: the posterior density of the source rate S. */
  function Density(c: real, n: nat, b: real, s: real, exp: real -> real): (r: real)
    requires ExpPositive(exp)
    ensures c > 0.0 && s + b >= 0.0 ==> r >= 0.0
    ensures c > 0.0 && (s + b > 0.0 || n == 0) ==> r > 0.0
    ensures n > 0 && s + b == 0.0 ==> r == 0.0
  {
    assert s + b > 0.0 ==> Pow(s + b, n) > 0.0 by {
      if s + b > 0.0 { PowPositive(s + b, n); }
    }
    assert s + b == 0.0 && n > 0 ==> Pow(s + b, n) == 0.0 by {
      if s + b == 0.0 && n > 0 { PowZeroBase(n); }
    }
    c * exp(-(s + b)) * Pow(s + b, n) / (Fact(n) as real)
  }

  /** `_fnb(N, B, S)`: the density with its own normalisation constant. */
  function Fnb(n: int, b: real, s: real, exp: real -> real): (r: Result<real, KbnError>)
    requires b >= 0.0 && ExpPositive(exp)
    ensures r.Success? <==> n >= 0
    ensures r.Failure? ==> r.error == ZeroDivision
    ensures r.Success? && s + b >= 0.0 ==> r.value >= 0.0
    ensures r.Success? && s + b > 0.0 ==> r.value > 0.0
  {
    match NormConst(n, b, exp)
    case Failure(e) => Failure(e)
    case Success(c) => Success(Density(c, n, b, s, exp))
  }

  /** With no counts and no background the posterior is the unit exponential
      density `exp(-S)`. */
  lemma FnbNoCountsNoBackground(s: real, exp: real -> real)
    requires ExpPositive(exp) && exp(0.0) == 1.0
    ensures Fnb(0, 0.0, s, exp) == Success(exp(-s))
  {
    assert NormConst(0, 0.0, exp) == Success(1.0);
    assert Pow(s, 0) == 1.0;
  }
}
