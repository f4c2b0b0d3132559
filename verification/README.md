# KBN confidence intervals and calibrator flux models, in Dafny

This project models two small pieces of a Python astronomy library.

**`scilib/kbn_conf.py`** computes the Bayesian credible interval of Kraft,
Burrows & Nousek (1991) for a Poisson source rate S observed over a known
background B with N counts. It has four parts:

- `_cconst` is the normalisation constant. It is the reciprocal of the
  probability of at most N background events.
- `_fcnb` / `_fnb` give the posterior density
  `C * exp(-(S+B)) * (S+B)^N / N!`.
- `kbn_conf` checks its arguments first. It then starts at the corrected
  posterior mode `max(N - B, 0)` and widens the interval one step at a
  time. Each step grows the side whose boundary density is lower. The lower
  bound is clamped at zero. The loop stops once the accumulated
  probability `conf` reaches CL.
- `vec_kbn_conf` applies `kbn_conf` element by element.

**`calmodels.py`** keeps a table from calibrator source name to flux
model. It holds three kinds of model:

- the Baars et al. (1977) log-polynomial models, which refuse frequencies
  outside their validity range;
- two-point log-linear models fitted to VLA L-band and C-band catalogue
  fluxes;
- a Cas A entry.

`addFromVLA` refuses a duplicate name. The other two inserts overwrite.

## How the numerics are represented

`exp`, `scipy.integrate.quad`, `log10` and `10 **` cannot be computed over
Dafny's `real`, so they are **parameters**. Only the laws that the proofs
need are assumed of them, each as a named ghost predicate:

- `ExpPositive`: `exp(x) > 0`.
- `IntegNonNeg`: `integ(a, b) >= 0` for `0 <= a <= b`. Here `integ(a, b)`
  stands for `quad(f, a, b)[0]`, where `f` is the density of the current
  call.
  `vec_kbn_conf` makes one `kbn_conf` call per element, each with its own
  density, so `VecKbnConf` takes one integral per element, chosen by the
  element's N and B.
- `MassAdditive`: `integ(a, b) + integ(b, c) == integ(a, c)` for
  `0 <= a <= b <= c`. Only the
  contracts that mention it assume it.
- `Log10Increasing`, `Pow10UndoesLog10`, `Log10UndoesPow10`,
  `Pow10Positive`: laws of `log10` and `10 **`.

Everything else is exact:

- `gamma(n + 1)` on integers is `Fact(n)`.
- `B ** n` is the recursive power `Pow`.
- Python's `int()` is truncation toward zero (`Trunc`).
- `max`, `min` and `abs` are written out.
- `cgs.c` (the speed of light in cm/s) is a parameter `c > 0`. The `cgs`
  module is not part of this model.

The `while conf < CL` loop of `kbn_conf` need not terminate. `Search` and `Run` take
a `fuel` bound on the number of passes, and running out of fuel is the
error `ConvergenceFailure`.

The module-level dictionary `models` is a `Table = map<string, Model>`.
Each operation takes it as an argument and returns the new table. A
closure stored in the Python table is represented by the `Model` value it
captures. `BaarsFlux` and `VlaFlux` evaluate that value.

Frequencies given to a flux function are a `seq<real>`: numpy arrays, with
a scalar as a one-element sequence. The guard of the Baars closure uses
`any(freq < fmin)`, so one bad element makes the whole call raise.

### Negative counts

A count N of observed events is non-negative, but the code never checks
this: `int(N) == N` lets a negative integer through. `_cconst` then sums no
terms, and `1. / s` raises `ZeroDivisionError`. The model follows the code.
`Validate` accepts a negative N, and `NormConst` / `KbnConf` report
`ZeroDivision`.

## Model

| member | source | states |
|---|---|---|
| `Numeric.TruncExact` | scilib/kbn_conf.py:69-70 | `int(N) == N` holds exactly when N is an integer, for negative N as well |
| `KbnPosterior.PoissonSumAtLeastFirst` | scilib/kbn_conf.py:25-26 | with B >= 0 the sum of the Poisson terms n = 0..N is at least its first term exp(-B), so it is positive |
| `KbnPosterior.PoissonSumNoBackground` | scilib/kbn_conf.py:25-26 | with B = 0 every term but n = 0 vanishes, so the sum equals exp(-0) |
| `KbnPosterior.NormConst` | scilib/kbn_conf.py:22-28 | succeeds exactly when N >= 0; otherwise ZeroDivision. The constant is positive, times the Poisson sum gives 1, is at most 1/exp(-B), and equals 1 when B = 0 and exp(0) = 1 |
| `KbnPosterior.CConst` | scilib/kbn_conf.py:22-28 | the accumulation loop over n = 0..N returns the same result as the closed-form `NormConst` |
| `KbnPosterior.Density` | scilib/kbn_conf.py:31-32 | the density is >= 0 when C > 0 and S+B >= 0. It is > 0 when also S+B > 0 or N = 0. It is exactly 0 at S = -B when N > 0 |
| `KbnPosterior.Fnb` | scilib/kbn_conf.py:35-36 | the self-normalised density fails exactly when N < 0; otherwise it is non-negative for S+B >= 0, and positive for S+B > 0 |
| `KbnPosterior.FnbNoCountsNoBackground` | scilib/kbn_conf.py:22-36 | with N = 0 and B = 0 the posterior is the unit exponential exp(-S) |
| `KbnSearch.Validate` | scilib/kbn_conf.py:67-80 | rejects a non-integral N, then CL outside (0, 1), then B < 0, in that order. Each error occurs exactly under its condition; on success the arguments pass through unchanged |
| `KbnSearch.DensityPositiveFrom` | scilib/kbn_conf.py:95-107 | the density is positive at and above the mode max(N-B, 0) and at any S > 0, so the loop's divisions by fmax and fmin are defined |
| `KbnSearch.InitInv` | scilib/kbn_conf.py:95-98 | the start state smin = smax = max(N-B, 0), fmin = fmax = f(start), conf = 0 satisfies the loop invariant; under additivity conf is the mass of [smin, smax] |
| `KbnSearch.UpperStepSize` | scilib/kbn_conf.py:102 | an upper step is at least tol = 1e-6 |
| `KbnSearch.LowerStepSize` | scilib/kbn_conf.py:107 | a lower step is between tol and max(0.1*smin, tol) |
| `KbnSearch.Step` | scilib/kbn_conf.py:100-114 | one pass keeps the loop invariant: 0 <= smin <= mode <= smax, with fmin and fmax the densities at the bounds |
| `KbnSearch.StepMoves` | scilib/kbn_conf.py:100-114 | smin never rises, smax never falls, and conf never falls. Once smin is 0 it stays 0. The upper side moves when smin = 0 or fmin < fmax, by at least tol. Otherwise smin falls either to exactly 0 or to a value >= tol, by at most max(0.1*smin, tol). It is clamped to 0 exactly when smin minus the lower step is below tol, and otherwise falls by exactly that step. The width grows by tol except on the one clamping step |
| `KbnSearch.StepKeepsMass` | scilib/kbn_conf.py:100-114 | under additivity, if conf was the mass of [smin, smax] before a pass it is the mass of the new [smin, smax] after it |
| `KbnSearch.RunOutcome` | scilib/kbn_conf.py:100-116 | the loop fails only with ConvergenceFailure. On success conf >= CL and the invariant holds. The bounds moved only outward, a zero lower bound stayed zero, and under additivity the interval's mass is >= CL |
| `KbnSearch.Search` | scilib/kbn_conf.py:95-116 | the `while` loop with at most `fuel` passes returns what `Run` returns from the start state |
| `KbnSearch.KbnConf` | scilib/kbn_conf.py:39-116 | validation errors come in `kbn_conf`'s order, and a valid negative N fails with ZeroDivision. Any other failure is ConvergenceFailure. A success has 0 <= Smin <= max(N-B, 0) <= Smax, has Smin = 0 when N <= B, and under additivity the interval holds mass >= CL |
| `KbnSearch.ComputeInterval` | scilib/kbn_conf.py:65-116 | validation, the `_cconst` loop and the search loop together give the same result as `KbnConf` |
| `KbnSearch.VecKbnConf` | scilib/kbn_conf.py:119-121 | each element is a scalar call that integrates its own density, chosen by that element's N and B. On success the outputs align one-to-one with those scalar results. On failure the error is that of the first failing element, and every earlier element succeeded |
| `CalModels.AnyBelow` | calmodels.py:39 | numpy `any(freq < fmin)` is true exactly when some element is below the bound |
| `CalModels.AnyAbove` | calmodels.py:39 | numpy `any(freq > fmax)` is true exactly when some element is above the bound |
| `CalModels.BaarsFlux` | calmodels.py:35-45 | raises OutOfRange exactly when some frequency is outside [fmin, fmax]. Otherwise one flux per frequency, each positive, with log10(flux) = a + b*lf + c*lf^2 for lf = log10(freq) |
| `CalModels.AddGenericBaars` | calmodels.py:47-48 | inserts `src` unconditionally, overwriting it. Every other key and entry is unchanged, and a well-formed table stays well-formed when fmin < fmax |
| `CalModels.AddGenericBaarsOverwrites` | calmodels.py:47-48 | adding the same source twice leaves only the later parameters |
| `CalModels.InitCasA` | calmodels.py:24-30 | inserts 'CasA' unconditionally; every other key and entry is unchanged |
| `CalModels.BaarsRowsFirst` | calmodels.py:52-58 | the first seven rows of Table 5 leave exactly those seven sources in the empty table, each a Baars model with fmin < fmax |
| `CalModels.BaarsRowsRest` | calmodels.py:59-64 | the last six rows add exactly their six sources and keep the table well-formed |
| `CalModels.InitialModels` | calmodels.py:52-64 | after module initialisation the table has exactly the 13 Baars sources, each a Baars model with fmin < fmax |
| `CalModels.InitialEntries` | calmodels.py:59-63 | the 3C286 and DR21 rows are stored with the coefficients and ranges of Table 5 |
| `CalModels.InitialRefusesOutOfRange` | calmodels.py:63 | DR21 (valid from 7000 MHz) refuses 1420 MHz |
| `CalModels.InitialAcceptsInRange` | calmodels.py:59 | 3C286 (valid 405..15000 MHz) accepts 1420 MHz |
| `CalModels.BandsOrdered` | calmodels.py:81-82 | the L-band frequency c/20/1e6 MHz is positive and below the C-band frequency c/6/1e6 MHz |
| `CalModels.ModelFromVla` | calmodels.py:68-89 | raises MathDomain exactly when a band flux is <= 0. Otherwise the line m*x + k passes through both (log10 freq, log10 flux) points |
| `CalModels.FitUnique` | calmodels.py:87-89 | a line passes through both catalogue points if and only if it is the fitted one |
| `CalModels.FuncFromVla` | calmodels.py:91-98 | builds a VLA model whose line passes through both catalogue points; fails exactly as the fit does |
| `CalModels.VlaFlux` | calmodels.py:95-96 | one flux per frequency, with log10(flux) = A*log10(freq) + B |
| `CalModels.VlaReproducesCatalogue` | calmodels.py:68-98 | a VLA-derived model evaluated at the L- and C-band frequencies gives back the two catalogue fluxes |
| `CalModels.AddFromVla` | calmodels.py:100-105 | a name already present raises AlreadyHave and leaves the table unchanged, and so does any raise. Success happens exactly for a new name with positive band fluxes. It adds just that key, with a model through both catalogue points, and leaves every other entry unchanged |
| `CalModels.AddFromVlaOnce` | calmodels.py:104 | after a successful add, adding the same name again raises and keeps the table |

## Left out

- Floating point. All arithmetic is exact real arithmetic. The loop's
  `smin == 0.` tests, the `smin - stepsize < tol` test and the sums are
  therefore exact, and NaN and infinities do not exist.
- The numerics of `exp`, `gamma`, `quad`, `log10` and `10 **`. They are
  abstract parameters with the laws listed above, because they are
  floating-point library calls.
- The reference value `kbn_conf(3, 0.5, 0.95) == (0.22156, 7.40188)`, the
  convergence of the loop and the approximate equality of the boundary
  densities. All three depend on the quadrature and on float behaviour.
- `KbnSearch.RunOutcome`, `KbnSearch.KbnConf`: their mass property holds
  only when the abstract integral is additive. Non-negativity alone gives only
  `conf >= CL`, and `conf` is not returned.
- Monotonicity of the interval length in CL is not stated. It depends on
  the actual density and integral.
- `vec_kbn_conf`'s numpy broadcasting. `VecKbnConf` takes the aligned
  triples after broadcasting, and it raises the first error, as
  `vectorize` does.
- The unused `newton` import.
- The Cas A flux formula, with its real-valued exponent
  `(1 - dnu) ** (year - 1980)`. It is float power. `initCasA` is modelled
  only as a table update.
- The value of `cgs.c`. The `cgs` module is not part of this model, so `c`
  is a positive parameter.
- `_usage` and `_interactive`: command-line parsing, printing and exit
  codes.
- Python's `float()` and `int()` conversions of strings or other
  non-numeric inputs. The arguments are reals here. One consequence: the
  `int(N)` failure for non-numeric N is out of scope, and only
  non-integral N yields InvalidCount.
