/** `calmodels.py`: a table from calibrator source name to flux model, the
    Baars et al. (1977) log-polynomial models with their frequency guard, and
    the two-point log-linear models fitted to VLA catalogue fluxes.

    The Python table holds closures; here a closure is the `Model` value it
    captures, and the flux functions evaluate it. `log10` and `10 **` are
    parameters; the laws assumed of them are the ghost predicates below. The
    module-level mutable dictionary is a `Table` passed in and returned. */
module CalModels {
  import opened Wrappers

  datatype CalError =
    | OutOfRange                // a frequency outside the model's validity range
    | AlreadyHave(src: string)  // the name is already in the table
    | MathDomain                // log10 of a non-positive catalogue flux

  /** What a table entry captures. `CasA` keeps only the year: its flux
      formula is not part of this model. */
  datatype Model =
    | Baars(a: real, b: real, c: real, fmin: real, fmax: real)
    | Vla(slope: real, intercept: real)
    | CasA(year: real)

  type Table = map<string, Model>

  ghost predicate Log10Increasing(log10: real -> real)
  {
    forall x, y :: 0.0 < x < y ==> log10(x) < log10(y)
  }

  ghost predicate Pow10UndoesLog10(log10: real -> real, pow10: real -> real)
  {
    forall x :: x > 0.0 ==> pow10(log10(x)) == x
  }

  ghost predicate Log10UndoesPow10(log10: real -> real, pow10: real -> real)
  {
    forall y :: log10(pow10(y)) == y
  }

  ghost predicate Pow10Positive(pow10: real -> real)
  {
    forall y :: pow10(y) > 0.0
  }

  // ---------------------------------------------------------------------
  // Generic Baars models

  /** numpy `any(xs < bound)`. */
  function AnyBelow(xs: seq<real>, bound: real): (r: bool)
    ensures r <==> exists i :: 0 <= i < |xs| && xs[i] < bound
  {
    if |xs| == 0 then false
    else xs[0] < bound || AnyBelow(xs[1..], bound)
  }

  /** numpy `any(xs > bound)`. */
  function AnyAbove(xs: seq<real>, bound: real): (r: bool)
    ensures r <==> exists i :: 0 <= i < |xs| && xs[i] > bound
  {
    if |xs| == 0 then false
    else xs[0] > bound || AnyAbove(xs[1..], bound)
  }

  /** The exponent `a + b * lf + c * lf**2` of a Baars model. */
  function LogPoly(m: Model, lf: real): real
    requires m.Baars?
  {
    m.a + m.b * lf + m.c * (lf * lf)
  }

  /** The closure built by `_makeGenericBaars`, applied to the frequencies
      `freqs` (MHz; a scalar is a one-element sequence). */
  function BaarsFlux(m: Model, freqs: seq<real>, log10: real -> real,
                     pow10: real -> real): (r: Result<seq<real>, CalError>)
    requires m.Baars?
    ensures r.Failure? <==> exists i :: 0 <= i < |freqs| && (freqs[i] < m.fmin || freqs[i] > m.fmax)
    ensures r.Failure? ==> r.error == OutOfRange
    ensures r.Success? ==> |r.value| == |freqs|
    ensures r.Success? && Log10UndoesPow10(log10, pow10) ==>
              forall i :: 0 <= i < |freqs| ==> log10(r.value[i]) == LogPoly(m, log10(freqs[i]))
    ensures r.Success? && Pow10Positive(pow10) ==> forall i :: 0 <= i < |r.value| ==> r.value[i] > 0.0
  {
    if AnyBelow(freqs, m.fmin) || AnyAbove(freqs, m.fmax) then
      Failure(OutOfRange)
    else
      Success(seq(|freqs|, i requires 0 <= i < |freqs| => pow10(LogPoly(m, log10(freqs[i])))))
  }

  /** `_addGenericBaars`: unconditional insert, overwriting any entry for `src`. */
  function AddGenericBaars(t: Table, src: string, a: real, b: real, c: real,
                           fmin: real, fmax: real): (r: Table)
    ensures r.Keys == t.Keys + {src}
    ensures r[src] == Baars(a, b, c, fmin, fmax)
    ensures forall k :: k in t && k != src ==> r[k] == t[k]
    ensures BaarsWellFormed(t) && fmin < fmax ==> BaarsWellFormed(r)
  {
    t[src := Baars(a, b, c, fmin, fmax)]
  }

  /** `initCasA`: unconditional insert under the key 'CasA'. */
  function InitCasA(t: Table, year: real): (r: Table)
    ensures r.Keys == t.Keys + {"CasA"}
    ensures r["CasA"] == CasA(year)
    ensures forall k :: k in t && k != "CasA" ==> r[k] == t[k]
  {
    t["CasA" := CasA(year)]
  }

  /** Every entry is a Baars model whose validity range is a proper interval. */
  ghost predicate BaarsWellFormed(t: Table)
  {
    forall k :: k in t ==> t[k].Baars? && t[k].fmin < t[k].fmax
  }

  /** The sources of Table 5 of Baars et al. (1977), in two groups of rows. */
  const BaarsFirstRows: set<string> :=
    {"3c48", "3c123", "3c147", "3c161", "3c218", "3c227", "3c249.1"}
  const BaarsLaterRows: set<string> :=
    {"3c286", "3c295", "3c348", "3c353", "DR21", "NGC7027"}
  const BaarsSources: set<string> := BaarsFirstRows + BaarsLaterRows

  /** Lines 52-58 of the module body, applied to the initially empty table. */
  function BaarsRowsFirst(): (t: Table)
    ensures t.Keys == BaarsFirstRows
    ensures BaarsWellFormed(t)
  {
    var t0: Table := map[];
    var t1 := AddGenericBaars(t0, "3c48", 2.345, 0.071, -0.138, 405.0, 15000.0);
    assert BaarsWellFormed(t1);
    var t2 := AddGenericBaars(t1, "3c123", 2.921, -0.002, -0.124, 405.0, 15000.0);
    assert BaarsWellFormed(t2);
    var t3 := AddGenericBaars(t2, "3c147", 1.766, 0.447, -0.184, 405.0, 15000.0);
    assert BaarsWellFormed(t3);
    var t4 := AddGenericBaars(t3, "3c161", 1.633, 0.498, -0.194, 405.0, 10700.0);
    assert BaarsWellFormed(t4);
    var t5 := AddGenericBaars(t4, "3c218", 4.497, -0.910, 0.0, 405.0, 10700.0);
    assert BaarsWellFormed(t5);
    var t6 := AddGenericBaars(t5, "3c227", 3.460, -0.827, 0.0, 405.0, 15000.0);
    assert BaarsWellFormed(t6);
    AddGenericBaars(t6, "3c249.1", 1.230, 0.288, -0.176, 405.0, 15000.0)
  }

  /** Lines 59-64 of the module body. */
  function BaarsRowsRest(t0: Table): (t: Table)
    ensures t.Keys == t0.Keys + BaarsLaterRows
    ensures BaarsWellFormed(t0) ==> BaarsWellFormed(t)
  {
    var t1 := AddGenericBaars(t0, "3c286", 1.480, 0.292, -0.124, 405.0, 15000.0);
    assert BaarsWellFormed(t0) ==> BaarsWellFormed(t1);
    var t2 := AddGenericBaars(t1, "3c295", 1.485, 0.759, -0.255, 405.0, 15000.0);
    assert BaarsWellFormed(t0) ==> BaarsWellFormed(t2);
    var t3 := AddGenericBaars(t2, "3c348", 4.963, -1.052, 0.0, 405.0, 10700.0);
    assert BaarsWellFormed(t0) ==> BaarsWellFormed(t3);
    var t4 := AddGenericBaars(t3, "3c353", 2.944, -0.034, -0.109, 405.0, 10700.0);
    assert BaarsWellFormed(t0) ==> BaarsWellFormed(t4);
    var t5 := AddGenericBaars(t4, "DR21", 1.81, -0.122, 0.0, 7000.0, 31000.0);
    assert BaarsWellFormed(t0) ==> BaarsWellFormed(t5);
    AddGenericBaars(t5, "NGC7027", 1.32, -0.127, 0.0, 10000.0, 31000.0)
  }

  /** The table after module initialisation: the empty table followed by the
      thirteen rows of Table 5 of Baars et al. (1977). */
  function InitialModels(): (t: Table)
    ensures t.Keys == BaarsSources
    ensures BaarsWellFormed(t)
  {
    BaarsRowsRest(BaarsRowsFirst())
  }

  // ---------------------------------------------------------------------
  // Models from VLA catalogue fluxes

  /** The L-band (20 cm) frequency in MHz, `cgs.c / 20 / 1e6`. */
  function LBandMHz(c: real): real
  {
    c / 20.0 / 1000000.0
  }

  /** The C-band (6 cm) frequency in MHz, `cgs.c / 6 / 1e6`. */
  function CBandMHz(c: real): real
  {
    c / 6.0 / 1000000.0
  }

  lemma BandsOrdered(c: real)
    requires c > 0.0
    ensures 0.0 < LBandMHz(c) < CBandMHz(c)
  {
  }

  /** The line `log10(flux) = slope * log10(freq) + intercept`. */
  datatype Line = Line(slope: real, intercept: real)

  /** The line passes through both catalogue points in log-log space. */
  ghost predicate ThroughBands(l: Line, lband: real, cband: real, c: real, log10: real -> real)
  {
    && l.slope * log10(LBandMHz(c)) + l.intercept == log10(lband)
    && l.slope * log10(CBandMHz(c)) + l.intercept == log10(cband)
  }

  /** `modelFromVLA(Lband, Cband)`: slope and intercept of the two-point fit.
      `c` is the speed of light in cm/s taken from `cgs`. */
  function ModelFromVla(lband: real, cband: real, c: real, log10: real -> real): (r: Result<Line, CalError>)
    requires c > 0.0 && Log10Increasing(log10)
    ensures r.Success? <==> lband > 0.0 && cband > 0.0
    ensures r.Failure? ==> r.error == MathDomain
    ensures r.Success? ==> ThroughBands(r.value, lband, cband, c, log10)
  {
    BandsOrdered(c);
    var fL := log10(LBandMHz(c));
    var fC := log10(CBandMHz(c));
    if lband <= 0.0 || cband <= 0.0 then
      Failure(MathDomain)
    else
      var lL := log10(lband);
      var lC := log10(cband);
      var m := (lL - lC) / (fL - fC);
      assert m * (fL - fC) == lL - lC;
      Success(Line(m, lL - m * fL))
  }

  lemma ZeroFactor(x: real, y: real)
    requires x * y == 0.0 && y != 0.0
    ensures x == 0.0
  {
  }

  /** The fit is the only line through the two catalogue points. */
  lemma FitUnique(lband: real, cband: real, c: real, log10: real -> real, l: Line)
    requires c > 0.0 && Log10Increasing(log10)
    requires lband > 0.0 && cband > 0.0
    ensures ThroughBands(l, lband, cband, c, log10) <==> ModelFromVla(lband, cband, c, log10) == Success(l)
  {
    BandsOrdered(c);
    var fL := log10(LBandMHz(c));
    var fC := log10(CBandMHz(c));
    assert fL < fC;
    var fit := ModelFromVla(lband, cband, c, log10).value;
    if ThroughBands(l, lband, cband, c, log10) {
      assert ThroughBands(fit, lband, cband, c, log10);
      assert (l.slope - fit.slope) * (fL - fC) == 0.0;
      ZeroFactor(l.slope - fit.slope, fL - fC);
      assert l.intercept == fit.intercept;
      assert l == fit;
    }
  }

  /** `funcFromVLA`: the table entry built from the fit. */
  function FuncFromVla(lband: real, cband: real, c: real, log10: real -> real): (r: Result<Model, CalError>)
    requires c > 0.0 && Log10Increasing(log10)
    ensures r.Success? <==> lband > 0.0 && cband > 0.0
    ensures r.Failure? ==> r.error == MathDomain
    ensures r.Success? ==> r.value.Vla? && ThroughBands(Line(r.value.slope, r.value.intercept), lband, cband, c, log10)
  {
    var l :- ModelFromVla(lband, cband, c, log10);
    Success(Vla(l.slope, l.intercept))
  }

  /** The exponent `A * log10(freq) + B` of a VLA-derived model. */
  function VlaExponent(m: Model, lf: real): real
    requires m.Vla?
  {
    m.slope * lf + m.intercept
  }

  /** The closure returned by `funcFromVLA`: ten raised to the fitted line
      at log10 of each frequency. */
  function VlaFlux(m: Model, freqs: seq<real>, log10: real -> real, pow10: real -> real): (r: seq<real>)
    requires m.Vla?
    ensures |r| == |freqs|
    ensures Log10UndoesPow10(log10, pow10) ==>
              forall i :: 0 <= i < |freqs| ==> log10(r[i]) == m.slope * log10(freqs[i]) + m.intercept
  {
    seq(|freqs|, i requires 0 <= i < |freqs| => pow10(VlaExponent(m, log10(freqs[i]))))
  }

  /** A VLA-derived model gives back the catalogue fluxes at the two bands. */
  lemma VlaReproducesCatalogue(lband: real, cband: real, c: real, log10: real -> real, pow10: real -> real)
    requires c > 0.0 && Log10Increasing(log10) && Pow10UndoesLog10(log10, pow10)
    requires lband > 0.0 && cband > 0.0
    ensures FuncFromVla(lband, cband, c, log10).Success?
    ensures VlaFlux(FuncFromVla(lband, cband, c, log10).value, [LBandMHz(c), CBandMHz(c)], log10, pow10)
            == [lband, cband]
  {
    var m := FuncFromVla(lband, cband, c, log10).value;
    var fs := [LBandMHz(c), CBandMHz(c)];
    var r := VlaFlux(m, fs, log10, pow10);
    assert ThroughBands(Line(m.slope, m.intercept), lband, cband, c, log10);
    assert fs[0] == LBandMHz(c) && fs[1] == CBandMHz(c);
    assert VlaExponent(m, log10(fs[0])) == log10(lband);
    assert VlaExponent(m, log10(fs[1])) == log10(cband);
    assert r[0] == pow10(VlaExponent(m, log10(fs[0]))) == pow10(log10(lband)) == lband;
    assert r[1] == pow10(VlaExponent(m, log10(fs[1]))) == pow10(log10(cband)) == cband;
  }

  /** The outcome of a statement that may raise: the table afterwards and
      whether an exception escaped. */
  datatype Status = Done | Raised(error: CalError)
  datatype Update = Update(table: Table, status: Status)

  /** `addFromVLA`: refuse a name already in the table, otherwise insert the
      VLA-derived model under it. */
  function AddFromVla(t: Table, src: string, lband: real, cband: real,
                      c: real, log10: real -> real): (u: Update)
    requires c > 0.0 && Log10Increasing(log10)
    ensures src in t ==> u == Update(t, Raised(AlreadyHave(src)))
    ensures u.status.Raised? ==> u.table == t
    ensures u.status.Done? <==> src !in t && lband > 0.0 && cband > 0.0
    ensures u.status.Done? ==>
              && u.table.Keys == t.Keys + {src}
              && (forall k :: k in t ==> u.table[k] == t[k])
              && u.table[src].Vla?
              && ThroughBands(Line(u.table[src].slope, u.table[src].intercept), lband, cband, c, log10)
  {
    if src in t then
      Update(t, Raised(AlreadyHave(src)))
    else
      match FuncFromVla(lband, cband, c, log10)
      case Failure(e) => Update(t, Raised(e))
      case Success(m) => Update(t[src := m], Done)
  }

  /** Adding a name twice from VLA data: the second call always raises and
      keeps the table of the first. */
  lemma AddFromVlaOnce(t: Table, src: string, lband: real, cband: real, l2: real, c2: real,
                       c: real, log10: real -> real)
    requires c > 0.0 && Log10Increasing(log10)
    requires AddFromVla(t, src, lband, cband, c, log10).status.Done?
    ensures var t1 := AddFromVla(t, src, lband, cband, c, log10).table;
            AddFromVla(t1, src, l2, c2, c, log10) == Update(t1, Raised(AlreadyHave(src)))
  {
  }

  /** Re-adding a Baars model keeps only the later parameters. */
  lemma AddGenericBaarsOverwrites(t: Table, src: string, a: real, b: real, c: real, fmin: real, fmax: real,
                                  a2: real, b2: real, c2: real, fmin2: real, fmax2: real)
    ensures AddGenericBaars(AddGenericBaars(t, src, a, b, c, fmin, fmax), src, a2, b2, c2, fmin2, fmax2)
            == AddGenericBaars(t, src, a2, b2, c2, fmin2, fmax2)
  {
  }

  /** An initial source queried outside its range raises: DR21 is valid only
      from 7000 MHz, so the 1420 MHz hydrogen line is refused. */
  lemma InitialRefusesOutOfRange(log10: real -> real, pow10: real -> real)
    ensures BaarsFlux(InitialModels()["DR21"], [1420.0], log10, pow10) == Failure(OutOfRange)
  {
    InitialEntries();
  }

  /** 3C286, valid from 405 to 15000 MHz, accepts the 1420 MHz line. */
  lemma InitialAcceptsInRange(log10: real -> real, pow10: real -> real)
    ensures BaarsFlux(InitialModels()["3c286"], [1420.0], log10, pow10).Success?
  {
    InitialEntries();
    var m := InitialModels()["3c286"];
    assert !AnyBelow([1420.0], m.fmin) && !AnyAbove([1420.0], m.fmax);
  }

  /** The 3C286 and DR21 rows survive the rows after them, whatever table
      they are applied to. */
  lemma LaterRowsEntries(t0: Table)
    ensures BaarsRowsRest(t0)["DR21"] == Baars(1.81, -0.122, 0.0, 7000.0, 31000.0)
    ensures BaarsRowsRest(t0)["3c286"] == Baars(1.480, 0.292, -0.124, 405.0, 15000.0)
  {
    assert "DR21" != "NGC7027";
    assert "3c286" != "3c295" && "3c286" != "3c348" && "3c286" != "3c353";
  }

  lemma InitialEntries()
    ensures InitialModels()["DR21"] == Baars(1.81, -0.122, 0.0, 7000.0, 31000.0)
    ensures InitialModels()["3c286"] == Baars(1.480, 0.292, -0.124, 405.0, 15000.0)
  {
    LaterRowsEntries(BaarsRowsFirst());
  }
}
