/** The bookkeeping of the two-stage model fit (fitting/fitting.py): the command
    line, the split of the bounds between differential evolution and refinement,
    the recorded fitting settings and results, and the per-variable error after the
    stimulus starts. The fitting itself (brian2modelfitting) is not modelled; its
    fitted parameters are an input. */
module Fitting {
  import opened Results
  import opened Indexing
  import opened LoadModel

  // ---- fit_arguments --------------------------------------------------------------

  /** `fit_arguments(default)`: the first command-line argument, or else the default
      path with `~` expanded; the flag says whether the default was used.
      `os.path.expanduser(None)` raises TypeError. */
  function FitArguments(argv: seq<string>, default: Option<string>, expandUser: string -> string)
    : (r: Result<(string, bool)>)
    ensures |argv| > 1 ==> r == Ok((argv[1], false))
    ensures |argv| <= 1 && default.Some? ==> r == Ok((expandUser(default.value), true))
    ensures |argv| <= 1 && default.None? ==> r == Err(TypeError)
  {
    if |argv| > 1 then Ok((argv[1], false))
    else if default.Some? then Ok((expandUser(default.value), true))
    else Err(TypeError)
  }

  /** The display flag is set exactly when no argument was given. */
  lemma FitArgumentsDisplay(argv: seq<string>, default: Option<string>, expandUser: string -> string)
    requires FitArguments(argv, default, expandUser).Ok?
    ensures FitArguments(argv, default, expandUser).value.1 <==> |argv| <= 1
  {
  }

  // ---- the bounds split -----------------------------------------------------------

  /** One bound split for the two stages: a two-element bound serves both; a longer
      one `[a, b, c, d]` gives `[b, c]` to differential evolution and `[a, d]` to
      refinement. Indexing a shorter one raises IndexError. */
  function SplitBound<T>(b: seq<T>): (r: Result<(seq<T>, seq<T>)>)
    ensures r.Err? <==> |b| != 2 && |b| < 4
  {
    if |b| == 2 then Ok((b, b))
    else if |b| < 4 then Err(IndexError)
    else Ok(([b[1], b[2]], [b[0], b[3]]))
  }

  /** All bounds split, or the IndexError of a bound that cannot be split. */
  function SplitBounds<T>(bounds: map<string, seq<T>>): Result<(map<string, seq<T>>, map<string, seq<T>>)> {
    if exists x :: x in bounds && SplitBound(bounds[x]).Err? then Err(IndexError)
    else Ok((map x | x in bounds :: SplitBound(bounds[x]).value.0,
             map x | x in bounds :: SplitBound(bounds[x]).value.1))
  }

  /** Both stages get a bound for every name; a two-element bound is passed to both
      unchanged, and a four-element bound is recovered from its two halves. */
  lemma SplitBoundsMeaning<T>(bounds: map<string, seq<T>>)
    requires SplitBounds(bounds).Ok?
    ensures var (de, refine) := SplitBounds(bounds).value;
            de.Keys == bounds.Keys && refine.Keys == bounds.Keys &&
            (forall x :: x in bounds && |bounds[x]| == 2 ==> de[x] == bounds[x] && refine[x] == bounds[x]) &&
            (forall x :: x in bounds && |bounds[x]| == 4 ==>
               |de[x]| == 2 && |refine[x]| == 2 &&
               [refine[x][0], de[x][0], de[x][1], refine[x][1]] == bounds[x])
  {
    var (de, refine) := SplitBounds(bounds).value;
    forall x | x in bounds && |bounds[x]| == 4
      ensures [refine[x][0], de[x][0], de[x][1], refine[x][1]] == bounds[x]
    {
      var b := bounds[x];
      assert [b[0], b[1], b[2], b[3]] == b;
    }
  }

  /** The loop of `two_stage_fit` that fills `bounds_DE` and `bounds_refine`. */
  method SplitBoundsLoop<T>(bounds: map<string, seq<T>>)
    returns (r: Result<(map<string, seq<T>>, map<string, seq<T>>)>)
    ensures r == SplitBounds(bounds)
  {
    var de: map<string, seq<T>> := map[];
    var refine: map<string, seq<T>> := map[];
    var todo := bounds.Keys;
    while todo != {}
      invariant todo <= bounds.Keys
      invariant de.Keys == bounds.Keys - todo && refine.Keys == bounds.Keys - todo
      invariant forall x :: x in de ==> SplitBound(bounds[x]) == Ok((de[x], refine[x]))
      decreases todo
    {
      var x :| x in todo;
      var b := bounds[x];
      if |b| == 2 {
        de := de[x := b];
        refine := refine[x := b];
      } else {
        if |b| < 4 {
          return Err(IndexError);
        }
        de := de[x := [b[1], b[2]]];
        refine := refine[x := [b[0], b[3]]];
      }
      todo := todo - {x};
    }
    assert !exists x :: x in bounds && SplitBound(bounds[x]).Err? by {
      forall x | x in bounds
        ensures SplitBound(bounds[x]).Ok?
      {
        assert x in de;
      }
    }
    assert de == map x | x in bounds :: SplitBound(bounds[x]).value.0;
    assert refine == map x | x in bounds :: SplitBound(bounds[x]).value.1;
    return Ok((de, refine));
  }

  // ---- settings and results -------------------------------------------------------

  /** `fitting_parameters` after the update: the extra keyword arguments with the three
      settings actually used written over them. */
  function Settings(extra: map<string, int>, nSamples: int, nRounds: int, nRefineRounds: int): map<string, int> {
    extra["n_samples" := nSamples]["n_rounds" := nRounds]["n_refine_rounds" := nRefineRounds]
  }

  /** The settings record the values used, whatever the keyword arguments said, and
      keep every other keyword argument. */
  lemma SettingsRecordUsed(extra: map<string, int>, nSamples: int, nRounds: int, nRefineRounds: int)
    ensures var s := Settings(extra, nSamples, nRounds, nRefineRounds);
            s["n_samples"] == nSamples && s["n_rounds"] == nRounds &&
            s["n_refine_rounds"] == nRefineRounds &&
            s.Keys == extra.Keys + {"n_samples", "n_rounds", "n_refine_rounds"} &&
            forall x :: x in extra && x !in {"n_samples", "n_rounds", "n_refine_rounds"} ==> s[x] == extra[x]
  {
  }

  /** An entry of the results dict. */
  datatype Entry = Number(x: real) | Count(n: int)

  /** `results` before the model and the errors are added: the fitting window, then the
      settings, which win on a clash of names. */
  function ResultsInfo(fittingStart: real, fittingEnd: real, settings: map<string, int>): map<string, Entry> {
    map["fitting_start" := Number(fittingStart), "fitting_end" := Number(fittingEnd)] +
    map x | x in settings :: Count(settings[x])
  }

  /** The results hold the fitting window and every setting; a setting named like an
      end of the window replaces it. */
  lemma ResultsInfoMeaning(fittingStart: real, fittingEnd: real, settings: map<string, int>)
    ensures var r := ResultsInfo(fittingStart, fittingEnd, settings);
            r.Keys == settings.Keys + {"fitting_start", "fitting_end"} &&
            (forall x :: x in settings ==> r[x] == Count(settings[x])) &&
            ("fitting_start" !in settings ==> r["fitting_start"] == Number(fittingStart)) &&
            ("fitting_end" !in settings ==> r["fitting_end"] == Number(fittingEnd))
  {
  }

  /** The fitted model: the fitted parameters are written over the constants (an empty
      dict when there were none), then the bounds are deleted; a model without bounds
      raises KeyError after its constants have been updated. */
  method RecordFittedModel(model: ModelDict, best: map<string, real>) returns (r: Result<()>)
    modifies model
    ensures model.constants == Some(OrEmpty(old(model.constants)) + map x | x in best :: Num(best[x]))
    ensures model.bounds == None
    ensures model.equations == old(model.equations) && model.init == old(model.init)
    ensures r == if old(model.bounds).Some? then Ok(()) else Err(KeyError("bounds"))
  {
    if model.constants.None? {
      model.constants := Some(map[]);
    }
    model.constants := Some(model.constants.value + map x | x in best :: Num(best[x]));
    if model.bounds.None? {
      return Err(KeyError("bounds"));
    }
    model.bounds := None;
    return Ok(());
  }

  /** Every fitted parameter becomes a constant of the recorded model, and a constant
      that was not fitted keeps its value. */
  lemma FittedOverride(constants: map<string, Value>, best: map<string, real>)
    ensures var c := constants + map x | x in best :: Num(best[x]);
            (forall x :: x in best ==> c[x] == Num(best[x])) &&
            (forall x :: x in constants && x !in best ==> c[x] == constants[x]) &&
            c.Keys == constants.Keys + best.Keys
  {
  }

  // ---- local_error ----------------------------------------------------------------

  /** All entries of a matrix, row after row. */
  function Flatten(rows: seq<seq<real>>): seq<real> {
    if |rows| == 0 then [] else rows[0] + Flatten(rows[1..])
  }

  /** `rows[:, start:]`: every row from column `start` on, a negative start counting
      from the end of the row as in Python. */
  function From(rows: seq<seq<real>>, start: int): (r: seq<seq<real>>)
    ensures |r| == |rows|
    ensures forall i :: 0 <= i < |rows| ==> r[i] == rows[i][SliceStart(start, |rows[i]|)..]
  {
    seq(|rows|, i requires 0 <= i < |rows| => rows[i][SliceStart(start, |rows[i]|)..])
  }

  /** Squared differences, entry by entry. */
  function SquaredDiff(a: seq<real>, b: seq<real>): (r: seq<real>)
    requires |a| == |b|
    ensures |r| == |a|
  {
    seq(|a|, i requires 0 <= i < |a| => (a[i] - b[i]) * (a[i] - b[i]))
  }

  /** Two matrices of the same shape. */
  predicate SameShape(a: seq<seq<real>>, b: seq<seq<real>>) {
    |a| == |b| && forall i :: 0 <= i < |a| ==> |a[i]| == |b[i]|
  }

  lemma {:induction false} FlattenSameShape(a: seq<seq<real>>, b: seq<seq<real>>)
    requires SameShape(a, b)
    ensures |Flatten(a)| == |Flatten(b)|
  {
    if |a| > 0 {
      FlattenSameShape(a[1..], b[1..]);
    }
  }

  /** The mean squared difference over all entries of two matrices of the same
      shape; with no entry at all numpy's mean is NaN. */
  function MeanSquaredError(fit: seq<seq<real>>, data: seq<seq<real>>): Result<real>
    requires SameShape(fit, data)
  {
    FlattenSameShape(fit, data);
    if |Flatten(fit)| == 0 then Err(InvalidValue)
    else Ok(Mean(SquaredDiff(Flatten(fit), Flatten(data))))
  }

  /** The error of one variable: fit and data from column `start` on, compared. A fit
      whose shape differs from the data's cannot be subtracted (ValueError). */
  function VariableError(fit: seq<seq<real>>, data: seq<seq<real>>, start: int): Result<real> {
    if SameShape(From(fit, start), From(data, start)) then MeanSquaredError(From(fit, start), From(data, start))
    else Err(ValueError)
  }

  /** The errors of the variables `vars`, compared from column `start` on, in the order
      of the loop of `local_error`: the data of a variable is read before its fit. */
  function ErrorsFrom(data: map<string, seq<seq<real>>>, fits: map<string, seq<seq<real>>>,
                      vars: seq<string>, start: int): Result<map<string, real>>
  {
    if |vars| == 0 then Ok(map[])
    else match ErrorsFrom(data, fits, vars[..|vars| - 1], start)
         case Err(e) => Err(e)
         case Ok(errors) =>
           var x := vars[|vars| - 1];
           if x !in data then Err(KeyError(x))
           else if x !in fits then Err(KeyError(x))
           else match VariableError(fits[x], data[x], start)
                case Err(e) => Err(e)
                case Ok(err) => Ok(errors[x := err])
  }

  /** `local_error(data, fits, vars, stimulus_start)` as a value, `t` being `data['t']`:
      the time step is the difference of its first two samples (IndexError with fewer),
      and the first compared column is `int(stimulus_start / dt)`. That column is
      computed inside the loop, after `data[var]` is looked up, so a zero step only
      matters once the first variable is found: numpy's division then gives inf (or nan
      for 0/0), on which `int()` raises OverflowError (or ValueError). */
  function LocalErrors(t: seq<real>, data: map<string, seq<seq<real>>>, fits: map<string, seq<seq<real>>>,
                       vars: seq<string>, stimulusStart: real): Result<map<string, real>>
  {
    if |t| < 2 then Err(IndexError)
    else if t[1] - t[0] == 0.0 then
      if |vars| == 0 then Ok(map[])
      else if vars[0] !in data then Err(KeyError(vars[0]))
      else if stimulusStart == 0.0 then Err(ValueError)
      else Err(OverflowError)
    else ErrorsFrom(data, fits, vars, Trunc(stimulusStart / (t[1] - t[0])))
  }

  /** With a zero time step the errors fail exactly when a variable is requested, and
      then, if that variable is in the data, with the error `int()` raises on an infinite
      quotient (OverflowError) or on nan (ValueError, when the stimulus starts at 0). */
  lemma LocalErrorsZeroStep(t: seq<real>, data: map<string, seq<seq<real>>>, fits: map<string, seq<seq<real>>>,
                            vars: seq<string>, stimulusStart: real)
    requires 2 <= |t| && t[0] == t[1]
    ensures LocalErrors(t, data, fits, vars, stimulusStart).Ok? <==> |vars| == 0
    ensures LocalErrors(t, data, fits, vars, stimulusStart).Ok? ==> LocalErrors(t, data, fits, vars, stimulusStart).value == map[]
    ensures 0 < |vars| && vars[0] in data ==>
              LocalErrors(t, data, fits, vars, stimulusStart)
                == Err(if stimulusStart == 0.0 then ValueError else OverflowError)
    ensures LocalErrors(t, data, fits, vars, stimulusStart) != Err(ZeroDivisionError)
  {
  }

  /** There is one error for each requested variable and no other, and each is that
      variable's mean squared difference from the first compared column on. */
  lemma {:induction false} ErrorsFromMeaning(data: map<string, seq<seq<real>>>, fits: map<string, seq<seq<real>>>,
                                             vars: seq<string>, start: int)
    requires ErrorsFrom(data, fits, vars, start).Ok?
    ensures var errors := ErrorsFrom(data, fits, vars, start).value;
            errors.Keys == set i | 0 <= i < |vars| :: vars[i]
    ensures var errors := ErrorsFrom(data, fits, vars, start).value;
            forall x :: x in errors ==>
              x in data && x in fits && VariableError(fits[x], data[x], start) == Ok(errors[x])
  {
    if |vars| > 0 {
      var front := vars[..|vars| - 1];
      ErrorsFromMeaning(data, fits, front, start);
      var errors := ErrorsFrom(data, fits, vars, start).value;
      forall y | y in set i | 0 <= i < |vars| :: vars[i]
        ensures y in errors
      {
        var i :| 0 <= i < |vars| && vars[i] == y;
        if i < |vars| - 1 {
          assert y == front[i];
        }
      }
      assert forall i :: 0 <= i < |front| ==> front[i] == vars[i];
    }
  }

  lemma {:induction false} SumNonNegative(xs: seq<real>)
    requires forall i :: 0 <= i < |xs| ==> 0.0 <= xs[i]
    ensures 0.0 <= Sum(xs)
  {
    if |xs| > 0 {
      SumNonNegative(xs[1..]);
    }
  }

  lemma {:induction false} SumZero(xs: seq<real>)
    requires forall i :: 0 <= i < |xs| ==> xs[i] == 0.0
    ensures Sum(xs) == 0.0
  {
    if |xs| > 0 {
      SumZero(xs[1..]);
    }
  }

  /** An error is never negative, and it is zero when the fit matches the data on the
      compared columns. */
  lemma VariableErrorRange(fit: seq<seq<real>>, data: seq<seq<real>>, start: int)
    requires VariableError(fit, data, start).Ok?
    ensures 0.0 <= VariableError(fit, data, start).value
    ensures From(fit, start) == From(data, start) ==> VariableError(fit, data, start).value == 0.0
  {
    var a, b := From(fit, start), From(data, start);
    FlattenSameShape(a, b);
    var d := SquaredDiff(Flatten(a), Flatten(b));
    forall i | 0 <= i < |d|
      ensures 0.0 <= d[i]
    {
      var x := Flatten(a)[i] - Flatten(b)[i];
      assert d[i] == x * x;
    }
    SumNonNegative(d);
    if a == b {
      SumZero(d);
    }
  }

  /** Columns before the first compared one do not count: fits or data that differ
      only there give the same errors. */
  lemma ErrorsIgnoreEarlyColumns(fit: seq<seq<real>>, data: seq<seq<real>>,
                                 fit2: seq<seq<real>>, data2: seq<seq<real>>, start: int)
    requires From(fit, start) == From(fit2, start) && From(data, start) == From(data2, start)
    ensures VariableError(fit, data, start) == VariableError(fit2, data2, start)
  {
  }

  lemma {:induction false} ErrorsPrefixErr(data: map<string, seq<seq<real>>>, fits: map<string, seq<seq<real>>>,
                                           vars: seq<string>, start: int, k: nat)
    requires k <= |vars| && ErrorsFrom(data, fits, vars[..k], start).Err?
    ensures ErrorsFrom(data, fits, vars, start) == ErrorsFrom(data, fits, vars[..k], start)
    decreases |vars|
  {
    if k < |vars| {
      var front := vars[..|vars| - 1];
      assert front[..k] == vars[..k];
      ErrorsPrefixErr(data, fits, front, start, k);
    } else {
      assert vars[..k] == vars;
    }
  }

  /** `local_error`: the loop over the requested variables, filling `errors`. */
  method LocalError(t: seq<real>, data: map<string, seq<seq<real>>>, fits: map<string, seq<seq<real>>>,
                    vars: seq<string>, stimulusStart: real) returns (r: Result<map<string, real>>)
    ensures r == LocalErrors(t, data, fits, vars, stimulusStart)
  {
    if |t| < 2 {
      return Err(IndexError);
    }
    var dt := t[1] - t[0];
    if dt == 0.0 {
      if |vars| == 0 {
        return Ok(map[]);
      } else if vars[0] !in data {
        return Err(KeyError(vars[0]));
      }
      return Err(if stimulusStart == 0.0 then ValueError else OverflowError);
    }
    var start := Trunc(stimulusStart / dt);
    var errors: map<string, real> := map[];
    var k := 0;
    while k < |vars|
      invariant 0 <= k <= |vars| && ErrorsFrom(data, fits, vars[..k], start) == Ok(errors)
    {
      assert vars[..k + 1][..k] == vars[..k];
      var x := vars[k];
      if x !in data || x !in fits {
        ErrorsPrefixErr(data, fits, vars, start, k + 1);
        return Err(KeyError(x));
      }
      var e := VariableError(fits[x], data[x], start);
      if e.Err? {
        ErrorsPrefixErr(data, fits, vars, start, k + 1);
        return Err(e.error);
      }
      errors := errors[x := e.value];
      k := k + 1;
    }
    assert vars[..k] == vars;
    return Ok(errors);
  }
}
