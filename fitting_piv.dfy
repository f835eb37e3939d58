/** Timing rules derived from PIV (particle image velocimetry) measurements
    (fitting/piv.py): the duration of a reversal, the anterior-posterior flip of the
    cell angle, and the frame times PIV fields are interpolated from. */
module FittingPiv {
  import opened Results
  import opened Elementary
  import opened Indexing
  import DataPreparation

  // ---- reversal_duration ----------------------------------------------------------

  /** The flags `cos(angle) > 0`. */
  function CosPositive(m: MathLib, angle: seq<real>): (r: seq<bool>)
    ensures |r| == |angle|
  {
    seq(|angle|, i requires 0 <= i < |angle| => m.cos(angle[i]) > 0.0)
  }

  /** The flags `cos(angle) < 0`. */
  function CosNegative(m: MathLib, angle: seq<real>): (r: seq<bool>)
    ensures |r| == |angle|
  {
    seq(|angle|, i requires 0 <= i < |angle| => m.cos(angle[i]) < 0.0)
  }

  lemma CosFlags(m: MathLib, angle: seq<real>)
    ensures forall k :: 0 <= k < |angle| ==>
              (CosPositive(m, angle)[k] <==> m.cos(angle[k]) > 0.0) &&
              (CosNegative(m, angle)[k] <==> m.cos(angle[k]) < 0.0)
  {
  }

  /** Where the search for the end of the reversal starts: the given start, as a
      slice bound, or else the first sample with `cos(angle) < 0`; `None` when there
      is no such sample, where numpy raises the IndexError that is caught. */
  function ReversalStart(m: MathLib, angle: seq<real>, start: Option<int>): (r: Option<nat>)
    ensures r.Some? ==> r.value <= |angle|
    ensures start.Some? ==> r == Some(SliceStart(start.value, |angle|))
    ensures start.None? && r.Some? ==>
              r.value < |angle| && m.cos(angle[r.value]) < 0.0 &&
              forall k :: 0 <= k < r.value ==> !(m.cos(angle[k]) < 0.0)
    ensures start.None? && r.None? ==> forall k :: 0 <= k < |angle| ==> !(m.cos(angle[k]) < 0.0)
  {
    CosFlags(m, angle);
    if start.Some? then Some(SliceStart(start.value, |angle|))
    else First(CosNegative(m, angle), 0)
  }

  /** `reversal_duration(angle, start)`: the number of time steps from the start until
      `cos(angle)` is first positive, counted from the start and not from 0. Every
      IndexError is caught and gives 0, so 0 means either that no such sample exists
      or that `cos(angle)` is already positive at the start. */
  function ReversalDuration(m: MathLib, angle: seq<real>, start: Option<int>): (r: nat)
    ensures ReversalStart(m, angle, start).None? ==> r == 0
    ensures ReversalStart(m, angle, start).Some? ==>
              var s := ReversalStart(m, angle, start).value;
              (r > 0 ==> s + r < |angle| && m.cos(angle[s + r]) > 0.0 &&
                         forall k :: s <= k < s + r ==> !(m.cos(angle[k]) > 0.0)) &&
              (r == 0 <==> (s < |angle| && m.cos(angle[s]) > 0.0) ||
                           forall k :: s <= k < |angle| ==> !(m.cos(angle[k]) > 0.0))
  {
    CosFlags(m, angle);
    match ReversalStart(m, angle, start)
    case None => 0
    case Some(s) =>
      match First(CosPositive(m, angle), s)
      case None => 0
      case Some(k) => k - s
  }

  /** Without a given start, the search starts where `cos(angle)` is negative, so a
      result of 0 then only means that `cos(angle)` never turns positive again. */
  lemma ReversalFromNegative(m: MathLib, angle: seq<real>)
    requires ReversalStart(m, angle, None).Some?
    ensures var s := ReversalStart(m, angle, None).value;
            ReversalDuration(m, angle, None) == 0 <==>
              forall k :: s <= k < |angle| ==> !(m.cos(angle[k]) > 0.0)
  {
    var s := ReversalStart(m, angle, None).value;
    assert m.cos(angle[s]) < 0.0;
  }

  // ---- corrected_cell_angle -------------------------------------------------------

  /** A difference of angles, named so that the half-turn law applies only where it is
      asked for. */
  function Minus(a: real, b: real): real { a - b }

  /** Turning by half a turn negates the cosine. */
  ghost predicate HalfTurnLaw(m: MathLib) {
    forall t {:trigger m.cos(Minus(t, m.pi))} :: m.cos(Minus(t, m.pi)) == -m.cos(t)
  }

  /** `corrected_cell_angle`, given the circular mean `angle0` of the PIV angles: the
      cell angle is turned by pi when it points away from the flow. */
  function CorrectedCellAngle(m: MathLib, cellAngle: real, angle0: real): real {
    if m.cos(angle0 - cellAngle) < 0.0 then cellAngle + m.pi else cellAngle
  }

  /** The corrected angle is the cell angle or its half turn, the flip happens exactly
      when the cell points away from the flow, and afterwards it never does. */
  lemma CorrectedFacesFlow(m: MathLib, cellAngle: real, angle0: real)
    requires TrigLaws(m) && HalfTurnLaw(m)
    ensures var r := CorrectedCellAngle(m, cellAngle, angle0);
            (r == cellAngle || r == cellAngle + m.pi) &&
            (r == cellAngle <==> !(m.cos(angle0 - cellAngle) < 0.0)) &&
            0.0 <= m.cos(angle0 - r)
  {
    if m.cos(angle0 - cellAngle) < 0.0 {
      assert angle0 - (cellAngle + m.pi) == Minus(angle0 - cellAngle, m.pi);
      assert m.cos(angle0 - (cellAngle + m.pi)) == m.cos(Minus(angle0 - cellAngle, m.pi));
    }
  }

  /** Correcting a corrected angle changes nothing. */
  lemma CorrectedIdempotent(m: MathLib, cellAngle: real, angle0: real)
    requires TrigLaws(m) && HalfTurnLaw(m)
    ensures var r := CorrectedCellAngle(m, cellAngle, angle0);
            CorrectedCellAngle(m, r, angle0) == r
  {
    CorrectedFacesFlow(m, cellAngle, angle0);
  }

  // ---- interpolate_piv ------------------------------------------------------------

  /** The times of the samples at which the first trial's trigger is positive. */
  function TriggerTimes(t: seq<real>, trigger: seq<real>): seq<real>
    requires |trigger| == |t|
  {
    Select(t, seq(|t|, i requires 0 <= i < |t| => trigger[i] > 0.0))
  }

  /** `.5 * (tt[:-1] + tt[1:])`: the midpoints of consecutive trigger times. */
  function FrameTimes(tt: seq<real>): (r: seq<real>)
    ensures |tt| > 0 ==> |r| == |tt| - 1
    ensures |tt| == 0 ==> r == []
  {
    if |tt| == 0 then []
    else seq(|tt| - 1, i requires 0 <= i < |tt| - 1 => 0.5 * (tt[i] + tt[i + 1]))
  }

  /** Each frame time lies half-way between its two triggers, so frame times rise
      strictly when trigger times do. */
  lemma FrameTimesBetween(tt: seq<real>)
    requires forall i, j :: 0 <= i < j < |tt| ==> tt[i] < tt[j]
    ensures forall i :: 0 <= i < |FrameTimes(tt)| ==>
              tt[i] < FrameTimes(tt)[i] < tt[i + 1] &&
              FrameTimes(tt)[i] - tt[i] == tt[i + 1] - FrameTimes(tt)[i]
    ensures forall i, j :: 0 <= i < j < |FrameTimes(tt)| ==> FrameTimes(tt)[i] < FrameTimes(tt)[j]
  {
    var ft := FrameTimes(tt);
    forall i, j | 0 <= i < j < |ft|
      ensures ft[i] < ft[j]
    {
      assert ft[i] < tt[i + 1] <= tt[j] < ft[j];
    }
  }

  /** Trigger times keep the order of `t`. */
  lemma TriggerTimesIncrease(t: seq<real>, trigger: seq<real>)
    requires |trigger| == |t| && forall i, j :: 0 <= i < j < |t| ==> t[i] < t[j]
    ensures forall i, j :: 0 <= i < j < |TriggerTimes(t, trigger)| ==>
              TriggerTimes(t, trigger)[i] < TriggerTimes(t, trigger)[j]
  {
    var mask := seq(|t|, i requires 0 <= i < |t| => trigger[i] > 0.0);
    SelectIsPick(t, mask, 0);
    TrueIndicesExact(mask, 0);
    assert t[0..] == t && mask[0..] == mask;
  }

  /** What is interpolated: one array of PIV values (one row per variable sample), or
      a dict of them. */
  datatype Analysis = Single(rows: seq<seq<real>>) | Named(vars: map<string, seq<seq<real>>>)

  /** `np.interp` as a parameter: the values at times t of the piecewise linear
      function through (xp, fp). */
  type Interp = (seq<real>, seq<real>, seq<real>) -> seq<real>

  /** One array interpolated row by row; `np.interp` raises ValueError when there are
      no frame times or a row does not have one value per frame time. */
  function InterpolateRows(interp: Interp, t: seq<real>, ft: seq<real>, rows: seq<seq<real>>)
    : (r: Result<seq<seq<real>>>)
    ensures r.Ok? ==> |r.value| == |rows|
    ensures r.Err? ==> r.error == ValueError
  {
    if |rows| > 0 && (|ft| == 0 || exists i :: 0 <= i < |rows| && |rows[i]| != |ft|) then Err(ValueError)
    else Ok(seq(|rows|, i requires 0 <= i < |rows| => interp(t, ft, rows[i])))
  }

  /** The frame times of a data set, with the errors of reading them: KeyError for a
      missing `t` or `trigger`, IndexError when there is no trigger trial. */
  function DataFrameTimes(data: map<string, DataPreparation.Array>): Result<seq<real>>
    requires DataPreparation.TimeShaped(data)
  {
    if "t" !in data then Err(KeyError("t"))
    else if "trigger" !in data then Err(KeyError("trigger"))
    else if |data["trigger"].rows| == 0 then Err(IndexError)
    else Ok(FrameTimes(TriggerTimes(data["t"].values, data["trigger"].rows[0])))
  }

  /** `interpolate_piv(data, analysis)` as a value. */
  function Interpolated(data: map<string, DataPreparation.Array>, analysis: Analysis, interp: Interp)
    : Result<Analysis>
    requires DataPreparation.TimeShaped(data)
  {
    match DataFrameTimes(data)
    case Err(e) => Err(e)
    case Ok(ft) =>
      var t := data["t"].values;
      match analysis
      case Single(rows) =>
        (match InterpolateRows(interp, t, ft, rows)
         case Err(e) => Err(e)
         case Ok(out) => Ok(Single(out)))
      case Named(vars) =>
        if exists x :: x in vars && InterpolateRows(interp, t, ft, vars[x]).Err? then Err(ValueError)
        else Ok(Named(map x | x in vars :: InterpolateRows(interp, t, ft, vars[x]).value))
  }

  /** A bare array comes back as a bare array with as many rows, and a dict as a dict
      with the same keys and as many rows under each. */
  lemma InterpolatedShape(data: map<string, DataPreparation.Array>, analysis: Analysis, interp: Interp)
    requires DataPreparation.TimeShaped(data) && Interpolated(data, analysis, interp).Ok?
    ensures var r := Interpolated(data, analysis, interp).value;
            (analysis.Single? ==> r.Single? && |r.rows| == |analysis.rows|) &&
            (analysis.Named? ==>
               r.Named? && r.vars.Keys == analysis.vars.Keys &&
               forall x :: x in r.vars ==> |r.vars[x]| == |analysis.vars[x]|)
  {
  }

  /** `interpolate_piv(data, analysis)`: the loop over the variables of the analysis,
      filling the `interpolated` dict. A bare array is handled as the one variable
      `'0'`. */
  method InterpolatePiv(data: map<string, DataPreparation.Array>, analysis: Analysis, interp: Interp)
    returns (r: Result<Analysis>)
    requires DataPreparation.TimeShaped(data)
    ensures r == Interpolated(data, analysis, interp)
  {
    var times := DataFrameTimes(data);
    if times.Err? {
      return Err(times.error);
    }
    var ft := times.value;
    var t := data["t"].values;
    var vars := if analysis.Single? then map["0" := analysis.rows] else analysis.vars;
    var interpolated: map<string, seq<seq<real>>> := map[];
    var todo := vars.Keys;
    while todo != {}
      invariant todo <= vars.Keys
      invariant interpolated.Keys == vars.Keys - todo
      invariant forall x :: x in interpolated ==>
                  InterpolateRows(interp, t, ft, vars[x]) == Ok(interpolated[x])
      decreases todo
    {
      var x :| x in todo;
      var rows := InterpolateRows(interp, t, ft, vars[x]);
      if rows.Err? {
        return Err(ValueError);
      }
      interpolated := interpolated[x := rows.value];
      todo := todo - {x};
    }
    if analysis.Single? {
      return Ok(Single(interpolated["0"]));
    }
    assert interpolated == map x | x in vars :: InterpolateRows(interp, t, ft, vars[x]).value;
    return Ok(Named(interpolated));
  }
}
