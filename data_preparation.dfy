/** Selection, trimming, sub-sampling, merging and alignment of recorded trials
    (file_management/data_preparation.py). A data set is a dict from variable names
    to numpy arrays: the time axis `t` is one-dimensional and every other variable
    holds one row per trial and one column per sample of `t`. The dict is changed in
    place, so it is modelled as an object whose one field is the map. */
module DataPreparation {
  import opened Results
  import opened Indexing

  /** A numpy array of one or two dimensions; a matrix is its list of rows. */
  datatype Array = Vector(values: seq<real>) | Matrix(rows: seq<seq<real>>)

  /** Every row has `width` entries. */
  predicate Rectangular(rows: seq<seq<real>>, width: nat) {
    forall i :: 0 <= i < |rows| ==> |rows[i]| == width
  }

  /** The shape the functions expect of a data set: when `t` is present it is
      one-dimensional, and every other variable is a matrix with one column per
      sample of `t`. */
  predicate TimeShaped(vars: map<string, Array>) {
    "t" in vars ==>
      (vars["t"].Vector? &&
       forall x :: x in vars && x != "t" ==>
         vars[x].Matrix? && Rectangular(vars[x].rows, |vars["t"].values|))
  }

  /** Boolean indexing of every row: `rows[:, mask]`. */
  function Columns(rows: seq<seq<real>>, mask: seq<bool>): (r: seq<seq<real>>)
    requires Rectangular(rows, |mask|)
    ensures |r| == |rows|
  {
    seq(|rows|, i requires 0 <= i < |rows| => Select(rows[i], mask))
  }

  /** Boolean indexing keeps the same number of columns in every row. */
  lemma ColumnsShape(rows: seq<seq<real>>, mask: seq<bool>)
    requires Rectangular(rows, |mask|)
    ensures Rectangular(Columns(rows, mask), Count(mask))
  {
    forall i | 0 <= i < |rows| {
      SelectLength(rows[i], mask);
    }
  }

  // ---- trim_data ------------------------------------------------------------------

  /** The mask `t < t_end`. */
  function Below(t: seq<real>, tEnd: real): (m: seq<bool>)
    ensures |m| == |t|
  {
    seq(|t|, i requires 0 <= i < |t| => t[i] < tEnd)
  }

  /** The data set after `trim_data(data, t_end)`: the mask is computed once from the
      original `t` and applied to `t` and to the columns of every other variable. */
  function Trimmed(vars: map<string, Array>, tEnd: real): map<string, Array>
    requires TimeShaped(vars) && "t" in vars
  {
    var t := vars["t"].values;
    var mask := Below(t, tEnd);
    map x | x in vars :: if x == "t" then Vector(Select(t, mask)) else Matrix(Columns(vars[x].rows, mask))
  }

  /** Trimming keeps exactly the samples of `t` below `t_end`, in their original order. */
  lemma TrimKeepsBelow(vars: map<string, Array>, tEnd: real)
    requires TimeShaped(vars) && "t" in vars
    ensures var t := vars["t"].values;
            var kept := TrueIndices(Below(t, tEnd), 0);
            (forall k :: 0 <= k < |kept| ==> kept[k] < |t| && t[kept[k]] < tEnd) &&
            (forall k, l :: 0 <= k < l < |kept| ==> kept[k] < kept[l]) &&
            (forall i :: 0 <= i < |t| && t[i] < tEnd ==> i in kept) &&
            Trimmed(vars, tEnd)["t"] == Vector(Pick(t, kept))
  {
    var t := vars["t"].values;
    var mask := Below(t, tEnd);
    TrueIndicesExact(mask, 0);
    SelectIsPick(t, mask, 0);
    assert t[0..] == t && mask[0..] == mask;
  }

  /** Every other variable keeps, in every trial, the columns at the same positions as
      the samples `t` keeps. */
  lemma TrimKeepsColumns(vars: map<string, Array>, tEnd: real, x: string, i: nat)
    requires TimeShaped(vars) && "t" in vars && x in vars && x != "t"
    requires i < |vars[x].rows|
    ensures var kept := TrueIndices(Below(vars["t"].values, tEnd), 0);
            (forall k :: 0 <= k < |kept| ==> kept[k] < |vars[x].rows[i]|) &&
            Trimmed(vars, tEnd)[x].rows[i] == Pick(vars[x].rows[i], kept)
  {
    var row := vars[x].rows[i];
    var mask := Below(vars["t"].values, tEnd);
    SelectIsPick(row, mask, 0);
    assert row[0..] == row && mask[0..] == mask;
  }

  /** A trimmed data set still has the expected shape. */
  lemma TrimPreservesShape(vars: map<string, Array>, tEnd: real)
    requires TimeShaped(vars) && "t" in vars
    ensures TimeShaped(Trimmed(vars, tEnd))
  {
    var t := vars["t"].values;
    var mask := Below(t, tEnd);
    SelectLength(t, mask);
    forall x | x in vars && x != "t"
      ensures Rectangular(Trimmed(vars, tEnd)[x].rows, Count(mask))
    {
      ColumnsShape(vars[x].rows, mask);
    }
  }

  /** Trimming twice at the same time trims nothing more. */
  lemma TrimIdempotent(vars: map<string, Array>, tEnd: real)
    requires TimeShaped(vars) && "t" in vars
    ensures TimeShaped(Trimmed(vars, tEnd))
    ensures Trimmed(Trimmed(vars, tEnd), tEnd) == Trimmed(vars, tEnd)
  {
    TrimPreservesShape(vars, tEnd);
    var t := vars["t"].values;
    var mask := Below(t, tEnd);
    var once := Trimmed(vars, tEnd);
    var t1 := Select(t, mask);
    var mask1 := Below(t1, tEnd);
    SelectFrom(t, mask);
    forall k | 0 <= k < |t1|
      ensures mask1[k]
    {
      assert t1[k] in t1;
    }
    SelectAll(t1, mask1);
    forall x | x in once
      ensures Trimmed(once, tEnd)[x] == once[x]
    {
      if x != "t" {
        var rows := once[x].rows;
        forall i | 0 <= i < |rows|
          ensures Select(rows[i], mask1) == rows[i]
        {
          SelectAll(rows[i], mask1);
        }
      }
    }
  }

  // ---- subsample ------------------------------------------------------------------

  /** `rows[:, ::n]`. */
  function Strided(rows: seq<seq<real>>, n: nat): (r: seq<seq<real>>)
    requires n > 0
    ensures |r| == |rows|
  {
    seq(|rows|, i requires 0 <= i < |rows| => Every(rows[i], n))
  }

  /** One row of the new trigger: zeros, with a 1 at `j / n` for every sample j at
      which the original trigger is positive. */
  function TriggerRow(row: seq<real>, n: nat, len: nat): (r: seq<real>)
    requires n > 0
    ensures |r| == len
  {
    seq(len, k => if exists j :: 0 <= j < |row| && row[j] > 0.0 && j / n == k then 1.0 else 0.0)
  }

  /** The data set after `subsample(data, n)`. */
  function Subsampled(vars: map<string, Array>, n: nat): map<string, Array>
    requires TimeShaped(vars) && "t" in vars && n > 0
  {
    var t := Every(vars["t"].values, n);
    map x | x in vars ::
      if x == "t" then Vector(t)
      else if x == "trigger" then Matrix(seq(|vars[x].rows|, i requires 0 <= i < |vars[x].rows| =>
                                             TriggerRow(vars[x].rows[i], n, |t|)))
      else Matrix(Strided(vars[x].rows, n))
  }

  /** A positive trigger sample j always lands inside the sub-sampled row, at `j / n`. */
  lemma TriggerInBounds(row: seq<real>, n: nat, j: nat)
    requires n > 0 && j < |row| && row[j] > 0.0
    ensures j / n < |Every(row, n)|
    ensures TriggerRow(row, n, |Every(row, n)|)[j / n] == 1.0
  {
    EveryCovers(row, n, j);
  }

  /** Sub-sampling keeps samples 0, n, 2n, ... of `t` and of every trial of every
      variable other than `t` and `trigger`. */
  lemma SubsampleKeepsEveryNth(vars: map<string, Array>, n: nat, x: string, i: nat, k: nat)
    requires TimeShaped(vars) && "t" in vars && n > 0
    requires x in vars && x != "t" && x != "trigger" && i < |vars[x].rows|
    requires k < |Subsampled(vars, n)["t"].values|
    ensures k * n < |vars["t"].values|
    ensures Subsampled(vars, n)["t"].values[k] == vars["t"].values[k * n]
    ensures k < |Subsampled(vars, n)[x].rows[i]|
    ensures Subsampled(vars, n)[x].rows[i][k] == vars[x].rows[i][k * n]
  {
    var t := vars["t"].values;
    var row := vars[x].rows[i];
    EveryAt(t, n, k);
    EveryLength(t, row, n);
    EveryAt(row, n, k);
  }

  /** A sub-sampled data set still has the expected shape: the new trigger has one row
      per trial and as many columns as the new `t`. */
  lemma SubsamplePreservesShape(vars: map<string, Array>, n: nat)
    requires TimeShaped(vars) && "t" in vars && n > 0
    ensures TimeShaped(Subsampled(vars, n))
    ensures "trigger" in vars ==>
              |Subsampled(vars, n)["trigger"].rows| == |vars["trigger"].rows|
  {
    var t := vars["t"].values;
    var s := Subsampled(vars, n);
    forall x | x in vars && x != "t" && x != "trigger"
      ensures Rectangular(s[x].rows, |s["t"].values|)
    {
      forall i | 0 <= i < |vars[x].rows| {
        EveryLength(vars[x].rows[i], t, n);
      }
    }
  }

  // ---- amplitudes -----------------------------------------------------------------

  /** The mask `(t >= start) & (t <= end)`: both ends are included. */
  function Window(t: seq<real>, start: real, end: real): (m: seq<bool>)
    ensures |m| == |t|
  {
    seq(|t|, i requires 0 <= i < |t| => start <= t[i] && t[i] <= end)
  }

  /** `amplitudes(data, start, end)`: the mean of `I` over the stimulus window, one
      value per trial. An empty window makes numpy's mean NaN for every trial. */
  function Amplitudes(vars: map<string, Array>, start: real, end: real): (r: Result<seq<real>>)
    requires TimeShaped(vars)
    ensures r.Ok? ==> "t" in vars && "I" in vars && |r.value| == |vars["I"].rows|
    ensures "t" !in vars ==> r == Err(KeyError("t"))
    ensures "t" in vars && "I" !in vars ==> r == Err(KeyError("I"))
    ensures "t" in vars && "I" in vars ==>
              (r.Ok? <==> Count(Window(vars["t"].values, start, end)) > 0 || |vars["I"].rows| == 0)
    ensures "t" in vars && "I" in vars && r.Err? ==> r.error == InvalidValue
  {
    if "t" !in vars then Err(KeyError("t"))
    else if "I" !in vars then Err(KeyError("I"))
    else
      var t := vars["t"].values;
      var w := Window(t, start, end);
      var rows := vars["I"].rows;
      if Count(w) == 0 && |rows| > 0 then Err(InvalidValue)
      else
        ColumnsShape(rows, w);
        Ok(seq(|rows|, i requires 0 <= i < |rows| => Mean(Columns(rows, w)[i])))
  }

  /** Each amplitude is the mean of that trial's `I` over exactly the samples with
      `start <= t <= end`. */
  lemma AmplitudesWindow(vars: map<string, Array>, start: real, end: real, i: nat)
    requires TimeShaped(vars) && Amplitudes(vars, start, end).Ok?
    requires i < |Amplitudes(vars, start, end).value|
    ensures var t := vars["t"].values;
            var kept := TrueIndices(Window(t, start, end), 0);
            |kept| > 0 &&
            (forall k :: 0 <= k < |kept| ==> kept[k] < |t| && start <= t[kept[k]] <= end) &&
            (forall j :: 0 <= j < |t| && start <= t[j] <= end ==> j in kept) &&
            (forall k :: 0 <= k < |kept| ==> kept[k] < |vars["I"].rows[i]|) &&
            Amplitudes(vars, start, end).value[i] == Mean(Pick(vars["I"].rows[i], kept))
  {
    var t := vars["t"].values;
    var w := Window(t, start, end);
    var row := vars["I"].rows[i];
    TrueIndicesExact(w, 0);
    SelectIsPick(row, w, 0);
    SelectLength(row, w);
    SelectIsPick(t, w, 0);
    SelectLength(t, w);
    assert row[0..] == row && w[0..] == w && t[0..] == t;
  }

  /** The amplitude lies within any bounds `I` keeps during the stimulus; in
      particular a constant current gives that constant. */
  lemma AmplitudesBounds(vars: map<string, Array>, start: real, end: real, i: nat, lo: real, hi: real)
    requires TimeShaped(vars) && Amplitudes(vars, start, end).Ok?
    requires i < |Amplitudes(vars, start, end).value|
    requires forall j :: 0 <= j < |vars["t"].values| && start <= vars["t"].values[j] <= end ==>
               lo <= vars["I"].rows[i][j] <= hi
    ensures lo <= Amplitudes(vars, start, end).value[i] <= hi
  {
    var t := vars["t"].values;
    var kept := TrueIndices(Window(t, start, end), 0);
    var row := vars["I"].rows[i];
    AmplitudesWindow(vars, start, end, i);
    var picked := Pick(row, kept);
    forall k | 0 <= k < |picked|
      ensures lo <= picked[k] <= hi
    {
      assert picked[k] == row[kept[k]];
    }
    MeanBounds(picked, lo, hi);
  }

  // ---- align_traces ---------------------------------------------------------------

  /** One trace shifted so that its mean over the selected columns becomes `v0`. */
  function Aligned(row: seq<real>, v0: real, cols: seq<nat>): seq<real>
    requires |cols| > 0 && forall k :: 0 <= k < |cols| ==> cols[k] < |row|
  {
    Shift(row, v0 - Mean(Pick(row, cols)))
  }

  /** After alignment the mean over the selected columns is exactly `v0`, and the
      trace has only moved by a constant. */
  lemma AlignedMean(row: seq<real>, v0: real, cols: seq<nat>)
    requires |cols| > 0 && forall k :: 0 <= k < |cols| ==> cols[k] < |row|
    ensures |Aligned(row, v0, cols)| == |row|
    ensures Mean(Pick(Aligned(row, v0, cols), cols)) == v0
    ensures forall j, l :: 0 <= j < |row| && 0 <= l < |row| ==>
              Aligned(row, v0, cols)[j] - Aligned(row, v0, cols)[l] == row[j] - row[l]
  {
    var c := v0 - Mean(Pick(row, cols));
    PickShift(row, cols, c);
    MeanShift(Pick(row, cols), c);
  }

  /** Aligning an aligned trace on the same value changes nothing. */
  lemma AlignIdempotent(row: seq<real>, v0: real, cols: seq<nat>)
    requires |cols| > 0 && forall k :: 0 <= k < |cols| ==> cols[k] < |row|
    ensures Aligned(Aligned(row, v0, cols), v0, cols) == Aligned(row, v0, cols)
  {
    AlignedMean(row, v0, cols);
    var once := Aligned(row, v0, cols);
    assert Shift(once, 0.0) == once;
  }

  /** `align_traces(v, v0, selection)`: every trace (row of `v`) is shifted in place so
      that its mean over the selected columns is `v0`; `v` itself is returned. A
      selection naming a column that does not exist raises IndexError; an empty one
      makes the means NaN. `width` is the number of columns numpy records in the
      array's shape. */
  method AlignTraces(v: array<seq<real>>, width: nat, v0: real, sel: Selection)
    returns (r: Result<array<seq<real>>>)
    requires Rectangular(v[..], width)
    modifies v
    ensures !Fits(sel, width) ==> r == Err(IndexError) && v[..] == old(v[..])
    ensures Fits(sel, width) && |Positions(sel, width).value| == 0 && v.Length > 0 ==>
              r == Err(InvalidValue) && v[..] == old(v[..])
    ensures r.Ok? ==>
              Fits(sel, width) && r.value == v &&
              (v.Length > 0 ==> |Positions(sel, width).value| > 0)
    ensures Fits(sel, width) && (v.Length == 0 || |Positions(sel, width).value| > 0) ==> r.Ok?
    ensures r.Ok? ==>
              forall i :: 0 <= i < v.Length ==>
                v[i] == Aligned(old(v[i]), v0, Positions(sel, width).value) &&
                Mean(Pick(v[i], Positions(sel, width).value)) == v0
  {
    var pos := Positions(sel, width);
    if pos.None? {
      return Err(IndexError);
    }
    var cols := pos.value;
    if v.Length == 0 {
      return Ok(v);
    }
    if |cols| == 0 {
      return Err(InvalidValue);
    }
    forall i | 0 <= i < v.Length {
      v[i] := Aligned(v[i], v0, cols);
    }
    forall i | 0 <= i < v.Length
      ensures Mean(Pick(v[i], cols)) == v0
    {
      AlignedMean(old(v[i]), v0, cols);
    }
    return Ok(v);
  }

  // ---- select_trials --------------------------------------------------------------

  /** Every variable other than `t` is a matrix with `ntrials` rows. */
  predicate SameTrials(vars: map<string, Array>, ntrials: nat) {
    forall x :: x in vars && x != "t" ==> vars[x].Matrix? && |vars[x].rows| == ntrials
  }

  /** Some variable other than `t` is present, so indexing by trial happens. */
  predicate HasTrials(vars: map<string, Array>) {
    exists x :: x in vars && x != "t"
  }

  /** The data set after its trials have been indexed: `t` is kept and every other
      variable keeps the rows at `pos`. */
  function TrialsSelected(vars: map<string, Array>, ntrials: nat, pos: seq<nat>): map<string, Array>
    requires SameTrials(vars, ntrials) && forall k :: 0 <= k < |pos| ==> pos[k] < ntrials
  {
    map x | x in vars :: if x == "t" then vars[x] else Matrix(Pick(vars[x].rows, pos))
  }

  /** What `select_trials` returns: a list as it was given, a mask as the increasing
      positions of its set flags. */
  function Reported(sel: Selection): seq<int> {
    match sel
    case Indices(idx) => idx
    case Mask(flags) => TrueIndices(flags, 0)
  }

  /** The trials `select_trials` reports are the trials it kept, in order: row k of
      every variable is the original row at the k-th reported index (counted from the
      end when negative); a mask reports the positions of its set flags, increasing. */
  lemma SelectTrialsReportsKept(vars: map<string, Array>, ntrials: nat, sel: Selection, x: string)
    requires SameTrials(vars, ntrials) && Fits(sel, ntrials) && x in vars && x != "t"
    ensures var after := TrialsSelected(vars, ntrials, Positions(sel, ntrials).value);
            var reported := Reported(sel);
            |after[x].rows| == |reported| &&
            forall k :: 0 <= k < |reported| ==>
              -(ntrials as int) <= reported[k] < ntrials &&
              after[x].rows[k] == vars[x].rows[Wrap(reported[k], ntrials)]
    ensures sel.Mask? ==>
              TrialsSelected(vars, ntrials, Positions(sel, ntrials).value)[x].rows ==
              Select(vars[x].rows, sel.flags)
    ensures sel.Mask? ==>
              forall k, l :: 0 <= k < l < |Reported(sel)| ==> Reported(sel)[k] < Reported(sel)[l]
  {
    var rows := vars[x].rows;
    PositionsMeaning(rows, sel);
    if sel.Mask? {
      TrueIndicesExact(sel.flags, 0);
    }
  }

  // ---- merge_data -----------------------------------------------------------------

  /** A one-dimensional array stacks as a single row. */
  function AsRows(a: Array): seq<seq<real>> {
    match a
    case Vector(values) => [values]
    case Matrix(rows) => rows
  }

  /** All rows have the same length, as `np.vstack` demands. */
  predicate SameWidth(rows: seq<seq<real>>) {
    forall i, j :: 0 <= i < |rows| && 0 <= j < |rows| ==> |rows[i]| == |rows[j]|
  }

  /** The new value of key x when `value` is merged into `dataset`: a one-dimensional
      value or a new key is taken as it is; otherwise the rows are stacked below the
      existing ones, and rows of different widths make `np.vstack` raise ValueError. */
  function Combine(dataset: map<string, Array>, x: string, value: Array): Result<Array> {
    if value.Vector? || x !in dataset then Ok(value)
    else if SameWidth(AsRows(dataset[x]) + value.rows) then Ok(Matrix(AsRows(dataset[x]) + value.rows))
    else Err(ValueError)
  }

  /** Merging one data set into the accumulated one; the keys of a data set are
      distinct, so each is combined with the value from before this data set. */
  function MergeSet(dataset: map<string, Array>, single: map<string, Array>): Result<map<string, Array>> {
    if exists x :: x in single && Combine(dataset, x, single[x]).Err? then Err(ValueError)
    else Ok(map x | x in dataset.Keys + single.Keys ::
              if x in single then Combine(dataset, x, single[x]).value else dataset[x])
  }

  /** `merge_data(data)`, as a fold over the list of data sets in order. */
  function Merged(sets: seq<map<string, Array>>): Result<map<string, Array>> {
    if |sets| == 0 then Ok(map[])
    else match Merged(sets[..|sets| - 1])
         case Err(e) => Err(e)
         case Ok(dataset) => MergeSet(dataset, sets[|sets| - 1])
  }

  /** A failure while merging a prefix is the failure of the whole merge. */
  lemma {:induction false} MergedPrefixErr(sets: seq<map<string, Array>>, i: nat)
    requires i <= |sets| && Merged(sets[..i]).Err?
    ensures Merged(sets) == Merged(sets[..i])
    decreases |sets|
  {
    if i < |sets| {
      var front := sets[..|sets| - 1];
      assert front[..i] == sets[..i];
      MergedPrefixErr(front, i);
    } else {
      assert sets[..i] == sets;
    }
  }

  /** The keys of a list of data sets. */
  function KeysOf(sets: seq<map<string, Array>>): set<string> {
    set x, i | 0 <= i < |sets| && x in sets[i] :: x
  }

  /** The merged data set has exactly the keys of the data sets. */
  lemma {:induction false} MergedKeys(sets: seq<map<string, Array>>)
    requires Merged(sets).Ok?
    ensures Merged(sets).value.Keys == KeysOf(sets)
  {
    if |sets| > 0 {
      var front := sets[..|sets| - 1];
      MergedKeys(front);
      KeysOfLast(sets);
    }
  }

  /** A one-dimensional value comes from the last data set that has the key. */
  lemma {:induction false} MergedVectorFromLast(sets: seq<map<string, Array>>, x: string, i: nat)
    requires Merged(sets).Ok? && i < |sets| && x in sets[i] && sets[i][x].Vector?
    requires forall j :: i < j < |sets| ==> x !in sets[j]
    ensures x in Merged(sets).value && Merged(sets).value[x] == sets[i][x]
  {
    var front := sets[..|sets| - 1];
    if i < |sets| - 1 {
      assert front[i] == sets[i];
      MergedVectorFromLast(front, x, i);
    }
  }

  /** The rows of x from every data set that has it, stacked in order. */
  function Stacked(sets: seq<map<string, Array>>, x: string): seq<seq<real>> {
    if |sets| == 0 then []
    else Stacked(sets[..|sets| - 1], x) +
         (if x in sets[|sets| - 1] then AsRows(sets[|sets| - 1][x]) else [])
  }

  /** Where every data set holds x as a matrix, the merged x is all their rows stacked
      in data-set order, so its row count is the sum of theirs. */
  lemma {:induction false} MergedStacks(sets: seq<map<string, Array>>, x: string)
    requires Merged(sets).Ok? && x in KeysOf(sets)
    requires forall i :: 0 <= i < |sets| && x in sets[i] ==> sets[i][x].Matrix?
    ensures x in Merged(sets).value && Merged(sets).value[x] == Matrix(Stacked(sets, x))
  {
    MergedKeys(sets);
    var front := sets[..|sets| - 1];
    var last := sets[|sets| - 1];
    MergedKeys(front);
    if x in KeysOf(front) {
      forall i | 0 <= i < |front| && x in front[i]
        ensures front[i][x].Matrix?
      {
        assert front[i] == sets[i];
      }
      MergedStacks(front, x);
    } else {
      assert Stacked(front, x) == [] by {
        StackedAbsent(front, x);
      }
    }
  }

  lemma {:induction false} StackedAbsent(sets: seq<map<string, Array>>, x: string)
    requires x !in KeysOf(sets)
    ensures Stacked(sets, x) == []
  {
    if |sets| > 0 {
      var front := sets[..|sets| - 1];
      assert x !in sets[|sets| - 1];
      forall y | y in KeysOf(front)
        ensures y in KeysOf(sets)
      {
        var i :| 0 <= i < |front| && y in front[i];
        assert y in sets[i];
      }
      StackedAbsent(front, x);
    }
  }

  /** The keys of a list of data sets are those of all but the last, and the last's. */
  lemma KeysOfLast(sets: seq<map<string, Array>>)
    requires |sets| > 0
    ensures KeysOf(sets) == KeysOf(sets[..|sets| - 1]) + sets[|sets| - 1].Keys
  {
    var front := sets[..|sets| - 1];
    forall x | x in KeysOf(sets)
      ensures x in KeysOf(front) || x in sets[|sets| - 1]
    {
      var i :| 0 <= i < |sets| && x in sets[i];
      if i < |sets| - 1 {
        assert x in front[i];
      }
    }
    forall x | x in KeysOf(front)
      ensures x in KeysOf(sets)
    {
      var i :| 0 <= i < |front| && x in front[i];
      assert x in sets[i];
    }
  }

  /** Rows of one width stay of one width when the last ones are dropped. */
  lemma SameWidthPrefix(a: seq<seq<real>>, b: seq<seq<real>>)
    requires SameWidth(a + b)
    ensures SameWidth(a)
  {
    forall i, j | 0 <= i < |a| && 0 <= j < |a|
      ensures |a[i]| == |a[j]|
    {
      assert (a + b)[i] == a[i] && (a + b)[j] == a[j];
    }
  }

  /** Every value of every data set is a matrix whose rows have one width, as a
      two-dimensional numpy array has. */
  predicate AllMatrices(sets: seq<map<string, Array>>) {
    forall i, x :: 0 <= i < |sets| && x in sets[i] ==> sets[i][x].Matrix? && SameWidth(sets[i][x].rows)
  }

  /** When the merge succeeds: for data sets of matrices it does exactly when, for every
      key, the rows of all the data sets holding it have one width; otherwise `np.vstack`
      raises ValueError. */
  lemma {:induction false} MergedOk(sets: seq<map<string, Array>>)
    requires AllMatrices(sets)
    ensures Merged(sets).Ok? <==> forall x :: x in KeysOf(sets) ==> SameWidth(Stacked(sets, x))
    ensures Merged(sets).Err? ==> Merged(sets).error == ValueError
  {
    if |sets| > 0 {
      var front: seq<map<string, Array>> := sets[..|sets| - 1];
      var last: map<string, Array> := sets[|sets| - 1];
      forall i: int, x: string | 0 <= i < |front| && x in front[i]
        ensures front[i][x].Matrix? && SameWidth(front[i][x].rows)
      {
        assert front[i] == sets[i];
      }
      MergedOk(front);
      KeysOfLast(sets);
      forall x | x in KeysOf(front) && SameWidth(Stacked(sets, x))
        ensures SameWidth(Stacked(front, x))
      {
        SameWidthPrefix(Stacked(front, x), if x in last then AsRows(last[x]) else []);
      }
      if Merged(front).Ok? {
        var d := Merged(front).value;
        MergedKeys(front);
        forall x | x in last
          ensures Combine(d, x, last[x]).Ok? <==> SameWidth(Stacked(sets, x))
        {
          if x in KeysOf(front) {
            forall i: int | 0 <= i < |front| && x in front[i]
              ensures front[i][x].Matrix?
            {
              assert front[i] == sets[i];
            }
            MergedStacks(front, x);
          } else {
            StackedAbsent(front, x);
            assert Stacked(sets, x) == last[x].rows;
          }
        }
        forall x | x in KeysOf(front) && x !in last
          ensures Stacked(sets, x) == Stacked(front, x)
        {
        }
      }
    }
  }

  /** `merge_data(data)`: the loops over the data sets and over the keys of each. */
  method MergeData(sets: seq<map<string, Array>>) returns (r: Result<map<string, Array>>)
    ensures r == Merged(sets)
    ensures sets == [] ==> r == Ok(map[])
  {
    var dataset: map<string, Array> := map[];
    var i := 0;
    while i < |sets|
      invariant 0 <= i <= |sets| && Merged(sets[..i]) == Ok(dataset)
    {
      var single := sets[i];
      ghost var before := dataset;
      var todo := single.Keys;
      while todo != {}
        invariant todo <= single.Keys
        invariant dataset.Keys == before.Keys + (single.Keys - todo)
        invariant forall x :: x in single.Keys - todo ==> Combine(before, x, single[x]).Ok?
        invariant forall x :: x in dataset ==>
                    dataset[x] == if x in single.Keys - todo then Combine(before, x, single[x]).value else before[x]
        decreases todo
      {
        var x :| x in todo;
        var c := Combine(dataset, x, single[x]);
        assert c == Combine(before, x, single[x]);
        if c.Err? {
          assert sets[..i + 1][..i] == sets[..i];
          assert MergeSet(before, single) == Err(ValueError);
          MergedPrefixErr(sets, i + 1);
          return Err(ValueError);
        }
        dataset := dataset[x := c.value];
        todo := todo - {x};
      }
      assert sets[..i + 1][..i] == sets[..i];
      assert single.Keys - todo == single.Keys;
      assert !exists x :: x in single && Combine(before, x, single[x]).Err?;
      assert MergeSet(before, single) == Ok(dataset) by {
        var merged := map x | x in before.Keys + single.Keys ::
          if x in single then Combine(before, x, single[x]).value else before[x];
        assert MergeSet(before, single) == Ok(merged);
        assert merged.Keys == dataset.Keys;
        forall x | x in dataset
          ensures merged[x] == dataset[x]
        {
        }
        assert merged == dataset;
      }
      i := i + 1;
    }
    assert sets[..i] == sets;
    return Ok(dataset);
  }

  // ---- the data set, changed in place ---------------------------------------------

  /** A data set: the dict the functions of data_preparation.py change in place. */
  class Dataset {
    var vars: map<string, Array>

    constructor(vars0: map<string, Array>)
      ensures vars == vars0
    {
      vars := vars0;
    }

    /** `trim_data(data, t_end)`: cuts every variable at `t < t_end`. */
    method Trim(tEnd: real) returns (r: Result<()>)
      requires TimeShaped(vars)
      modifies this
      ensures "t" !in old(vars) ==> r == Err(KeyError("t")) && vars == old(vars)
      ensures "t" in old(vars) ==> r == Ok(()) && vars == Trimmed(old(vars), tEnd)
    {
      if "t" !in vars {
        return Err(KeyError("t"));
      }
      ghost var start := vars;
      var t := vars["t"].values;
      var mask := Below(t, tEnd);
      vars := vars["t" := Vector(Select(t, mask))];
      var todo := vars.Keys - {"t"};
      while todo != {}
        invariant todo <= start.Keys && "t" !in todo
        invariant vars.Keys == start.Keys
        invariant forall x :: x in start ==>
                    vars[x] == if x in todo then start[x] else Trimmed(start, tEnd)[x]
        decreases todo
      {
        var x :| x in todo;
        vars := vars[x := Matrix(Columns(vars[x].rows, mask))];
        todo := todo - {x};
      }
      return Ok(());
    }

    /** `subsample(data, n)`: keeps every n-th sample and re-indexes the trigger. The
        trigger is rebuilt after the other variables, so a missing `trigger` raises
        KeyError with the rest already sub-sampled. */
    method Subsample(n: nat) returns (r: Result<()>)
      requires TimeShaped(vars)
      modifies this
      ensures "t" !in old(vars) ==> r == Err(KeyError("t")) && vars == old(vars)
      ensures "t" in old(vars) && n == 0 ==> r == Err(ValueError) && vars == old(vars)
      ensures "t" in old(vars) && n > 0 ==>
                vars == Subsampled(old(vars), n) &&
                r == if "trigger" in old(vars) then Ok(()) else Err(KeyError("trigger"))
    {
      if "t" !in vars {
        return Err(KeyError("t"));
      }
      if n == 0 {
        return Err(ValueError);
      }
      ghost var start := vars;
      var t := Every(vars["t"].values, n);
      vars := vars["t" := Vector(t)];
      var todo := vars.Keys - {"t", "trigger"};
      while todo != {}
        invariant todo <= start.Keys && "t" !in todo && "trigger" !in todo
        invariant vars.Keys == start.Keys
        invariant forall x :: x in start && x != "trigger" ==>
                    vars[x] == if x in todo then start[x] else Subsampled(start, n)[x]
        invariant "trigger" in start ==> vars["trigger"] == start["trigger"]
        decreases todo
      {
        var x :| x in todo;
        vars := vars[x := Matrix(Strided(vars[x].rows, n))];
        todo := todo - {x};
      }
      ghost var expected := Subsampled(start, n);
      if "trigger" !in vars {
        assert forall x :: x in vars ==> vars[x] == expected[x];
        assert vars == expected;
        return Err(KeyError("trigger"));
      }
      var trigger := vars["trigger"].rows;
      forall i | 0 <= i < |trigger|
        ensures |Every(trigger[i], n)| == |t|
      {
        EveryLength(trigger[i], start["t"].values, n);
      }
      var rebuilt := NewTrigger(trigger, n, |t|);
      assert Matrix(rebuilt) == expected["trigger"];
      vars := vars["trigger" := Matrix(rebuilt)];
      assert forall x :: x in vars ==> vars[x] == expected[x];
      assert vars == expected;
      return Ok(());
    }

    /** `select_trials(data, selection)`: keeps the selected trials of every variable
        but `t` and reports their indices. `ntrials` is the common number of trials. */
    method SelectTrials(sel: Selection, ghost ntrials: nat) returns (r: Result<seq<int>>)
      requires SameTrials(vars, ntrials)
      modifies this
      ensures HasTrials(old(vars)) && !Fits(sel, ntrials) ==> r == Err(IndexError) && vars == old(vars)
      ensures !HasTrials(old(vars)) ==> r == Ok(Reported(sel)) && vars == old(vars)
      ensures Fits(sel, ntrials) ==>
                r == Ok(Reported(sel)) &&
                vars == TrialsSelected(old(vars), ntrials, Positions(sel, ntrials).value)
    {
      ghost var start := vars;
      var todo := vars.Keys - {"t"};
      while todo != {}
        invariant todo <= start.Keys && "t" !in todo
        invariant vars.Keys == start.Keys
        invariant todo != start.Keys - {"t"} ==> Fits(sel, ntrials)
        invariant Fits(sel, ntrials) ==>
                    forall x :: x in start ==>
                      vars[x] == if x in todo || x == "t" then start[x]
                                 else TrialsSelected(start, ntrials, Positions(sel, ntrials).value)[x]
        invariant !Fits(sel, ntrials) ==> vars == start
        decreases todo
      {
        var x :| x in todo;
        var rows := vars[x].rows;
        var pos := Positions(sel, |rows|);
        if pos.None? {
          return Err(IndexError);
        }
        vars := vars[x := Matrix(Pick(rows, pos.value))];
        todo := todo - {x};
      }
      if HasTrials(start) {
        var x :| x in start && x != "t";
        assert x in start.Keys - {"t"};
      }
      return Ok(Reported(sel));
    }
  }

  /** The loop over trials that builds the new trigger: each row starts as zeros and
      gets a 1 at `j / n` for every positive sample j. Each original row sub-samples to
      `len` entries, which keeps every write in bounds. */
  method NewTrigger(trigger: seq<seq<real>>, n: nat, len: nat) returns (r: seq<seq<real>>)
    requires n > 0 && forall i :: 0 <= i < |trigger| ==> |Every(trigger[i], n)| == len
    ensures |r| == |trigger|
    ensures forall i :: 0 <= i < |trigger| ==> r[i] == TriggerRow(trigger[i], n, len)
  {
    r := [];
    var i := 0;
    while i < |trigger|
      invariant 0 <= i <= |trigger| && |r| == i
      invariant forall k :: 0 <= k < i ==> r[k] == TriggerRow(trigger[k], n, len)
    {
      var row := trigger[i];
      var marks := new real[len](_ => 0.0);
      var j := 0;
      while j < |row|
        invariant 0 <= j <= |row|
        invariant forall k :: 0 <= k < len ==>
                    marks[k] == if exists l :: 0 <= l < j && row[l] > 0.0 && l / n == k then 1.0 else 0.0
      {
        if row[j] > 0.0 {
          EveryCovers(row, n, j);
          marks[j / n] := 1.0;
        }
        j := j + 1;
      }
      assert marks[..] == TriggerRow(row, n, len);
      r := r + [marks[..]];
      i := i + 1;
    }
  }
}
