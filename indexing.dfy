/** numpy's slicing and indexing of one-dimensional data, on sequences: `xs[::n]`,
    boolean masks, integer index lists with negative wrap-around, and the mean. */
module Indexing {
  import opened Results

  /** The slice `xs[::n]`: the entries at 0, n, 2n, ... */
  function Every<T>(xs: seq<T>, n: nat): seq<T>
    requires n > 0
    decreases |xs|
  {
    if |xs| == 0 then [] else [xs[0]] + Every(xs[if n < |xs| then n else |xs|..], n)
  }

  /** Entry k of `xs[::n]` is entry k n of `xs`. */
  lemma {:induction false} EveryAt<T>(xs: seq<T>, n: nat, k: nat)
    requires n > 0 && k < |Every(xs, n)|
    ensures k * n < |xs| && Every(xs, n)[k] == xs[k * n]
    decreases |xs|
  {
    if k > 0 {
      assert n < |xs|;
      var rest := xs[n..];
      assert Every(xs, n)[k] == Every(rest, n)[k - 1];
      EveryAt(rest, n, k - 1);
      MulStep(k, n);
      assert rest[(k - 1) * n] == xs[(k - 1) * n + n];
    }
  }

  lemma MulStep(k: nat, n: nat)
    requires k > 0
    ensures (k - 1) * n + n == k * n
  {
  }

  /** Every entry of `xs` falls into a sample of `xs[::n]`: entry j is in the run that
      starts at sample j / n. */
  lemma {:induction false} EveryCovers<T>(xs: seq<T>, n: nat, j: nat)
    requires n > 0 && j < |xs|
    ensures j / n < |Every(xs, n)|
    decreases |xs|
  {
    if j >= n {
      var rest := xs[n..];
      assert |Every(xs, n)| == 1 + |Every(rest, n)|;
      EveryCovers(rest, n, j - n);
      DivStep(j, n);
    } else {
      DivSmall(j, n);
    }
  }

  lemma DivStep(j: nat, n: nat)
    requires 0 < n <= j
    ensures (j - n) / n + 1 == j / n
  {
    var q, r := (j - n) / n, (j - n) % n;
    assert j - n == q * n + r;
    assert j == (q + 1) * n + r by { assert (q + 1) * n == q * n + n; }
    DivUnique(j, n, q + 1, r);
  }

  lemma DivUnique(a: int, n: int, q: int, r: int)
    requires n > 0 && 0 <= r < n && a == q * n + r
    ensures a / n == q
  {
    var Q, R := a / n, a % n;
    assert a == Q * n + R;
    assert (Q - q) * n == r - R by { assert (Q - q) * n == Q * n - q * n; }
    if Q > q {
      MulAtLeast(Q - q, n);
    } else if Q < q {
      MulAtLeast(q - Q, n);
    }
  }

  lemma MulAtLeast(k: int, n: int)
    requires k >= 1 && n > 0
    ensures k * n >= n
  {
  }

  lemma DivSmall(j: nat, n: nat)
    requires j < n
    ensures j / n == 0
  {
  }

  /** `xs[::n]` depends on the length of `xs` only through its length. */
  lemma {:induction false} EveryLength<T, U>(xs: seq<T>, ys: seq<U>, n: nat)
    requires n > 0 && |xs| == |ys|
    ensures |Every(xs, n)| == |Every(ys, n)|
    decreases |xs|
  {
    if |xs| > 0 {
      EveryLength(xs[if n < |xs| then n else |xs|..], ys[if n < |ys| then n else |ys|..], n);
    }
  }

  /** numpy's boolean indexing `xs[mask]`: the entries whose flag is set, in order. */
  function Select<T>(xs: seq<T>, mask: seq<bool>): seq<T>
    requires |xs| == |mask|
  {
    if |xs| == 0 then [] else (if mask[0] then [xs[0]] else []) + Select(xs[1..], mask[1..])
  }

  /** The number of set flags. */
  function Count(mask: seq<bool>): nat {
    if |mask| == 0 then 0 else (if mask[0] then 1 else 0) + Count(mask[1..])
  }

  /** `mask.nonzero()[0]`, from position `from` on: the positions of the set flags. */
  function TrueIndices(mask: seq<bool>, from: nat): seq<nat>
    requires from <= |mask|
    decreases |mask| - from
  {
    if from == |mask| then [] else (if mask[from] then [from] else []) + TrueIndices(mask, from + 1)
  }

  /** numpy's integer-array indexing `xs[idx]`. */
  function Pick<T>(xs: seq<T>, idx: seq<nat>): (r: seq<T>)
    requires forall k :: 0 <= k < |idx| ==> idx[k] < |xs|
    ensures |r| == |idx|
  {
    seq(|idx|, k requires 0 <= k < |idx| => xs[idx[k]])
  }

  /** The positions of the set flags lie in range, rise strictly, and are exactly the
      positions from `from` on whose flag is set. */
  lemma {:induction false} TrueIndicesExact(mask: seq<bool>, from: nat)
    requires from <= |mask|
    ensures forall k :: 0 <= k < |TrueIndices(mask, from)| ==>
              from <= TrueIndices(mask, from)[k] < |mask| && mask[TrueIndices(mask, from)[k]]
    ensures forall k, l :: 0 <= k < l < |TrueIndices(mask, from)| ==>
              TrueIndices(mask, from)[k] < TrueIndices(mask, from)[l]
    ensures forall i :: from <= i < |mask| && mask[i] ==> i in TrueIndices(mask, from)
    decreases |mask| - from
  {
    if from < |mask| {
      TrueIndicesExact(mask, from + 1);
    }
  }

  /** Boolean indexing is integer indexing with the positions of the set flags. */
  lemma {:induction false} SelectIsPick<T>(xs: seq<T>, mask: seq<bool>, from: nat)
    requires |xs| == |mask| && from <= |mask|
    ensures forall k :: 0 <= k < |TrueIndices(mask, from)| ==> TrueIndices(mask, from)[k] < |xs|
    ensures Select(xs[from..], mask[from..]) == Pick(xs, TrueIndices(mask, from))
    decreases |mask| - from
  {
    TrueIndicesExact(mask, from);
    if from < |mask| {
      SelectIsPick(xs, mask, from + 1);
      var head: seq<nat> := if mask[from] then [from] else [];
      var rest := TrueIndices(mask, from + 1);
      assert TrueIndices(mask, from) == head + rest;
      PickAppend(xs, head, rest);
      assert xs[from..][1..] == xs[from + 1..];
      assert mask[from..][1..] == mask[from + 1..];
      assert Pick(xs, head) == if mask[from] then [xs[from]] else [];
    }
  }

  lemma PickAppend<T>(xs: seq<T>, a: seq<nat>, b: seq<nat>)
    requires forall k :: 0 <= k < |a| ==> a[k] < |xs|
    requires forall k :: 0 <= k < |b| ==> b[k] < |xs|
    ensures forall k :: 0 <= k < |a + b| ==> (a + b)[k] < |xs|
    ensures Pick(xs, a + b) == Pick(xs, a) + Pick(xs, b)
  {
  }

  /** Boolean indexing keeps as many entries as there are set flags. */
  lemma {:induction false} SelectLength<T>(xs: seq<T>, mask: seq<bool>)
    requires |xs| == |mask|
    ensures |Select(xs, mask)| == Count(mask)
  {
    if |xs| > 0 {
      SelectLength(xs[1..], mask[1..]);
    }
  }

  /** With every flag set, boolean indexing keeps everything. */
  lemma {:induction false} SelectAll<T>(xs: seq<T>, mask: seq<bool>)
    requires |xs| == |mask| && forall i :: 0 <= i < |mask| ==> mask[i]
    ensures Select(xs, mask) == xs
  {
    if |xs| > 0 {
      SelectAll(xs[1..], mask[1..]);
    }
  }

  /** Every entry boolean indexing keeps is an entry whose flag is set. */
  lemma {:induction false} SelectFrom<T>(xs: seq<T>, mask: seq<bool>)
    requires |xs| == |mask|
    ensures forall y :: y in Select(xs, mask) ==> exists i :: 0 <= i < |xs| && mask[i] && xs[i] == y
  {
    if |xs| > 0 {
      SelectFrom(xs[1..], mask[1..]);
      forall y | y in Select(xs, mask)
        ensures exists i :: 0 <= i < |xs| && mask[i] && xs[i] == y
      {
        if !(mask[0] && y == xs[0]) {
          assert y in Select(xs[1..], mask[1..]);
          var i :| 0 <= i < |xs| - 1 && mask[1..][i] && xs[1..][i] == y;
          assert mask[i + 1] && xs[i + 1] == y;
        }
      }
    }
  }

  function Sum(xs: seq<real>): real {
    if |xs| == 0 then 0.0 else xs[0] + Sum(xs[1..])
  }

  /** numpy's `mean` of a non-empty sample. */
  function Mean(xs: seq<real>): real
    requires |xs| > 0
  {
    Sum(xs) / |xs| as real
  }

  /** Every entry plus c. */
  function Shift(xs: seq<real>, c: real): (r: seq<real>)
    ensures |r| == |xs|
  {
    seq(|xs|, i requires 0 <= i < |xs| => xs[i] + c)
  }

  lemma {:induction false} SumShift(xs: seq<real>, c: real)
    ensures Sum(Shift(xs, c)) == Sum(xs) + |xs| as real * c
  {
    if |xs| > 0 {
      SumShift(xs[1..], c);
      assert Shift(xs, c)[1..] == Shift(xs[1..], c);
    }
  }

  /** Adding c to every entry adds c to the mean. */
  lemma MeanShift(xs: seq<real>, c: real)
    requires |xs| > 0
    ensures Mean(Shift(xs, c)) == Mean(xs) + c
  {
    SumShift(xs, c);
    var n := |xs| as real;
    assert (Sum(xs) + n * c) / n == Sum(xs) / n + c;
  }

  lemma {:induction false} SumBounds(xs: seq<real>, lo: real, hi: real)
    requires forall i :: 0 <= i < |xs| ==> lo <= xs[i] <= hi
    ensures |xs| as real * lo <= Sum(xs) <= |xs| as real * hi
  {
    if |xs| > 0 {
      SumBounds(xs[1..], lo, hi);
    }
  }

  /** The mean lies between any bounds of the sample. */
  lemma MeanBounds(xs: seq<real>, lo: real, hi: real)
    requires |xs| > 0 && forall i :: 0 <= i < |xs| ==> lo <= xs[i] <= hi
    ensures lo <= Mean(xs) <= hi
  {
    SumBounds(xs, lo, hi);
    var n := |xs| as real;
    assert lo == n * lo / n && hi == n * hi / n;
  }

  /** Picking entries commutes with adding a constant to every entry. */
  lemma PickShift(xs: seq<real>, idx: seq<nat>, c: real)
    requires forall k :: 0 <= k < |idx| ==> idx[k] < |xs|
    ensures Pick(Shift(xs, c), idx) == Shift(Pick(xs, idx), c)
  {
  }

  /** How numpy is told which entries to take along one axis: a list of integer
      positions (negative ones count from the end) or a boolean mask. */
  datatype Selection = Indices(idx: seq<int>) | Mask(flags: seq<bool>)

  /** A position in `-n .. n-1` as a position in `0 .. n-1`. */
  function Wrap(i: int, n: nat): (r: nat)
    requires -(n as int) <= i < n
    ensures r < n && (r == i || r == i + n)
  {
    if i < 0 then i + n else i
  }

  /** The positions a selection takes out of n entries, in the order numpy takes them;
      `None` where numpy raises IndexError (a position outside `-n .. n-1`, or a mask
      whose length is not n). */
  function Positions(sel: Selection, n: nat): (r: Option<seq<nat>>)
    ensures r.Some? ==> forall k :: 0 <= k < |r.value| ==> r.value[k] < n
    ensures r.Some? <==> Fits(sel, n)
  {
    match sel
    case Indices(idx) =>
      if forall k :: 0 <= k < |idx| ==> -(n as int) <= idx[k] < n
      then Some(seq(|idx|, k requires 0 <= k < |idx| && -(n as int) <= idx[k] < n => Wrap(idx[k], n)))
      else None
    case Mask(flags) =>
      if |flags| == n then TrueIndicesExact(flags, 0); Some(TrueIndices(flags, 0)) else None
  }

  /** The selection names only entries that exist. */
  predicate Fits(sel: Selection, n: nat) {
    match sel
    case Indices(idx) => forall k :: 0 <= k < |idx| ==> -(n as int) <= idx[k] < n
    case Mask(flags) => |flags| == n
  }

  /** A mask selects the entries whose flag is set, in order, and a list of positions
      selects the entry at each wrapped position. */
  lemma PositionsMeaning<T>(xs: seq<T>, sel: Selection)
    requires Fits(sel, |xs|)
    ensures sel.Mask? ==> Pick(xs, Positions(sel, |xs|).value) == Select(xs, sel.flags)
    ensures sel.Indices? ==> |Positions(sel, |xs|).value| == |sel.idx|
    ensures sel.Indices? ==>
              forall k :: 0 <= k < |sel.idx| ==>
                Pick(xs, Positions(sel, |xs|).value)[k] == xs[Wrap(sel.idx[k], |xs|)]
  {
    if sel.Mask? {
      SelectIsPick(xs, sel.flags, 0);
      assert xs[0..] == xs && sel.flags[0..] == sel.flags;
    }
  }

  /** Where a Python slice `xs[start:]` of n entries begins: a negative start counts
      from the end, and the result is clamped to `0 .. n`. */
  function SliceStart(start: int, n: nat): (r: nat)
    ensures r <= n
    ensures 0 <= start <= n ==> r == start
    ensures -(n as int) <= start < 0 ==> r == start + n
  {
    if start < 0 then (if start + n < 0 then 0 else start + n)
    else if start > n then n else start
  }

  /** Python's `int(x)` of a float: truncation toward zero. */
  function Trunc(x: real): (r: int)
    ensures 0.0 <= x ==> 0 <= r && r as real <= x < r as real + 1.0
    ensures x < 0.0 ==> r <= 0 && r as real - 1.0 < x <= r as real
  {
    if x >= 0.0 then x.Floor else -((-x).Floor)
  }

  /** `bs[from:].nonzero()[0][0] + from`: the first set flag at or after `from`, or
      `None` where numpy's empty result makes `[0]` raise IndexError. */
  function First(bs: seq<bool>, from: nat): (r: Option<nat>)
    requires from <= |bs|
    ensures r.Some? ==> from <= r.value < |bs| && bs[r.value]
    ensures r.Some? ==> forall k :: from <= k < r.value ==> !bs[k]
    ensures r.None? ==> forall k :: from <= k < |bs| ==> !bs[k]
    decreases |bs| - from
  {
    if from == |bs| then None else if bs[from] then Some(from) else First(bs, from + 1)
  }
}

