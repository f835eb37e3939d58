/** The bookkeeping of the particle image velocimetry script
    (scripts/image_analysis/piv.py): the analysis settings derived from the frame
    rate and the pixel size, and the loop over the frames of a movie that decides
    which pairs of frames give a velocity field and which are written as invalid
    because a frame was missed. The image processing (background subtraction,
    filtering, cross-correlation) is a parameter. */
module PivAnalysis {
  import opened Results
  import opened Indexing

  // ---- settings -----------------------------------------------------------------------

  /** The fixed parameters, in micrometres and micrometres per second. */
  const WindowSize: real := 50.0
  const MaxVelocity: real := 200.0
  const ParticleSize: real := 1.0
  const DefaultPixelSize: real := 0.178
  const DefaultFps: real := 30.0

  /** The time step, the pixel size, and the sizes in pixels derived from them. */
  datatype Settings = Settings(dt: real, pixelSize: real, sigma: int, winsize: int,
                               maxDisplacement: int, searchsize: int, overlap: int)

  /** The settings of a recording whose protocol gives the frame rate `framerate` and
      the pixel width `pixelWidth` (`None` where the entry is missing, which selects
      the default). A zero frame rate or pixel size raises ZeroDivisionError. */
  function PivSettings(framerate: Option<real>, pixelWidth: Option<real>): (r: Result<Settings>)
    ensures r.Err? <==> framerate == Some(0.0) || pixelWidth == Some(0.0)
    ensures r.Ok? ==> r.value.dt == (if framerate.Some? then 1.0 / framerate.value else 1.0 / DefaultFps)
    ensures r.Ok? ==> r.value.pixelSize == (if pixelWidth.Some? then pixelWidth.value else DefaultPixelSize)
  {
    if framerate == Some(0.0) then Err(ZeroDivisionError)
    else
      var dt := if framerate.Some? then 1.0 / framerate.value else 1.0 / DefaultFps;
      var p := if pixelWidth.Some? then pixelWidth.value else DefaultPixelSize;
      if p == 0.0 then Err(ZeroDivisionError)
      else
        var winsize := Trunc(WindowSize / p);
        var maxDisplacement := Trunc(MaxVelocity * dt / p);
        Ok(Settings(dt, p, Trunc(ParticleSize / p), winsize, maxDisplacement,
                    winsize + 2 * maxDisplacement, Trunc(winsize as real * 2.0 / 3.0)))
  }

  /** The search area extends the window by the largest displacement on each side,
      and the windows overlap by two thirds of their size, rounded toward zero; with a
      positive frame rate and pixel size the search area holds the window and the
      overlap is less than a window. */
  lemma SettingsSizes(framerate: Option<real>, pixelWidth: Option<real>)
    requires PivSettings(framerate, pixelWidth).Ok?
    ensures var s := PivSettings(framerate, pixelWidth).value;
            s.searchsize - s.winsize == 2 * s.maxDisplacement &&
            (0 <= s.winsize ==> 0 <= s.overlap && 3 * s.overlap <= 2 * s.winsize)
    ensures (framerate.None? || framerate.value > 0.0) && (pixelWidth.None? || pixelWidth.value > 0.0) ==>
            var s := PivSettings(framerate, pixelWidth).value;
            s.winsize <= s.searchsize && 0 <= s.overlap && (0 < s.winsize ==> s.overlap < s.winsize)
  {
    var s := PivSettings(framerate, pixelWidth).value;
    if 0 <= s.winsize {
      var x := s.winsize as real * 2.0 / 3.0;
      assert 0.0 <= x;
      assert (s.overlap as real) * 3.0 <= 2.0 * s.winsize as real;
    }
    if (framerate.None? || framerate.value > 0.0) && (pixelWidth.None? || pixelWidth.value > 0.0) {
      assert 0.0 < s.dt;
      assert 0.0 <= MaxVelocity * s.dt / s.pixelSize;
    }
  }

  /** With neither entry in the protocol: a frame every 1/30 s, pixels of 0.178 µm,
      a filter of 5 pixels, windows of 280 pixels overlapping by 186, displacements of
      at most 37 pixels and a search area of 354. */
  lemma DefaultSettings()
    ensures PivSettings(None, None) == Ok(Settings(1.0 / 30.0, 0.178, 5, 280, 37, 354, 186))
  {
    assert 5.0 <= ParticleSize / DefaultPixelSize < 6.0;
    assert 280.0 <= WindowSize / DefaultPixelSize < 281.0;
    assert 37.0 <= MaxVelocity * (1.0 / DefaultFps) / DefaultPixelSize < 38.0;
    assert 186.0 <= 280 as real * 2.0 / 3.0 < 187.0;
  }

  // ---- the frame loop -------------------------------------------------------------------

  /** A velocity field component on the grid. */
  type Field = seq<seq<real>>

  /** Every entry multiplied by `c`. */
  function Scale(u: Field, c: real): (r: Field)
    ensures |r| == |u| && forall i :: 0 <= i < |u| ==> |r[i]| == |u[i]|
    ensures forall i, j :: 0 <= i < |u| && 0 <= j < |u[i]| ==> r[i][j] == u[i][j] * c
  {
    seq(|u|, i requires 0 <= i < |u| => seq(|u[i]|, j requires 0 <= j < |u[i]| => u[i][j] * c))
  }

  /** What is written for the pair of frames ending at a frame: two empty files marked
      invalid, or the two velocity components in micrometres per second. */
  datatype Written = Invalid(index: nat) | Velocity(index: nat, u: Field, v: Field)

  /** The pair of frames `k - 1` and `k` cannot be used when frame `k` repeats frame
      `k - 1` (a frame was missed), and also right after such a repeat, whose
      displacement would span a longer interval. */
  predicate MissedPair<F(==)>(frames: seq<F>, k: nat)
    requires 1 <= k < |frames|
  {
    frames[k] == frames[k - 1] || (k >= 2 && frames[k - 1] == frames[k - 2])
  }

  /** What the script writes for the pair ending at frame `k`, `piv` being the
      cross-correlation of two frames (in pixels per second) and `pixel`
      the pixel size. */
  function PairOutput<F(==)>(frames: seq<F>, k: nat, piv: (F, F) -> (Field, Field), pixel: real): (r: Written)
    requires 1 <= k < |frames|
    ensures r.index == k
    ensures r.Invalid? <==> MissedPair(frames, k)
  {
    if MissedPair(frames, k) then Invalid(k)
    else
      var (u, v) := piv(frames[k - 1], frames[k]);
      Velocity(k, Scale(u, pixel), Scale(v, pixel))
  }

  /** Everything written for a movie, pair after pair. */
  function Outputs<F(==)>(frames: seq<F>, piv: (F, F) -> (Field, Field), pixel: real): (r: seq<Written>)
    ensures |r| == if |frames| == 0 then 0 else |frames| - 1
  {
    seq(if |frames| == 0 then 0 else |frames| - 1,
        i requires 0 <= i < |frames| - 1 => PairOutput(frames, i + 1, piv, pixel))
  }

  /** The loop over the frames: `previous_missed` remembers whether the last frame
      repeated the one before, `invalid` whether the current pair is unusable, and
      `frame_i` counts the frames; nothing is written for the first frame. */
  method AnalyseFrames<F(==)>(frames: seq<F>, piv: (F, F) -> (Field, Field), pixel: real)
    returns (written: seq<Written>)
    ensures written == Outputs(frames, piv, pixel)
  {
    var previousFrame: Option<F> := None;
    var frameIndex: nat := 0;
    var previousMissed, invalid := false, false;
    written := [];
    for k := 0 to |frames|
      invariant frameIndex == k
      invariant previousFrame == if k == 0 then None else Some(frames[k - 1])
      invariant previousMissed <==> k >= 2 && frames[k - 1] == frames[k - 2]
      invariant |written| == if k == 0 then 0 else k - 1
      invariant forall i :: 0 <= i < |written| ==> written[i] == PairOutput(frames, i + 1, piv, pixel)
    {
      var frame := frames[k];
      if previousFrame.Some? && frame == previousFrame.value {
        invalid := true;
        previousMissed := true;
      } else if previousMissed {
        invalid := true;
        previousMissed := false;
      } else {
        invalid := false;
        previousMissed := false;
      }
      if previousFrame.Some? {
        if invalid {
          written := written + [Invalid(frameIndex)];
        } else {
          var (u, v) := piv(previousFrame.value, frame);
          written := written + [Velocity(frameIndex, Scale(u, pixel), Scale(v, pixel))];
        }
      }
      previousFrame := Some(frame);
      frameIndex := frameIndex + 1;
    }
  }

  /** Each pair of consecutive frames is written once, in order, under the index of
      its second frame; the first frame gives no file of its own. */
  lemma OutputsIndices<F>(frames: seq<F>, piv: (F, F) -> (Field, Field), pixel: real)
    ensures forall i :: 0 <= i < |Outputs(frames, piv, pixel)| ==> Outputs(frames, piv, pixel)[i].index == i + 1
    ensures forall i :: 0 <= i < |Outputs(frames, piv, pixel)| ==> Outputs(frames, piv, pixel)[i].index != 0
  {
  }

  /** A repeated frame invalidates the pair it ends and the next pair as well, and a
      movie without repeated frames gives a velocity field for every pair, the
      cross-correlation of the pair scaled by the pixel size. */
  lemma MissedFrameInvalidatesTwo<F>(frames: seq<F>, piv: (F, F) -> (Field, Field), pixel: real, k: nat)
    requires 1 <= k < |frames| && frames[k] == frames[k - 1]
    ensures Outputs(frames, piv, pixel)[k - 1].Invalid?
    ensures k + 1 < |frames| ==> Outputs(frames, piv, pixel)[k].Invalid?
  {
  }

  lemma NoRepeatAllValid<F>(frames: seq<F>, piv: (F, F) -> (Field, Field), pixel: real)
    requires forall k :: 1 <= k < |frames| ==> frames[k] != frames[k - 1]
    ensures forall i :: 0 <= i < |Outputs(frames, piv, pixel)| ==>
              Outputs(frames, piv, pixel)[i] ==
              Velocity(i + 1, Scale(piv(frames[i], frames[i + 1]).0, pixel), Scale(piv(frames[i], frames[i + 1]).1, pixel))
  {
  }
}
