# Paramecium model: motion integrators and data bookkeeping

This project models the core of the Paramecium-model repository, which simulates
swimming Paramecium cells and prepares electrophysiology and particle image
velocimetry (PIV) recordings for model fitting. It covers:

- **Motion** (`motion.dfy`, `motion_vectorized.dfy`). The single-cell integrators
  `MovingCell` and `PlaneMovingCell` and the batch integrators `MovingCells` and
  `PlaneMovingCells` are classes whose methods update position, orientation
  quaternion, body velocity, spin vector and gravity parameters in place. The
  quaternion algebra they rely on is in `quaternions.dfy`. The two quaternion
  libraries' rotation constructors and integration step are in `rotations.dfy`.
  Sine, cosine, square root, arctangent and π are fields of a `MathLib` value whose
  laws are ghost predicates (`elementary.dfy`).
- **Data preparation** (`data_preparation.dfy`, with numpy indexing in
  `indexing.dfy`). Trimming, subsampling and trial selection rewrite a `Dataset`'s
  variable map in place. Also modelled: trace alignment on an array of rows, data
  merging, and stimulus amplitudes.
- **PIV timing** (`fitting_piv.dfy`): the duration of a reversal, the
  anterior/posterior flip of a cell angle, and the frame-time interpolation of a PIV
  analysis.
- **Model loading** (`load_model.dfy`): assembling model components with newline
  collapsing, pruning the fitted bounds, copying the initial values, and the
  membrane equation's text.
- **Fitting bookkeeping** (`fitting.dfy`): command-line arguments, the two-stage
  bounds split, recorded settings and fitted model, and per-variable errors after
  the stimulus.
- **Folder information** (`folder_information.dfy`): stimulus window, protocol type,
  recording date and culture year.
- **PIV script** (`piv_analysis.dfy`): derived window and search sizes, and the
  frame loop that marks pairs around a missed frame as invalid.

Python exceptions are modelled as `Err(...)` values of `Results.Result`.
File contents, regular-expression matches, `eval`, the PIV cross-correlation and
`np.interp` are parameters of the functions that use them.

A fresh `PlaneMovingCell` built with heading θ reports from `orientation()` the
bearing of `(sin θ, −cos θ)`, which is θ − π/2 (`Motion.FreshHeading`,
`Motion.PlaneFrame`).

## Model

| member | source | states |
|---|---|---|
| Motion.MovingCell.constructor | behavior/motion.py:19-38 | position defaults to the origin; dt = 1, no sedimentation, no gravity torque; body velocity (0,0,1000); spin vector at 20° with one turn per second |
| Motion.InitialOrientationOutcome | behavior/motion.py:27-32 | a given quaternion is kept; an axis gives a unit quaternion; a zero axis raises ZeroDivisionError |
| Motion.DefaultQuatFrame | behavior/motion.py:27-28 | the default orientation is a unit quaternion that maps the body axis to −y and leaves the x axis in place (the cell lies horizontal) |
| Motion.MovingCell.SetGravity | behavior/motion.py:40-47 | sedimentation points straight down with the given speed; β is stored; nothing else changes |
| Motion.MovingCell.SetVelocity | behavior/motion.py:49-53 | the body velocity becomes (0,0,v); nothing else changes |
| Motion.MovingCell.SetRotationAngle | behavior/motion.py:55-59 | the spin vector becomes −spin·(sin θ, 0, cos θ); nothing else changes |
| Motion.SpinVectorShape | behavior/motion.py:59 | the spin vector has no y component and its length is \|spin\| |
| Motion.MovingCell.SpiralAxis | behavior/motion.py:61-66 | for a unit orientation, the spiral axis in the world frame is as long as the spin vector |
| Motion.GravityRate | behavior/motion.py:79-80 | the gravity turn rate −β·(e_z × p) is horizontal, orthogonal to the gravity direction p, and zero when β = 0 |
| Motion.DisplacementLength | behavior/motion.py:82 | no motion without velocity and sedimentation; without sedimentation a unit orientation moves the cell by dt·\|v\| |
| Motion.MovingCell.Integrate | behavior/motion.py:68-83 | x advances by dt·(rotated v + sedimentation); q becomes the normalised step by the spin plus the gravity rate, a unit quaternion; the parameters are unchanged |
| Motion.SteppedUnit | behavior/motion.py:83 | an integration step keeps the orientation a unit quaternion |
| Motion.StepAtRest | behavior/motion.py:83 | a step with zero turn rate leaves a unit orientation unchanged |
| Motion.PlaneMovingCell.constructor | behavior/motion.py:90-97 | (x,y) is lifted to (x,y,0); the orientation is the quarter turn about (cos θ, sin θ, 0), whose body axis points along (sin θ, −cos θ, 0); the other defaults are those of the 3D cell |
| Motion.PlaneFrame | behavior/motion.py:96-97 | the planar starting orientation is a unit quaternion that keeps the body axis horizontal and gives the mouth direction |
| Motion.PlaneMovingCell.SetGravity | behavior/motion.py:99-100 | always raises NotImplementedError |
| Motion.PlaneMovingCell.Integrate | behavior/motion.py:102-124 | after the 3D step the correction is left-multiplied; the body axis is then horizontal and of unit length and the heading is unchanged; a vertical axis raises ZeroDivisionError |
| Motion.LevellingFails | behavior/motion.py:108-123 | the correction fails (division by zero) exactly when the axis is vertical |
| Motion.Levels | behavior/motion.py:110-123 | the correction about e_z × p by atan2(p_z, \|p_H\|) is a unit quaternion that turns a unit axis p into its horizontal direction |
| Motion.PlanarCorrectionLevels | behavior/motion.py:106-124 | applied to a unit orientation, the correction keeps it unit and puts the body axis in the plane, along the normalised horizontal projection |
| Motion.CorrectionKeepsHeading | behavior/motion.py:122-133 | the planar correction does not change the bearing reported by `orientation` |
| Motion.PlaneMovingCell.Orientation | behavior/motion.py:126-133 | the bearing of the body axis; it fails exactly when the axis is vertical |
| Motion.BearingFails | behavior/motion.py:131-133 | normalising a zero horizontal projection gives NaN, modelled as an error |
| Motion.BearingOfDirection | behavior/motion.py:132-133 | normalising the projection before atan2 does not change the bearing |
| Motion.FreshHeading | behavior/motion.py:96-133 | a fresh planar cell built with heading θ reports atan2(−cos θ, sin θ) |
| Motion.PlaneMovingCell.MouthPosition | behavior/motion.py:135-145 | None exactly when the rotated x axis points downward, otherwise its (x,y), which lies in the unit disc |
| Motion.FreshMouth | behavior/motion.py:135-145 | for a fresh planar cell the mouth is hidden when sin θ > 0, otherwise at (cos²θ, cos θ sin θ) |
| Motion.MouthWithinWidth | behavior/motion.py:137-145 | a visible mouth lies within one cell width of the centre |
| MotionVectorized.MovingCells.constructor | behavior/motion_vectorized.py:22-38 | n cells at the origin, oriented by the quarter turn about the axis (default x), with dt = 1, zero sedimentation, β = 0, velocity (0,0,1000) and the 20° spin |
| MotionVectorized.MovingCells.Length | behavior/motion_vectorized.py:40-41 | the number of cells, the same for every per-cell array |
| MotionVectorized.MovingCells.SetOrientation | behavior/motion_vectorized.py:43-51 | every orientation becomes the rotation-vector quaternion of axis·angle; one axis is shared by all cells |
| MotionVectorized.Orientations | behavior/motion_vectorized.py:48-51 | one orientation per cell, all equal when a single axis is given |
| MotionVectorized.OrientationsUnit | behavior/motion_vectorized.py:48-51 | every orientation set from a rotation vector is a unit quaternion |
| MotionVectorized.DefaultOrientationsAgree | behavior/motion_vectorized.py:29-30 | the batch default orientation equals the single-cell default of behavior/motion.py:28 |
| MotionVectorized.MovingCells.SetGravity | behavior/motion_vectorized.py:53-61 | every cell sediments straight down at one given scalar speed; β is stored; orientations are unchanged |
| MotionVectorized.MovingCells.SetVelocity | behavior/motion_vectorized.py:63-68 | every body velocity becomes (0,0,v_i), with a scalar or one value per cell |
| MotionVectorized.MovingCells.SetRotationAngle | behavior/motion_vectorized.py:70-77 | every spin vector becomes −spin_i·(sin θ_i, 0, cos θ_i) |
| MotionVectorized.MovingCells.SpiralAxis | behavior/motion_vectorized.py:79-84 | the vector part of q·exp(ω/2)·q̄ for every cell, as written |
| MotionVectorized.SpiralAxisVanishes | behavior/motion_vectorized.py:84 | as written, the batch spiral axis is zero for the default full-turn spin, although the rotated spin vector has length 2π |
| MotionVectorized.MovingCells.WorldSpins | behavior/motion_vectorized.py:79-84 | the spin vectors rotated into the world frame keep their lengths, the intended spiral axis |
| MotionVectorized.MovingCells.Integrate | behavior/motion_vectorized.py:86-102 | every x advances by dt·(rotated v + sedimentation); every q becomes the normalised right product with the rotation-vector step |
| MotionVectorized.StepsUnit | behavior/motion_vectorized.py:100-102 | after renormalisation every orientation is a unit quaternion |
| MotionVectorized.StepsAtRest | behavior/motion_vectorized.py:93-102 | without spin and gravity torque every unit orientation is unchanged |
| MotionVectorized.PlaneMovingCells.constructor | behavior/motion_vectorized.py:109-118 | n cells at the origin; orientations from the headings θ; β keeps set_gravity's default of 7°/s |
| MotionVectorized.PlaneOrientationsAgree | behavior/motion_vectorized.py:120-128 | each batch planar orientation equals the single-cell planar orientation of its heading |
| MotionVectorized.PlaneMovingCells.SetOrientation | behavior/motion_vectorized.py:120-128 | the orientations are the quarter turns about (cos θ_i, sin θ_i, 0) |
| MotionVectorized.PlaneMovingCells.Integrate | behavior/motion_vectorized.py:130-152 | after the 3D step each orientation is left-multiplied by its batch correction and stays a unit quaternion |
| MotionVectorized.Corrections | behavior/motion_vectorized.py:134-152 | one unit-quaternion correction product per cell, as written |
| MotionVectorized.CorrectionsKeepFlatRows | behavior/motion_vectorized.py:142-152 | a cell whose axis is already horizontal is not changed |
| MotionVectorized.BatchCorrectionTilts | behavior/motion_vectorized.py:142-148 | as written, the correction of the tilted axis (0.6, 0, 0.8) leaves it tilted, while the single-cell correction levels it |
| MotionVectorized.PlaneMovingCells.Orientation | behavior/motion_vectorized.py:154-161 | one bearing per cell, failing exactly for a vertical axis |
| Quaternions.RotatePreservesLength | behavior/motion.py:66 | rotating by a unit quaternion keeps vector lengths |
| Quaternions.RotateCompose | behavior/motion.py:124 | rotating by a product is rotating by each factor in turn |
| Quaternions.MulNorm | behavior/motion.py:124 | the norm of a product is the product of the norms |
| Quaternions.SandwichVecPart | behavior/motion_vectorized.py:84 | the sandwich of any quaternion's vector part is the rotation of that vector |
| Quaternions.RotateEZ | behavior/motion.py:107 | the closed form of the rotated body axis |
| Quaternions.RotateEX | behavior/motion.py:139 | the closed form of the rotated mouth direction |
| Rotations.FromRotationVectorUnit | behavior/motion_vectorized.py:49-51 | `from_rotation_vector` gives a unit quaternion |
| Rotations.FromRotationVectorZero | behavior/motion_vectorized.py:100 | the zero rotation vector gives the identity |
| Rotations.AxisAngleFails | behavior/motion.py:28-32 | `Quaternion(axis, radians)` fails exactly for the zero axis |
| Rotations.AxisAngleUnit | behavior/motion.py:28-32 | an axis-angle quaternion is a unit quaternion |
| Rotations.AxisAngleRotationVector | behavior/motion.py:28 | for a unit axis and a positive angle, pyquaternion's axis-angle constructor agrees with numpy-quaternion's rotation vector |
| Rotations.NormaliseUnit | behavior/motion_vectorized.py:102 | normalising a non-zero quaternion gives a unit quaternion |
| Rotations.NormaliseIdempotent | behavior/motion_vectorized.py:102 | normalising twice is normalising once |
| Rotations.PyIntegrateRightMultiply | behavior/motion.py:83 | pyquaternion's `integrate` of a unit orientation is its normalised right product with the rotation-vector step |
| Rotations.PyIntegrateUnit | behavior/motion.py:83 | `integrate` of a non-zero orientation gives a unit quaternion |
| Rotations.PyIntegrateZeroRate | behavior/motion.py:83 | a zero turn rate leaves a unit orientation unchanged |
| DataPreparation.Dataset.Subsample | file_management/data_preparation.py:12-28 | KeyError without t and ValueError for step 0, leaving the data unchanged; otherwise every nth sample of t and of every matrix, a rebuilt trigger, and KeyError after the update when there is no trigger |
| DataPreparation.SubsampleKeepsEveryNth | file_management/data_preparation.py:16-19 | sample k of the result is sample k·n of the original, for t and for every row |
| DataPreparation.SubsamplePreservesShape | file_management/data_preparation.py:16-28 | every matrix still has one column per time sample, and the trigger keeps its trials |
| DataPreparation.NewTrigger | file_management/data_preparation.py:22-28 | each trial's new trigger row holds 1 exactly at j/n for every positive sample j |
| DataPreparation.TriggerInBounds | file_management/data_preparation.py:25-27 | every trigger position j/n falls inside the subsampled row and is marked |
| DataPreparation.AlignTraces | file_management/data_preparation.py:30-36 | each row is shifted so that its mean over the selected columns is v0; a bad index raises IndexError; an empty selection is an error |
| DataPreparation.AlignedMean | file_management/data_preparation.py:34-35 | alignment sets the selected mean to v0 and keeps every difference between samples |
| DataPreparation.AlignIdempotent | file_management/data_preparation.py:34-35 | aligning twice is aligning once |
| DataPreparation.MergeData | file_management/data_preparation.py:38-50 | the loop computes the fold of the data sets; an empty list gives an empty dict |
| DataPreparation.MergedKeys | file_management/data_preparation.py:43-49 | the merged keys are those of all sets |
| DataPreparation.MergedVectorFromLast | file_management/data_preparation.py:41-47 | a vector (such as t) comes from the last set that has it |
| DataPreparation.MergedStacks | file_management/data_preparation.py:48-49 | a matrix variable is the vertical stack of its matrices, in order |
| DataPreparation.MergedOk | file_management/data_preparation.py:44-49 | for data sets of two-dimensional arrays the merge succeeds exactly when, for every key, the rows of all the sets holding it have one width; otherwise it fails with ValueError |
| DataPreparation.Dataset.Trim | file_management/data_preparation.py:52-60 | KeyError without t; otherwise t and every matrix keep exactly the samples with t < t_end |
| DataPreparation.TrimKeepsBelow | file_management/data_preparation.py:56-57 | the kept samples are exactly those before t_end, in order |
| DataPreparation.TrimKeepsColumns | file_management/data_preparation.py:58-60 | each row keeps the same columns as t |
| DataPreparation.TrimPreservesShape | file_management/data_preparation.py:52-60 | after trimming every matrix still has one column per sample |
| DataPreparation.TrimIdempotent | file_management/data_preparation.py:52-60 | trimming twice at the same time is trimming once |
| DataPreparation.Amplitudes | file_management/data_preparation.py:70-75 | KeyError for a missing t or I; otherwise one amplitude per trial exactly when the window holds a sample or there are no trials, and InvalidValue (numpy's all-NaN result) for an empty window with trials |
| DataPreparation.AmplitudesWindow | file_management/data_preparation.py:74-75 | each amplitude is the mean of its trial over exactly the samples with start ≤ t ≤ end |
| DataPreparation.AmplitudesBounds | file_management/data_preparation.py:75 | an amplitude lies between the bounds of the current over the window |
| DataPreparation.Dataset.SelectTrials | file_management/data_preparation.py:77-89 | every matrix keeps the selected trials; a list is returned as given and a mask as the positions of its set flags; an out-of-range index raises IndexError |
| DataPreparation.SelectTrialsReportsKept | file_management/data_preparation.py:82-89 | the reported trials are the kept ones, in order, counting negative indices from the end; a mask reports rising positions |
| Indexing.SelectIsPick | file_management/data_preparation.py:57 | boolean indexing is integer indexing with the positions of the set flags |
| Indexing.TrueIndicesExact | file_management/data_preparation.py:89 | `nonzero()` lists exactly the set positions, rising |
| Indexing.PositionsMeaning | file_management/data_preparation.py:84 | a mask selects its set entries; a list picks entries, negative ones counted from the end |
| Indexing.EveryAt | file_management/data_preparation.py:16 | entry k of `xs[::n]` is `xs[k·n]` |
| Indexing.MeanShift | file_management/data_preparation.py:35 | adding a constant shifts the mean by it |
| Indexing.MeanBounds | file_management/data_preparation.py:75 | a mean lies between the bounds of its entries |
| Indexing.SliceStart | file_management/data_preparation.py:16 | Python's clamping of a slice start, negative starts counted from the end |
| Indexing.Trunc | fitting/fitting.py:123 | `int(x)` truncates toward zero |
| Indexing.First | fitting/piv.py:17-18 | the first set flag at or after a position, or None when there is none |
| FittingPiv.ReversalStart | fitting/piv.py:16-17 | a given start is clamped like a slice; otherwise the first sample with a negative cosine, or None |
| FittingPiv.ReversalDuration | fitting/piv.py:9-20 | the number of steps from the start to the first positive cosine; 0 when the cosine is already positive there, when none follows, or when no reversal starts |
| FittingPiv.ReversalFromNegative | fitting/piv.py:15-20 | a detected reversal lasts 0 steps exactly when the cosine never becomes positive again |
| FittingPiv.CorrectedFacesFlow | fitting/piv.py:51-59 | the angle is kept or turned by π, turned exactly when cos(angle0 − angle) < 0, and the result never faces against the flow |
| FittingPiv.CorrectedIdempotent | fitting/piv.py:57-59 | correcting a corrected angle changes nothing |
| FittingPiv.FrameTimesBetween | fitting/piv.py:30-31 | every frame time lies halfway between two consecutive trigger times, and frame times rise |
| FittingPiv.TriggerTimesIncrease | fitting/piv.py:29-30 | trigger times rise when t does |
| FittingPiv.InterpolateRows | fitting/piv.py:42-44 | one interpolated row per row, or ValueError |
| FittingPiv.InterpolatedShape | fitting/piv.py:34-49 | a single array gives a single array; a dict gives the same keys; every variable keeps its number of rows |
| FittingPiv.InterpolatePiv | fitting/piv.py:22-49 | the loop over the variables computes the interpolation, with the trigger and shape errors |
| LoadModel.EvaluatedBoundMeaning | file_management/load_model.py:53-58 | a bound keeps its numbers and evaluates its strings, entry by entry |
| LoadModel.EvaluateBound | file_management/load_model.py:55-58 | the copy-and-evaluate loop gives the evaluated bound |
| LoadModel.EvaluateBounds | file_management/load_model.py:53-58 | the loop over the bounds gives every bound evaluated |
| LoadModel.EvaluateConstants | file_management/load_model.py:61-66 | the loop over the constants gives every constant evaluated |
| LoadModel.LoadModels | file_management/load_model.py:33-79 | the loop over the component names computes the loaded model, with FileNotFoundError or KeyError for a missing file or missing equations |
| LoadModel.AssembledOk | file_management/load_model.py:46-68 | loading succeeds exactly when every named component exists and has equations |
| LoadModel.LoadedEquations | file_management/load_model.py:68-74 | the equations are the components' equations joined by newlines, with blank lines collapsed; no blank line remains and no other text changes |
| LoadModel.LaterComponentWins | file_management/load_model.py:69-71 | a bound, constant or initial value comes from the last component that defines it |
| LoadModel.CollapseNoBlankLine | file_management/load_model.py:74 | collapsing leaves no two newlines in a row |
| LoadModel.CollapseKeepsText | file_management/load_model.py:74 | collapsing removes newlines only |
| LoadModel.CollapseIdempotent | file_management/load_model.py:74 | collapsing twice is collapsing once |
| LoadModel.ModelDict.constructor | file_management/load_model.py:76-79 | the dict holds the loaded equations, init, constants and bounds |
| LoadModel.BuildModel | file_management/load_model.py:82-124 | bounds lose every name that is a constant (in place when the model has bounds); constants are evaluated; the equations declare the remaining bounds as parameters; the initial values are a copy with strings evaluated |
| LoadModel.PrunedMeaning | file_management/load_model.py:94-96 | the pruned bounds are exactly the bounds that are not constants |
| LoadModel.InitReplacedMeaning | file_management/load_model.py:117-122 | the initial values keep their names, and numbers are kept |
| LoadModel.SplitJoin | file_management/load_model.py:30 | joining names without '+' by '+' can be undone |
| LoadModel.MembraneEquationSums | file_management/load_model.py:20-31 | the membrane equation is fixed text around a sum that names exactly the currents, in order |
| Fitting.FitArguments | fitting/fitting.py:23-34 | the first argument with display off, else the expanded default with display on; no default raises TypeError |
| Fitting.FitArgumentsDisplay | fitting/fitting.py:28-34 | display is on exactly when no argument is given |
| Fitting.SettingsRecordUsed | fitting/fitting.py:45 | the recorded settings hold the values used and keep every other keyword |
| Fitting.SplitBound | fitting/fitting.py:51-56 | a bound fails (IndexError) exactly when it has neither 2 nor at least 4 entries |
| Fitting.SplitBoundsMeaning | fitting/fitting.py:48-56 | both stages get every name; a 2-entry bound goes to both; a 4-entry bound is rebuilt from the refinement's outer and the evolution's inner pair |
| Fitting.SplitBoundsLoop | fitting/fitting.py:48-56 | the loop computes the split, or the IndexError |
| Fitting.ResultsInfoMeaning | fitting/fitting.py:91-94 | the results hold the fitting window and every setting, and a setting of the same name overrides the window |
| Fitting.RecordFittedModel | fitting/fitting.py:96-101 | the fitted values are written over the constants (created when absent); the bounds are deleted, KeyError when there are none |
| Fitting.FittedOverride | fitting/fitting.py:97-99 | every fitted parameter is a constant of the result and the other constants keep their values |
| Fitting.ErrorsFromMeaning | fitting/fitting.py:120-125 | one error per requested variable and no other, each the mean squared difference from the first compared column |
| Fitting.VariableErrorRange | fitting/fitting.py:123-124 | an error is never negative, and it is zero when the fit equals the data on the compared columns |
| Fitting.ErrorsIgnoreEarlyColumns | fitting/fitting.py:123-124 | columns before the stimulus start do not affect the error |
| Fitting.LocalError | fitting/fitting.py:116-125 | the loop over the variables computes the errors; IndexError for fewer than two samples, KeyError for a missing variable; with a zero step, `{}` when no variable is requested, otherwise the first variable's KeyError, then OverflowError (ValueError when the stimulus starts at 0) |
| Fitting.LocalErrorsZeroStep | fitting/fitting.py:121-124 | with a zero step the result is an error exactly when some variable is requested; for a variable present in the data it is OverflowError from `int()` of an infinite quotient, or ValueError of nan when the stimulus starts at 0, never ZeroDivisionError |
| FolderInformation.StimulusTimeMeaning | file_management/folder_information.py:33-47 | `pre_stimulus` is preferred to `pulse_start` and `stimulus_duration` to `pulse_duration`; the window is (start, start + duration); a missing start or duration leaves a variable unbound |
| FolderInformation.PulseClass | file_management/folder_information.py:227-253 | the class is one of short, normal, weak or strong pulses, or "" |
| FolderInformation.PulseClassMeaning | file_management/folder_information.py:227-253 | fewer than 10 trials gives ""; short pulses are decided by the duration alone; normal pulses go beyond ±2 nA; strong pulses exceed 10 nA on one side only; weak pulses stay within ±1 nA |
| FolderInformation.OldFormatNeverStrong | file_management/folder_information.py:223-235 | with the old info file's symmetric range no protocol is strong, and it is normal exactly above 2 nA |
| FolderInformation.ProtocolOrder | file_management/folder_information.py:216-253 | the name patterns are tried in order: current pulses, merged, random current, random pulses, long pulses; no pattern gives "" |
| FolderInformation.RandomCurrentSign | file_management/folder_information.py:238-247 | "random current" exactly when I_min < 0, else "positive random current"; no yaml file gives "" |
| FolderInformation.ProtocolsMeaning | file_management/folder_information.py:255-260 | the list has no empty string; each entry is a sub-directory's protocol; every typed sub-directory is listed |
| FolderInformation.DateOf | file_management/folder_information.py:89-94 | a date is returned exactly when the six numbers, with day and year swapped when the first exceeds 2000, form a valid `datetime`; it then holds those numbers |
| FolderInformation.RecordingDateMeaning | file_management/folder_information.py:83-106 | a date in the name wins; otherwise the earliest sub-directory date; None exactly when neither gives one |
| FolderInformation.Earliest | file_management/folder_information.py:103-104 | the minimum of the dates is one of them and no later than any |
| FolderInformation.CultureYear | file_management/folder_information.py:190-191 | a year below 100 is read as 2000 plus the year; other years are kept |
| FolderInformation.CultureDate | file_management/folder_information.py:188-197 | the culture is a date exactly when the folder has a recording date and the notes give a day/month/year that `datetime.date` accepts once the year is fixed; it then has that day and month and that year, with a two-digit year read as 20xx |
| PivAnalysis.PivSettings | scripts/image_analysis/piv.py:65-89 | dt = 1/framerate (default 1/30) and pixel size (default 0.178 µm); ZeroDivisionError exactly for a zero frame rate or pixel size |
| PivAnalysis.SettingsSizes | scripts/image_analysis/piv.py:85-89 | the search area is the window plus twice the largest displacement; the overlap is two thirds of the window, rounded down, and less than the window |
| PivAnalysis.DefaultSettings | scripts/image_analysis/piv.py:77-89 | the defaults give a 5-pixel filter, 280-pixel windows overlapping by 186, a 37-pixel displacement and a 354-pixel search area |
| PivAnalysis.PairOutput | scripts/image_analysis/piv.py:145-162 | the pair ending at frame k is written under index k, invalid exactly when it touches a repeated frame |
| PivAnalysis.AnalyseFrames | scripts/image_analysis/piv.py:119-165 | the loop with `previous_missed`, `invalid` and `frame_i` writes one entry per pair; a pair is invalid exactly when frame k repeats frame k−1, or frame k−1 repeated frame k−2 |
| PivAnalysis.OutputsIndices | scripts/image_analysis/piv.py:121-165 | the pairs are written in order under indices 1 to n−1, once each, and the first frame gets no file |
| PivAnalysis.MissedFrameInvalidatesTwo | scripts/image_analysis/piv.py:133-140 | a repeated frame invalidates its own pair and the next one |
| PivAnalysis.NoRepeatAllValid | scripts/image_analysis/piv.py:141-162 | with no repeated frame, every pair gets the cross-correlation of its frames scaled by the pixel size |

## Left out

- Floating point: IEEE rounding, NaN and infinity, and the 1e-14/1e-12 tolerances and Padé fast normalisation inside the quaternion libraries. Reals are exact. Sine, cosine, square root, arctangent and π are parameters that obey stated laws, not implementations.
- Aliasing: `MovingCell` stores the caller's position array and a caller-given orientation `Quaternion` by reference (behavior/motion.py:29-30). So `+=` on the position and `integrate` on the orientation (behavior/motion.py:83) also change the caller's objects. The model copies values.
- numpy broadcasting between arrays of different shapes; the model requires or checks matching shapes.
- `MovingCells.mouth_position` (behavior/motion_vectorized.py:163-175): marked as not vectorized, and `p2[2]` picks cell 2's row rather than z components, so it is no per-cell rule.
- The `__main__` demonstration blocks of both motion files.
- `stimulus_time` in data_preparation.py: a yaml file read with units.
- `read_lab_notes`, apart from the culture year: keyword and solution parsing with regular expressions, and calendar arithmetic on dates.
- `global_error` and the fitting run of `two_stage_fit`: the optimisers, trace generation and device clean-up are brian2modelfitting's.
- brian2 `Equations` objects and units. `Equations` is a record of text, constants and parameter names. Fitted values are stored as numbers, not as unit strings.
- MotionVectorized.MovingCells.SetGravity: takes one scalar speed for all cells. The source also accepts one speed per cell through numpy broadcasting (behavior/motion_vectorized.py:59-60), but no code in the repository passes one.
- DataPreparation.Dataset.Subsample: assumes a positive step. Negative steps are not modelled, and `int(j/n)` is exact integer division rather than a float division.
- DataPreparation.Dataset.Trim: requires every matrix to have one column per sample of t. numpy's IndexError for other shapes is not modelled.
- DataPreparation.Dataset.SelectTrials: requires every matrix to have the same number of trials. A numpy integer array as the selection (reported through `nonzero()`) is not modelled.
- DataPreparation.Amplitudes: with trials but an empty window, numpy's mean is NaN for every trial (with a RuntimeWarning) and the function returns those NaNs. The model returns InvalidValue instead.
- DataPreparation.AlignTraces: with an empty selection, numpy's mean is NaN and it writes NaN into every row. The model leaves the rows unchanged and returns InvalidValue.
- DataPreparation.MergeData: the width check of `vstack` does not treat empty matrices specially.
- FittingPiv.CorrectedCellAngle: `circmean` of the PIV angles and its NaN filter are not modelled. The mean direction `angle0` is a parameter.
- FittingPiv.InterpolatePiv: `np.interp` is a parameter, rows containing NaN are not treated separately, and the data must have one column per sample of t.
- LoadModel.LoadModels: `eval` of strings is a parameter that cannot fail, and the verbose printing is left out.
- LoadModel.MembraneEquationSums: the currents are given as input rather than found by unit in a brian2 `Equations` set, whose iteration order is not modelled. With no currents, the sum `()` does not split back into an empty list, so the round trip requires at least one current.
- Fitting.LocalError: `t` is passed separately from the data dict, so a missing `t` key is not modelled. Broadcasting of a single fitted trace against many data trials is reported as ValueError. The inf or nan quotient of a zero step, and numpy's RuntimeWarning about it, are not values of the model; only the exception `int()` raises on them is.
- FolderInformation.Protocol: the files' contents are given as numeric dictionaries. `load_info`'s own errors other than a missing file are not modelled.
- FolderInformation.RecordingDate: the regular-expression search is a parameter, and a folder whose sub-directories cannot be listed is not modelled.
- PivAnalysis.AnalyseFrames: image reading, background subtraction, filtering, the openpiv grid and the cross-correlation are parameters or left out. Files are modelled as entries of a list.

## Findings

| source | as written | input that shows it | evidently intended | confidence | as-written member | corrected member |
|---|---|---|---|---|---|---|
| behavior/motion_vectorized.py:84 | the spiral axis uses `from_rotation_vector(omega)`, so it rotates the vector part of exp(ω/2), of length \|sin(\|ω\|/2)\| | the default spin of one turn per second (\|ω\| = 2π) gives the zero vector | as in behavior/motion.py:66, rotate the pure quaternion (0, ω), whose length is the angular speed | not executed | MotionVectorized.SpiralAxisVanishes | MotionVectorized.MovingCells.WorldSpins |
| behavior/motion_vectorized.py:142-143 | `p_H[:,2] = p[:,2]` keeps the vertical component, so the angle is atan2(p_z, \|p_z\|) | the unit axis (0.6, 0, 0.8) stays tilted after the correction | as in behavior/motion.py:114-115, keep the horizontal components, so the axis is levelled | not executed | MotionVectorized.BatchCorrectionTilts | Motion.PlanarCorrectionLevels |
