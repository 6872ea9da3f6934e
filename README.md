# dewa-py core in Dafny

This project models the sample engine of dewa, a Python library for
sequencing and synthesising audio as numpy arrays.

- **Block** (`src/dewa/block.py`) is a duration plus that many samples.
  - `+`, `*`, unary `-`, reversed `+`, `reverse` and `repeat` build new blocks.
  - `mount` adds another block into the receiver in place, and grows the receiver when the other block reaches past its end.
- **Synth Block** (`src/dewa/synth/block.py`) is the same, plus a sample rate and a "dynamic duration" flag. Its `+` and `*` hand the block to a Modifier.
- **Modifier.apply** (`src/dewa/synth/modifier/base.py`) generates a wave and checks that its shape matches the block's. It then adds or multiplies the wave into the block in place.
  - The Echo and LinearRamp modifiers are modelled (`echo.py`, `linear_ramp.py`).
- **Amplitude and Bezier** (`src/dewa/modifiers/`) are the envelope generators of the package.
- **units** (`src/dewa/utils/units.py`) converts a sample rate and a tempo into samples.
- **Dewa** is a positioned buffer that adds to another Dewa over the union of their windows. There are two versions:
  - the stand-alone one in `src/synth/base.py`;
  - the package one in `dewa/synth/base.py`. It also adds arrays and Modifiers, and it treats a missing position as 0.

## How the model is built

Value-level numpy operations are Dafny functions over `seq<real>`. They live in `samples.dfy` and cover:

- `np.zeros`, `np.tile` and `np.resize`;
- `np.flip`;
- broadcasting arithmetic;
- in-place `+=` and `*=`;
- `np.linspace(..., endpoint=False)`.

Python slice semantics are in `slicing.dfy`: negative bounds, clamping, and `x[a:b] += v` done as getitem, then in-place add, then setitem.

Objects that the code changes in place are Dafny classes. The samples are an `array<real>`, and `Valid()` says that the duration counts the samples. Each in-place method has two kinds of contract:

- it is proved against a specification function: `Mounting.Mounted`, `Samples.Pointwise`, `Slicing.SliceAdd` or `Slicing.PositionalSum`;
- the properties of that function are proved as lemmas.

Python exceptions become `Result` values holding a `ValueError` or a `ZeroDivisionError`. Where the code raises a `ValueError` itself, the value carries that message word for word. Where numpy raises it (a failed broadcast or slice assignment), the message is a short fixed paraphrase. numpy's own text names the shapes, and the model does not reproduce it.

Where the code and the design description of the library disagree, the model follows the code:

- **mount** grows the receiver with `np.resize`. The new tail therefore repeats the old samples rather than being zero-padded (see Findings).
- **Echo** adds one delayed, decayed copy of the block's own samples. It has no feedback path.
- **Bezier** is a fixed cubic with four control values, not a curve of arbitrary degree.
- **Broadcasting can make `duration` wrong.** `Block + array` keeps the receiver's duration but takes the broadcast samples. So a one-sample Block plus a five-sample array has duration 1 and five samples. `Block.Block.Add` states exactly this. For a valid receiver, its result is `Valid()` iff the operand is a number, the receiver does not have exactly one sample, or the array has one sample. The value-building methods (`Add`, `Multiply`, `Negate`, `RightAdd`, `Reverse`, `Repeat`) accept such a block as Python does. `Mount` requires a valid one (see Left out).

## Model

| member | source | states |
|---|---|---|
| Samples.Tile | src/dewa/block.py:76-78 | `np.tile(s, times)` holds `times` copies of `s` back to back: its length is `|s| * times` |
| Samples.TileCopyAt | src/dewa/block.py:78 | sample `j` of copy `q` of a tile is `s[j]`, and it lies inside the tile |
| Samples.TileAt | src/dewa/block.py:78 | sample `k` of a tile is `s[k mod |s|]` |
| Samples.TileBlock | src/dewa/block.py:78 | every block of `|s|` samples at a copy boundary of the tile equals `s` |
| Samples.CeilDiv | src/dewa/block.py:53 | the copy count np.resize concatenates is the least `q` with `m * q >= n` |
| Samples.Resize | src/dewa/block.py:53 | `np.resize(s, n)` has exactly `n` samples |
| Samples.ResizeAt | src/dewa/block.py:53 | sample `k` of `np.resize(s, n)` is `s[k mod |s|]`, or zero when `s` is empty |
| Samples.ResizePrefix | src/dewa/block.py:53 | growing with np.resize keeps the existing samples in front |
| Samples.ResizeSameLength | src/dewa/modifiers/amplitude.py:23-24 | resizing an array to its own length gives it back unchanged |
| Samples.NegatedTwice | src/dewa/block.py:44-47 | negating the samples twice gives them back |
| Samples.ReversedTwice | src/dewa/block.py:67-70 | flipping the samples twice gives them back |
| Samples.Broadcast | src/dewa/block.py:30-34 | `s op a` succeeds iff the lengths are equal or one of them is 1; the result has the length of `a`, or of `s` when `a` has one sample, so a one-sample receiver against an empty array gives an empty result |
| Samples.InPlace | src/dewa/synth/modifier/base.py:39-42 | `s op= a` succeeds iff `a` has the length of `s` or length 1; it keeps the length of `s` and combines sample by sample; the same rule decides the slice `+=` of a Dewa sum (src/synth/base.py:28-29), where a one-sample operand is spread over the whole slice |
| Samples.LinSpaceStep | src/dewa/synth/modifier/linear_ramp.py:22-27 | consecutive linspace values differ by `(stop - start) / num` |
| Samples.LinSpaceAt | src/dewa/synth/modifier/linear_ramp.py:22-27 | value `i` is `start + (stop - start) * i / num`, so `stop` is never reached |
| Samples.Zeros | src/dewa/block.py:27 | `np.zeros(n)` has `n` samples, each zero |
| Samples.WithScalar | src/dewa/block.py:33 | `s + c` or `s * c` for a number `c` keeps the length of `s` (its samples are stated by `Block.CombinedScalar`) |
| Samples.ScalarWith | src/dewa/block.py:64 | `c + s` for a number `c` keeps the length of `s` |
| Samples.Negated | src/dewa/block.py:46 | `-s` keeps the length; negating twice gives `s` back (`Samples.NegatedTwice`) |
| Samples.Reversed | src/dewa/block.py:69 | `np.flip(s)` keeps the length; flipping twice gives `s` back (`Samples.ReversedTwice`) |
| Samples.Pointwise | src/dewa/synth/modifier/base.py:40-42 | the element-wise sum or product of two equal-length arrays keeps their length |
| Samples.LinSpace | src/dewa/synth/modifier/linear_ramp.py:24-26 | `np.linspace(start, stop, num, endpoint=False)` has `num` values; their values and step are stated by `Samples.LinSpaceAt` and `Samples.LinSpaceStep`; the Bezier time base (src/dewa/modifiers/bezier.py:32) and the scalar amplitude (src/dewa/modifiers/amplitude.py:28) use the same function |
| Samples.PointwiseInPlace | src/dewa/synth/modifier/base.py:39-42 | the array becomes the element-wise sum or product of its old contents and the wave |
| Mounting.Grown | src/dewa/block.py:50-54 | the receiver's length after growth is the larger of its length and the required one |
| Mounting.GrownAt | src/dewa/block.py:50-54 | after growth, old samples stay in place; past the old end come cyclic copies of them, or zeros when there were none |
| Mounting.Grow | src/dewa/block.py:53-54 | growing an array that is too short yields a fresh array holding the grown samples |
| Mounting.Overlay | src/dewa/block.py:56-58 | `s[p : p + |o|] += o` for a window inside `s` keeps the length of `s`; its samples are stated by `Mounting.MountedAt` |
| Mounting.Mounted | src/dewa/block.py:49-60 | the receiver's samples after mount as the code computes them, overlay of the np.resize-grown samples; its length is the larger of the old length and `p + |o|` |
| Mounting.MountedZeroPadded | src/dewa/block.py:49-60 | the intended mount, zero-padding instead of np.resize; same length as the code's mount |
| Mounting.MountedAt | src/dewa/block.py:49-60 | each sample after a mount is the grown receiver sample plus the mounted sample wherever the window covers it |
| Mounting.MountedWithin | src/dewa/block.py:56-58 | a mount that fits inside the receiver only adds into the window |
| Mounting.MountAtEndAddsToCopy | src/dewa/block.py:53 | as written, mounting `[5]` at the end of `[1, 2]` gives `[1, 2, 6]`, not `[1, 2, 5]` |
| Mounting.MountedZeroPaddedAt | src/dewa/block.py:49-60 | with zero-padding, new samples outside the window are zero |
| Mounting.MountedZeroPaddedAtEnd | src/dewa/block.py:49-60 | with zero-padding, mounting at the end concatenates |
| Mounting.MountedAgreesWhenNoCopies | src/dewa/block.py:49-60 | code and zero-padded mount agree whenever the receiver does not grow, or is empty |
| Mounting.OverlayInPlace | src/dewa/block.py:56-58 | `buf[p : p + |o|] += o` adds `o` into the window and changes nothing else |
| Block.Combined | src/dewa/block.py:30-42 | a number always combines; an array combines iff numpy can broadcast it against the samples |
| Block.CombinedScalar | src/dewa/block.py:30-42 | adding or multiplying by a number keeps the length and acts on every sample |
| Block.CombinedArrayLength | src/dewa/block.py:30-42 | a broadcast result keeps the receiver's length unless the receiver has one sample and the array does not, in which case it takes the array's length, which may be longer or zero |
| Block.Block.constructor | src/dewa/block.py:16-28 | `Block(d)` holds `d` zero samples; `Block(None)` is empty |
| Block.Block.Arith | src/dewa/block.py:30-42 | the shared body of `+` and `*`: ValueError iff numpy cannot broadcast; otherwise a fresh block of the receiver's duration holding the broadcast result, valid for a valid receiver iff the operand is a number, the receiver has other than one sample, or the array has one sample |
| Block.Block.Add | src/dewa/block.py:30-35 | ValueError iff the operands do not broadcast; otherwise a fresh block of the receiver's duration holding the broadcast sum, valid for a valid receiver unless a one-sample receiver meets an array of another length; the receiver is unchanged |
| Block.Block.Multiply | src/dewa/block.py:37-42 | the same, for the product |
| Block.Block.Negate | src/dewa/block.py:44-47 | a fresh block of the same duration with every sample negated, valid iff the receiver is |
| Block.Block.RightAdd | src/dewa/block.py:62-65 | a fresh block holding `other + s[i]` for every sample, valid iff the receiver is |
| Block.Block.Reverse | src/dewa/block.py:67-70 | a fresh block with the samples in reverse order, valid iff the receiver is |
| Block.Block.Repeat | src/dewa/block.py:72-79 | ValueError iff `times <= 0`; otherwise a block of duration `duration * times` holding `times` copies, valid iff the receiver is |
| Block.Block.Mount | src/dewa/block.py:49-60 | returns the receiver; its duration becomes the larger of the old one and `mountPoint + other.duration`; its samples become `Mounted(old, other, mountPoint)`; `other` is unchanged |
| SynthBlock.Block.constructor | src/dewa/synth/block.py:13-28 | a block made without a duration is dynamic and empty; otherwise it holds that many zeros; the sample rate is stored |
| SynthBlock.Block.Negate | src/dewa/synth/block.py:36-39 | a fresh block with negated samples that keeps the duration and sample rate |
| SynthBlock.Block.RightAdd | src/dewa/synth/block.py:54-57 | a fresh block holding `other + s[i]`, keeping the sample rate |
| SynthBlock.Block.Reverse | src/dewa/synth/block.py:59-62 | a fresh block with the samples reversed, keeping the sample rate |
| SynthBlock.Block.Repeat | src/dewa/synth/block.py:64-71 | ValueError iff `times <= 0`; otherwise a fresh, non-dynamic block of `times` copies with the same sample rate |
| SynthBlock.Block.Mount | src/dewa/synth/block.py:41-52 | as the package mount; a dynamic block grows by the same rule; the sample rate and the dynamic flag are unchanged |
| Echo.New | src/dewa/synth/modifier/echo.py:18-22 | ValueError iff the decay lies outside `[0, 1]`; both ends are accepted |
| Echo.DelayedCopy | src/dewa/synth/modifier/echo.py:26-29 | the echo wave, `s` delayed by `delay` samples and scaled by `decay`, has one value per sample; its samples are stated by `Echo.DelayedCopyAt` |
| Echo.DelayedCopyAt | src/dewa/synth/modifier/echo.py:24-31 | echo sample `i` is zero before the delay and `s[i - delay] * decay` from the delay on |
| Echo.DelayedCopySilent | src/dewa/synth/modifier/echo.py:24-31 | a delay at or past the end of the block, or a zero decay, gives silence |
| Echo.DelayedCopyNoDelay | src/dewa/synth/modifier/echo.py:24-31 | with no delay the echo is the block scaled by the decay |
| Echo.GenerateWave | src/dewa/synth/modifier/echo.py:24-31 | the loop yields one value per sample, equal to the delayed copy; the block is only read |
| LinearRamp.GenerateWave | src/dewa/synth/modifier/linear_ramp.py:22-27 | the ramp has one value per sample of the block |
| LinearRamp.RampAt | src/dewa/synth/modifier/linear_ramp.py:22-27 | sample `i` is `start + (end - start) * i / duration`; the ramp starts exactly at `start` |
| LinearRamp.RampNeverReachesEnd | src/dewa/synth/modifier/linear_ramp.py:22-27 | because the end point is excluded, a non-constant ramp never takes the value `end` |
| LinearRamp.RampConstant | src/dewa/synth/modifier/linear_ramp.py:22-27 | a ramp with equal ends is constant |
| LinearRamp.RampRising | src/dewa/synth/modifier/linear_ramp.py:22-27 | a rising ramp increases strictly, from `start` to below `end` |
| SynthModifier.Wave | src/dewa/synth/modifier/base.py:25-31 | every modelled modifier returns exactly one wave value per sample |
| SynthModifier.GenerateWave | src/dewa/synth/modifier/base.py:25-31 | `_generate_wave` dispatches to the modifier and returns its wave |
| SynthModifier.Updated | src/dewa/synth/modifier/base.py:39-44 | the samples after `apply` with a given operation name keep their length; their values are stated by `SynthModifier.UpdatedAt` |
| SynthModifier.UpdatedAt | src/dewa/synth/modifier/base.py:39-44 | "add" adds the wave, "multiply" multiplies by it, and any other operation name leaves the samples as they were |
| SynthModifier.ApplyWave | src/dewa/synth/modifier/base.py:36-44 | ValueError, with the block untouched, iff the wave's length differs; otherwise the samples are updated in place and the same block is returned |
| SynthModifier.Apply | src/dewa/synth/modifier/base.py:33-44 | for Echo and LinearRamp, apply always succeeds, returns the block it was given and updates its samples |
| SynthModifier.BlockAdd | src/dewa/synth/block.py:30-31 | `block + m` adds m's wave into the block in place and returns the block |
| SynthModifier.BlockMultiply | src/dewa/synth/block.py:33-34 | `block * m` multiplies the block by m's wave in place and returns the block |
| SynthModifier.AddedEchoIsSingleTap | src/dewa/synth/modifier/echo.py:24-31 | `block += Echo(d, a)` gives `s[i] + a * s[i - d]` from `d` on, and `s[i]` before it |
| SynthModifier.FadeOut | src/dewa/synth/modifier/linear_ramp.py:22-27 | `block *= LinearRamp(1, 0)` keeps the first sample and scales the last one by `1 / duration`; the last sample is not silenced |
| Bezier.Weights | src/dewa/modifiers/bezier.py:34-42 | the four cubic Bernstein weights are `(1, 0, 0, 0)` at `t = 0` and `(0, 0, 0, 1)` at `t = 1` |
| Bezier.At | src/dewa/modifiers/bezier.py:34-42 | the cubic at `t` equals `p0` at `t = 0` and `p3` at `t = 1` |
| Bezier.WeightsSumToOne | src/dewa/modifiers/bezier.py:37-42 | the four Bernstein weights sum to one |
| Bezier.WeightsNonNegative | src/dewa/modifiers/bezier.py:37-42 | on `[0, 1]` every weight is non-negative |
| Bezier.TimeBase | src/dewa/modifiers/bezier.py:32 | `t[i] = i / duration`, inside `[0, 1)` |
| Bezier.Generate | src/dewa/modifiers/bezier.py:29-44 | the curve has one value per sample |
| Bezier.CurveStart | src/dewa/modifiers/bezier.py:29-44 | the curve starts exactly at `p0` |
| Bezier.ConstantCurve | src/dewa/modifiers/bezier.py:29-44 | four equal control values give a constant curve |
| Bezier.CurveScales | src/dewa/modifiers/bezier.py:29-44 | scaling the control values by `k` scales every sample by `k` |
| Bezier.AtWithinControlValues | src/dewa/modifiers/bezier.py:37-42 | on `[0, 1]` the curve lies between the smallest and the largest control value |
| Bezier.CurveWithinControlValues | src/dewa/modifiers/bezier.py:29-44 | every sample lies between the smallest and the largest control value |
| Amplitude.Generate | src/dewa/modifiers/amplitude.py:21-30 | every kind of amplitude argument yields exactly one value per sample of the block |
| Amplitude.BlockParamAt | src/dewa/modifiers/amplitude.py:23-24 | a Block argument repeats cyclically or is cut to the duration, and gives zeros when it is empty |
| Amplitude.ModifierParamIsInner | src/dewa/modifiers/amplitude.py:25-26 | a Modifier argument contributes exactly what that modifier generates for the same block |
| Amplitude.ScalarParamAt | src/dewa/modifiers/amplitude.py:27-29 | a number `a` gives `i / a` at sample `i` |
| Amplitude.NestedResolvesInnermost | src/dewa/modifiers/amplitude.py:25-26 | any depth of nested Amplitude modifiers resolves to the innermost one |
| Units.Units | src/dewa/utils/units.py:15-19 | ZeroDivisionError iff the sample rate or the tempo is zero; otherwise `second == sample_rate`, `second * hz == 1` and `beat * bpm == 60 * sample_rate` |
| Units.BeatAtSixty | src/dewa/utils/units.py:18 | at 60 bpm a beat is exactly one second of samples |
| Units.DoubleTempoHalvesBeat | src/dewa/utils/units.py:18 | doubling the tempo halves the beat |
| Slicing.Clamp | src/synth/base.py:28-29 | a slice bound is counted from the end when negative, then clamped to `[0, len]`; in-range bounds are kept |
| Slicing.SliceRange | src/synth/base.py:28-29 | a slice selects `lo <= hi <= len`; an in-range slice selects exactly its bounds |
| Slicing.GetSlice | src/synth/base.py:12-13 | `buf[start:stop]` is as long as the range it selects |
| Slicing.SetSlice | src/synth/base.py:15-16 | assignment succeeds iff the value has the slice's length or length 1; it keeps the buffer's length |
| Slicing.SetSliceAt | src/synth/base.py:15-16 | after assignment the slice holds the value, or its single sample, and nothing else changes |
| Slicing.SliceAdd | src/synth/base.py:28-29 | `buf[a:b] += v` succeeds iff `v` has the slice's length or length 1 |
| Slicing.SliceAddAt | src/synth/base.py:28-29 | after `buf[a:b] += v`, each slice sample has gained its part of `v` and nothing else has changed |
| Slicing.SetSliceInPlace | src/synth/base.py:15-16 | the array is overwritten as `SetSlice` says, and left untouched on ValueError |
| Slicing.SliceAddInPlace | src/synth/base.py:28-29 | the array is updated as `SliceAdd` says, and left untouched on ValueError |
| Slicing.Window | src/synth/base.py:21-24 | the sum starts at the earlier position, ends at the later end, and covers both operands |
| Slicing.WindowSymmetric | src/synth/base.py:21-24 | the window does not depend on the order of the operands and is at least as long as each |
| Slicing.PositionalSum | src/synth/base.py:26-29 | the code's sum, when it succeeds, is as long as the window |
| Slicing.PositionalSumAtOrigin | src/synth/base.py:26-29 | with both operands at position 0 the sum succeeds and adds them sample by sample |
| Slicing.PositionalSumRejectsOffset | src/synth/base.py:28-29 | as written, an operand of 4 samples at position 2 makes the sum raise ValueError |
| Slicing.PositionalSumDropsOperand | src/synth/base.py:28-29 | as written, `[5]` at position 3 plus `[1]` at position 0 gives `[1, 0, 0, 0]`: the first operand is lost |
| Slicing.Overlaid | src/synth/base.py:18-31 | the reference mix has one sample per position of the window |
| Slicing.AddBoth | src/synth/base.py:28-29 | two slice `+=` steps in a row, the first error stopping the second; a success keeps the buffer's length |
| Slicing.PlacedSum | src/synth/base.py:18-31 | the corrected sum, each operand added at its offset from the window's start; a success is as long as the window (always a success, by `Slicing.PlacedSumIsOverlaid`) |
| Slicing.PlacedSumIsOverlaid | src/synth/base.py:18-31 | the corrected sum always succeeds and equals each operand placed at its offset from the window's start |
| Slicing.PlacedSumSymmetric | src/synth/base.py:18-31 | the corrected sum does not depend on the order of its operands |
| Slicing.PositionalSumIntendedAtOrigin | src/synth/base.py:26-29 | with both operands at position 0 the code computes the corrected sum |
| Dewa.Dewa.constructor | src/synth/base.py:7-10 | `Dewa(dur, position)` holds `dur` zero samples at the given position |
| Dewa.Dewa.GetItem | src/synth/base.py:12-13 | `self[a:b]` holds the samples of the clamped range, in order |
| Dewa.Dewa.SetItem | src/synth/base.py:15-16 | `self[a:b] = v` updates the samples as `SetSlice`, or raises ValueError and leaves them unchanged |
| Dewa.Dewa.AddItem | src/synth/base.py:28-29 | `self[a:b] += v` updates the samples as `SliceAdd`, or raises ValueError and leaves them unchanged |
| Dewa.Dewa.Add | src/synth/base.py:18-31 | ValueError with the position message iff a position is missing; otherwise the result succeeds iff `PositionalSum` does, and is then a fresh Dewa at the window's start, as long as the window, holding `PositionalSum` |
| DewaPackage.PositionOrZero | dewa/synth/base.py:22-23 | a missing position counts as 0 |
| DewaPackage.Placement | dewa/synth/base.py:21-35 | a Dewa operand is placed at its own position or 0 with its samples; an array at 0; a Modifier's rendering for `self.dur` at 0 |
| DewaPackage.Dewa.constructor | dewa/synth/base.py:9-12 | `Dewa(dur, position)` holds `dur` zero samples at the given position |
| DewaPackage.Dewa.GetItem | dewa/synth/base.py:14-15 | `self[a:b]` holds the samples of the clamped range, in order |
| DewaPackage.Dewa.SetItem | dewa/synth/base.py:17-18 | `self[a:b] = v` updates the samples as `SetSlice`, or raises ValueError and leaves them unchanged |
| DewaPackage.Dewa.AddItem | dewa/synth/base.py:32-33 | `self[a:b] += v` updates the samples as `SliceAdd`, or raises ValueError and leaves them unchanged |
| DewaPackage.Dewa.Add | dewa/synth/base.py:20-37 | the sum with a Dewa, an array or a Modifier succeeds iff `PositionalSum` of the placed operands does; it is then a fresh Dewa at the window's start, as long as the window, holding that sum |
| DewaPackage.Dewa.AddPlaced | dewa/synth/base.py:21-33 | the Dewa-or-array branch: a fresh Dewa over the window, holding `PositionalSum` |

## Left out

- Audio output, file I/O, the command-line entry points and the global verbosity flag are outside the model.
- The trigonometric generators (sine, square, sawtooth, triangle, tremolo) use floating-point trigonometry. They are not modelled.
- Samples are real numbers. `float32` rounding, the `dtype` argument, NaN and infinities are not represented.
- Durations, delays and mount points are `nat`. Negative values, for which numpy raises or counts from the end, are outside the model. So are non-integer `times` in `repeat`.
- Block.Block.Add: a Modifier operand, which the code hands back as `other + self`, is not modelled. The package Modifier class lives in a module that is not part of this model, and no `+` on it is visible, so that call has no behaviour to model.
- Block.Block.Multiply: the Modifier operand is left out, for the same reason.
- Block.Block.Mount: mounting a block onto itself, or onto a block sharing its array, is excluded by the precondition. In numpy the slice would alias the operand.
- SynthBlock.Block.Mount: the same aliasing is excluded.
- Dewa.Dewa.GetItem: numpy returns a view that shares memory with the buffer. The model returns a copy, so writes through the view are not captured.
- DewaPackage.Dewa.GetItem: the same view aliasing is not captured.
- Amplitude.Generate: a Block argument is modelled by its samples at the time of the call. Later in-place changes to that Block are not tracked.
- Amplitude.Generate: the package Modifier base class's abstract `_generate` only fixes the result's length. Only Amplitude and Bezier are modelled as its implementations.
- DewaPackage.Placement: a Modifier is modelled only by its `render(dur)` result. The module that defines the package's Modifier subclasses is not part of this model.
- The Bezier example that passes a list of points does not match the constructor's four numbers, and it is not modelled.
- The one-sample-Block-plus-longer-array case gives a block whose duration disagrees with its samples. That is modelled as it is, not as an error.
- Block.Block.Mount: requires `Valid()` for both blocks. A block whose duration disagrees with its sample count, which only a broadcast `+` or `*` produces, is not a receiver or operand of mount in this model. With such a block numpy's slice in mount may clamp, or fail to broadcast.

## Findings

| source | as written | input that shows it | evidently intended | confidence | as-written member | corrected member |
|---|---|---|---|---|---|---|
| src/dewa/block.py:53 | mount grows the receiver with `np.resize`, which fills the new tail with repeated copies of the old samples | Block with samples `[1, 2]`, mount a block `[5]` at point 2: result `[1, 2, 6]` | the new tail starts as silence, so mounting at the end appends: `[1, 2, 5]` | not executed | Mounting.MountAtEndAddsToCopy | Mounting.MountedZeroPaddedAtEnd |
| src/dewa/synth/block.py:45 | the synth Block's mount grows with `np.resize` too | the same `[1, 2]` plus `[5]` at point 2 gives `[1, 2, 6]` | zero-padding, as above | not executed | Mounting.MountAtEndAddsToCopy | Mounting.MountedZeroPaddedAtEnd |
| src/synth/base.py:28-29 | each operand is added into `added[pos:dur]`: the position and the duration are used as absolute slice bounds, not as an offset into the window | operand of 4 samples at position 2 with another of 4 at 0: the slice `[2:4]` holds 2 samples, so ValueError; `[5]` at 3 plus `[1]` at 0: slice `[3:1]` is empty and `[5]` is lost | `added[pos - start : pos - start + dur] += samples`, with `start` the window's start | not executed | Slicing.PositionalSumDropsOperand | Slicing.PlacedSumIsOverlaid |
| dewa/synth/base.py:32-33 | the package Dewa uses the same absolute slices `[pos1:dur1]` and `[pos2:dur2]` | the same inputs as above | the same offsets into the window | not executed | Slicing.PositionalSumRejectsOffset | Slicing.PlacedSumSymmetric |
