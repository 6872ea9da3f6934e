/**
  Modifier.apply of the synth sub-package (src/dewa/synth/modifier/base.py)
  and the synth Block's + and *, which delegate to it
  (src/dewa/synth/block.py). apply generates a wave for the block, checks
  that its shape matches the block's samples, and adds or multiplies it into
  those samples in place.
*/
module SynthModifier {
  import opened Results
  import opened Samples
  import SynthBlock
  import Echo
  import LinearRamp

  /** The synth modifiers whose waves are plain array arithmetic. */
  datatype Modifier =
    | EchoModifier(echo: Echo.Echo)
    | RampModifier(ramp: LinearRamp.LinearRamp)

  /**
    The wave a modifier generates for a block whose samples are `s`. Every
    modifier must return exactly one value per sample of the block.
  */
  function Wave(m: Modifier, s: seq<real>): (w: seq<real>)
    ensures |w| == |s|
  {
    match m
    case EchoModifier(e) => Echo.DelayedCopy(s, e.delay, e.decay)
    case RampModifier(r) => LinearRamp.GenerateWave(r, |s|)
  }

  /** _generate_wave, dispatched on the kind of modifier. */
  method GenerateWave(m: Modifier, block: SynthBlock.Block) returns (wave: seq<real>)
    requires block.Valid()
    ensures |wave| == block.samples.Length
    ensures wave == Wave(m, block.samples[..])
  {
    match m
    case EchoModifier(e) =>
      wave := Echo.GenerateWave(e, block);
    case RampModifier(r) =>
      wave := LinearRamp.GenerateWave(r, block.duration);
  }

  /**
    The block's samples after `samples op= wave` for the operation name
    given to apply: "add" adds, "multiply" multiplies, any other name leaves
    the samples as they were.
  */
  function Updated(s: seq<real>, wave: seq<real>, operation: string): (r: seq<real>)
    requires |wave| == |s|
    ensures |r| == |s|
  {
    if operation == "add" then Pointwise(Plus, s, wave)
    else if operation == "multiply" then Pointwise(Times, s, wave)
    else s
  }

  /** Sample by sample: the sum, the product, or the old sample for any other operation name. */
  lemma UpdatedAt(s: seq<real>, wave: seq<real>, operation: string, i: nat)
    requires |wave| == |s| && i < |s|
    ensures operation == "add" ==> Updated(s, wave, operation)[i] == s[i] + wave[i]
    ensures operation == "multiply" ==> Updated(s, wave, operation)[i] == s[i] * wave[i]
    ensures operation != "add" && operation != "multiply" ==> Updated(s, wave, operation)[i] == s[i]
  {
  }

  /**
    The part of apply after the wave is generated: ValueError, with the
    block left as it was, when the wave's shape differs from the samples';
    otherwise the samples are updated in place and the same block is
    returned. The duration is never changed.
  */
  method ApplyWave(block: SynthBlock.Block, wave: seq<real>, operation: string)
    returns (r: Result<SynthBlock.Block>)
    requires block.Valid()
    modifies block.samples
    ensures r.Err? <==> |wave| != block.samples.Length
    ensures r.Err? ==> block.samples[..] == old(block.samples[..])
    ensures r.Ok? ==> r.value == block && block.Valid()
    ensures r.Ok? ==> block.samples[..] == Updated(old(block.samples[..]), wave, operation)
  {
    if |wave| != block.samples.Length {
      return Err(ValueError("Generated wave shape does not match block samples shape."));
    }
    if operation == "add" {
      PointwiseInPlace(Plus, block.samples, wave);
    } else if operation == "multiply" {
      PointwiseInPlace(Times, block.samples, wave);
    }
    r := Ok(block);
  }

  /**
    apply(block, operation): generate the wave, check it, and combine it
    into the block in place. For these modifiers the wave always fits, so
    apply returns the block it was given.
  */
  method Apply(m: Modifier, block: SynthBlock.Block, operation: string)
    returns (r: Result<SynthBlock.Block>)
    requires block.Valid()
    modifies block.samples
    ensures r == Ok(block) && block.Valid()
    ensures block.samples[..] == Updated(old(block.samples[..]), Wave(m, old(block.samples[..])), operation)
  {
    var wave := GenerateWave(m, block);
    r := ApplyWave(block, wave, operation);
  }

  /** block + m on the synth Block: m.apply(block, "add"); the block itself is changed and returned. */
  method BlockAdd(block: SynthBlock.Block, m: Modifier) returns (r: Result<SynthBlock.Block>)
    requires block.Valid()
    modifies block.samples
    ensures r == Ok(block) && block.Valid()
    ensures block.samples[..] == Pointwise(Plus, old(block.samples[..]), Wave(m, old(block.samples[..])))
  {
    r := Apply(m, block, "add");
  }

  /** block * m on the synth Block: m.apply(block, "multiply"); the block itself is changed and returned. */
  method BlockMultiply(block: SynthBlock.Block, m: Modifier) returns (r: Result<SynthBlock.Block>)
    requires block.Valid()
    modifies block.samples
    ensures r == Ok(block) && block.Valid()
    ensures block.samples[..] == Pointwise(Times, old(block.samples[..]), Wave(m, old(block.samples[..])))
  {
    r := Apply(m, block, "multiply");
  }

  /**
    block += Echo(delay, decay) is a single-tap echo: every sample gains the
    decayed sample `delay` steps earlier, and nothing before the delay changes.
  */
  lemma AddedEchoIsSingleTap(s: seq<real>, e: Echo.Echo, i: nat)
    requires i < |s|
    ensures Updated(s, Wave(EchoModifier(e), s), "add")[i] ==
      if i < e.delay then s[i] else s[i] + s[i - e.delay] * e.decay
  {
    Echo.DelayedCopyAt(s, e.delay, e.decay, i);
  }

  /**
    block *= LinearRamp(1, 0) fades the block out: the first sample is kept,
    and the last is scaled by 1 / duration rather than silenced.
  */
  lemma FadeOut(s: seq<real>)
    requires |s| > 0
    ensures Updated(s, Wave(RampModifier(LinearRamp.LinearRamp(1.0, 0.0)), s), "multiply")[0] == s[0]
    ensures Updated(s, Wave(RampModifier(LinearRamp.LinearRamp(1.0, 0.0)), s), "multiply")[|s| - 1]
      == s[|s| - 1] * (1.0 / (|s| as real))
  {
    var n := |s| as real;
    var ramp := LinearRamp.LinearRamp(1.0, 0.0);
    LinearRamp.RampAt(ramp, |s|, 0);
    LinearRamp.RampAt(ramp, |s|, |s| - 1);
    assert 1.0 + (0.0 - 1.0) * (n - 1.0) / n == 1.0 / n;
  }
}
