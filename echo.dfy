/**
  The Echo modifier of the synth sub-package
  (src/dewa/synth/modifier/echo.py): its wave is a single delayed copy of
  the block, scaled by the decay factor. There is no feedback: the copy is
  taken from the block's own samples, not from earlier echoes.
*/
module Echo {
  import opened Results
  import opened Samples
  import SynthBlock

  datatype Echo = Echo(delay: nat, decay: real)

  /** Echo(delay, decay): ValueError unless 0 <= decay <= 1; both ends are accepted. */
  function New(delay: nat, decay: real): (r: Result<Echo>)
    ensures r.Ok? <==> 0.0 <= decay <= 1.0
    ensures r.Ok? ==> r.value.delay == delay && r.value.decay == decay
  {
    if !(0.0 <= decay <= 1.0) then Err(ValueError("Decay must be between 0 and 1."))
    else Ok(Echo(delay, decay))
  }

  /**
    The echo wave as a reference definition: `delay` zeros followed by the
    input scaled by `decay`, cut to the input's length.
  */
  function DelayedCopy(s: seq<real>, delay: nat, decay: real): (r: seq<real>)
    ensures |r| == |s|
  {
    if delay >= |s| then Zeros(|s|) else Zeros(delay) + WithScalar(Times, s[..|s| - delay], decay)
  }

  /** Sample i of the echo wave is zero before the delay and the decayed input sample i - delay after it. */
  lemma DelayedCopyAt(s: seq<real>, delay: nat, decay: real, i: nat)
    requires i < |s|
    ensures DelayedCopy(s, delay, decay)[i] == if i < delay then 0.0 else s[i - delay] * decay
  {
    if delay < |s| && i >= delay {
      assert DelayedCopy(s, delay, decay)[i] == WithScalar(Times, s[..|s| - delay], decay)[i - delay];
    }
  }

  /** A delay that reaches the end of the block, or a zero decay, gives silence. */
  lemma DelayedCopySilent(s: seq<real>, delay: nat, decay: real)
    requires delay >= |s| || decay == 0.0
    ensures DelayedCopy(s, delay, decay) == Zeros(|s|)
  {
    forall i | 0 <= i < |s|
      ensures DelayedCopy(s, delay, decay)[i] == 0.0
    {
      DelayedCopyAt(s, delay, decay, i);
    }
  }

  /** With no delay the echo is the block scaled by the decay factor. */
  lemma DelayedCopyNoDelay(s: seq<real>, decay: real)
    ensures DelayedCopy(s, 0, decay) == WithScalar(Times, s, decay)
  {
    if |s| > 0 {
      assert s[..|s|] == s;
    }
  }

  /**
    _generate_wave: a zero array shaped like the block's samples, then
    echo[i] = samples[i - delay] * decay for every i from delay up to the
    duration. The block is only read.
  */
  method GenerateWave(e: Echo, block: SynthBlock.Block) returns (wave: seq<real>)
    requires block.Valid()
    ensures |wave| == block.samples.Length
    ensures forall i :: 0 <= i < |wave| ==>
      wave[i] == if i < e.delay then 0.0 else block.samples[i - e.delay] * e.decay
    ensures wave == DelayedCopy(block.samples[..], e.delay, e.decay)
  {
    var echo := new real[block.samples.Length](_ => 0.0);
    if e.delay < block.duration {
      for i := e.delay to block.duration
        invariant forall k :: 0 <= k < echo.Length ==>
          echo[k] == if e.delay <= k < i then block.samples[k - e.delay] * e.decay else 0.0
      {
        echo[i] := block.samples[i - e.delay] * e.decay;
      }
    }
    wave := echo[..];
    forall k | 0 <= k < |wave|
      ensures wave[k] == DelayedCopy(block.samples[..], e.delay, e.decay)[k]
    {
      DelayedCopyAt(block.samples[..], e.delay, e.decay, k);
    }
  }
}
