/**
  The LinearRamp modifier of the synth sub-package
  (src/dewa/synth/modifier/linear_ramp.py): a straight line from `start`
  towards `end` over the block, with `end` itself left out.
*/
module LinearRamp {
  import opened Samples

  datatype LinearRamp = LinearRamp(start: real, end: real)

  /** _generate_wave: np.linspace(start, end, duration, endpoint=False). */
  function GenerateWave(ramp: LinearRamp, duration: nat): (wave: seq<real>)
    ensures |wave| == duration
  {
    LinSpace(ramp.start, ramp.end, duration)
  }

  /** Sample i is start + (end - start) * i / duration, and the ramp starts exactly at `start`. */
  lemma RampAt(ramp: LinearRamp, duration: nat, i: nat)
    requires i < duration
    ensures GenerateWave(ramp, duration)[i] == ramp.start + (ramp.end - ramp.start) * (i as real) / (duration as real)
    ensures i == 0 ==> GenerateWave(ramp, duration)[i] == ramp.start
  {
    LinSpaceAt(ramp.start, ramp.end, duration, i);
  }

  /** Because the end point is excluded, no sample of a non-constant ramp equals `end`. */
  lemma RampNeverReachesEnd(ramp: LinearRamp, duration: nat, i: nat)
    requires i < duration && ramp.start != ramp.end
    ensures GenerateWave(ramp, duration)[i] != ramp.end
  {
    RampAt(ramp, duration, i);
    var d, f := ramp.end - ramp.start, (i as real) / (duration as real);
    Fraction(i, duration);
    MulDiv(d, i as real, duration as real);
    assert GenerateWave(ramp, duration)[i] - ramp.end == d * (f - 1.0);
  }

  /** A ramp whose two ends are equal is constant. */
  lemma RampConstant(ramp: LinearRamp, duration: nat, i: nat)
    requires i < duration && ramp.start == ramp.end
    ensures GenerateWave(ramp, duration)[i] == ramp.start
  {
  }

  /** A rising ramp rises strictly from `start` and stays below `end`. */
  lemma RampRising(ramp: LinearRamp, duration: nat, i: nat)
    requires i < duration && ramp.start < ramp.end
    ensures ramp.start <= GenerateWave(ramp, duration)[i] < ramp.end
    ensures i + 1 < duration ==> GenerateWave(ramp, duration)[i] < GenerateWave(ramp, duration)[i + 1]
  {
    RampBelowEnd(ramp, duration, i);
    if i + 1 < duration {
      RampStep(ramp, duration, i);
    }
  }

  lemma RampBelowEnd(ramp: LinearRamp, duration: nat, i: nat)
    requires i < duration && ramp.start < ramp.end
    ensures ramp.start <= GenerateWave(ramp, duration)[i] < ramp.end
  {
    RampAt(ramp, duration, i);
    var d, f := ramp.end - ramp.start, (i as real) / (duration as real);
    Fraction(i, duration);
    MulDiv(d, i as real, duration as real);
    ScaledBelow(d, f);
  }

  lemma RampStep(ramp: LinearRamp, duration: nat, i: nat)
    requires i + 1 < duration && ramp.start < ramp.end
    ensures GenerateWave(ramp, duration)[i] < GenerateWave(ramp, duration)[i + 1]
  {
    LinSpaceStep(ramp.start, ramp.end, duration, i);
    PositiveStep(ramp.end - ramp.start, duration as real);
  }

  lemma PositiveStep(d: real, n: real)
    requires d > 0.0 && n > 0.0
    ensures d / n > 0.0
  {
  }

  lemma Fraction(i: nat, n: nat)
    requires i < n
    ensures 0.0 <= (i as real) / (n as real) < 1.0
  {
  }

  lemma MulDiv(d: real, x: real, n: real)
    requires n != 0.0
    ensures d * x / n == d * (x / n)
  {
  }

  lemma ScaledBelow(d: real, f: real)
    requires d > 0.0 && 0.0 <= f < 1.0
    ensures 0.0 <= d * f < d
  {
  }
}
