/** Time units of the dewa package (src/dewa/utils/units.py), in samples. */
module Units {
  import opened Results

  /**
    units(sample_rate, bpm) = (samples per second, seconds per sample,
    samples per beat). Python raises ZeroDivisionError for a zero sample
    rate or a zero tempo.
  */
  function Units(sampleRate: int, bpm: real): (r: Result<(int, real, real)>)
    ensures r.Err? <==> sampleRate == 0 || bpm == 0.0
    ensures r.Err? ==> r.error == ZeroDivisionError
    ensures r.Ok? ==> r.value.0 == sampleRate
    ensures r.Ok? ==> (r.value.0 as real) * r.value.1 == 1.0
    ensures r.Ok? ==> r.value.2 * bpm == 60.0 * (sampleRate as real)
  {
    if sampleRate == 0 then Err(ZeroDivisionError)
    else if bpm == 0.0 then Err(ZeroDivisionError)
    else Ok((sampleRate, 1.0 / (sampleRate as real), 60.0 / bpm * (sampleRate as real)))
  }

  /** At 60 beats per minute a beat lasts exactly one second. */
  lemma BeatAtSixty(sampleRate: int)
    requires sampleRate != 0
    ensures Units(sampleRate, 60.0).value.2 == sampleRate as real
  {
  }

  /** Doubling the tempo halves the beat. */
  lemma DoubleTempoHalvesBeat(sampleRate: int, bpm: real)
    requires sampleRate != 0 && bpm != 0.0
    ensures Units(sampleRate, 2.0 * bpm).value.2 == Units(sampleRate, bpm).value.2 / 2.0
  {
    var beat := Units(sampleRate, bpm).value.2;
    var fast := Units(sampleRate, 2.0 * bpm).value.2;
    assert fast * (2.0 * bpm) == beat * bpm;
  }
}
