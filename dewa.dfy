/**
  The positioned buffer Dewa of the stand-alone synth module
  (src/synth/base.py): a duration, an optional position on the timeline,
  and that many samples. Two Dewa with positions add into a new Dewa over
  the union of their windows.
*/
module Dewa {
  import opened Results
  import opened Samples
  import opened Slicing

  class Dewa {
    var dur: nat
    var pos: Option<int>
    var samples: array<real>

    /** The duration always counts the samples; slice assignment never changes the length. */
    ghost predicate Valid()
      reads this
    {
      samples.Length == dur
    }

    /** Dewa(dur, position): `dur` zero samples at the given position, or at none. */
    constructor (dur: nat, position: Option<int>)
      ensures Valid() && fresh(samples)
      ensures this.dur == dur && pos == position
      ensures samples[..] == Zeros(dur)
    {
      this.dur := dur;
      pos := position;
      samples := new real[dur](_ => 0.0);
    }

    /** self[start:stop]: the samples from the clamped start up to the clamped stop. */
    function GetItem(start: int, stop: int): (r: seq<real>)
      reads this, samples
      ensures var range := SliceRange(start, stop, samples.Length);
        |r| == range.1 - range.0 && forall k :: 0 <= k < |r| ==> r[k] == samples[range.0 + k]
    {
      GetSlice(samples[..], start, stop)
    }

    /** self[start:stop] = value: writes the slice in place; ValueError when the value does not fit it. */
    method SetItem(start: int, stop: int, value: seq<real>) returns (r: Result<()>)
      requires Valid()
      modifies samples
      ensures Valid()
      ensures r.Ok? <==> SetSlice(old(samples[..]), start, stop, value).Ok?
      ensures r.Ok? ==> samples[..] == SetSlice(old(samples[..]), start, stop, value).value
      ensures r.Err? ==> samples[..] == old(samples[..])
    {
      r := SetSliceInPlace(samples, start, stop, value);
    }

    /** self[start:stop] += v: get the slice, add v into it, set it back. */
    method AddItem(start: int, stop: int, v: seq<real>) returns (r: Result<()>)
      requires Valid()
      modifies samples
      ensures Valid()
      ensures r.Ok? <==> SliceAdd(old(samples[..]), start, stop, v).Ok?
      ensures r.Ok? ==> samples[..] == SliceAdd(old(samples[..]), start, stop, v).value
      ensures r.Err? ==> samples[..] == old(samples[..])
    {
      r := SliceAddInPlace(samples, start, stop, v);
    }

    /**
      self + other: ValueError unless both have a position; otherwise a new
      Dewa positioned at the earlier start and as long as the union window,
      into which each operand's samples are added at [pos:dur]. Neither
      operand changes.
    */
    method Add(other: Dewa) returns (r: Result<Dewa>)
      requires Valid() && other.Valid()
      ensures r.Ok? <==>
        pos.Some? && other.pos.Some? && PositionalSum(pos.value, samples[..], other.pos.value, other.samples[..]).Ok?
      ensures pos.None? || other.pos.None? ==> r == Err(ValueError("Both Dewa instances must have a defined position."))
      ensures r.Ok? ==> fresh(r.value) && fresh(r.value.samples) && r.value.Valid()
      ensures r.Ok? ==>
        var w := Window(pos.value, dur, other.pos.value, other.dur);
        r.value.pos == Some(w.0) && r.value.dur == w.1 &&
        r.value.samples[..] == PositionalSum(pos.value, samples[..], other.pos.value, other.samples[..]).value
    {
      if pos.None? || other.pos.None? {
        return Err(ValueError("Both Dewa instances must have a defined position."));
      }
      var w := Window(pos.value, dur, other.pos.value, other.dur);
      var added := new Dewa(w.1, Some(w.0));
      var first := added.AddItem(pos.value, dur, samples[..]);
      if first.Err? {
        return Err(first.error);
      }
      var second := added.AddItem(other.pos.value, other.dur, other.samples[..]);
      if second.Err? {
        return Err(second.error);
      }
      r := Ok(added);
    }
  }
}
