/**
  The positioned buffer Dewa of the dewa package (dewa/synth/base.py). It
  differs from the stand-alone one in what it adds: another Dewa, a plain
  array, or a Modifier, and a missing position counts as position 0.
*/
module DewaPackage {
  import opened Results
  import opened Samples
  import opened Slicing

  /**
    The right-hand side of Dewa + x. A Modifier is known here only by its
    render(dur) method, which returns a wave of samples.
  */
  datatype Operand =
    | DewaOperand(dewa: Dewa)
    | ArrayOperand(values: seq<real>)
    | ModifierOperand(render: nat -> seq<real>)

  /** Position 0 stands in for a missing position. */
  function PositionOrZero(pos: Option<int>): (p: int)
    ensures pos.Some? ==> p == pos.value
    ensures pos.None? ==> p == 0
  {
    if pos.Some? then pos.value else 0
  }

  /**
    Where the right-hand operand is placed and what it holds: a Dewa at its
    own position (or 0), an array at 0, and a Modifier's rendering for
    `dur` samples at 0.
  */
  function Placement(other: Operand, dur: nat): (p: (int, seq<real>))
    reads if other.DewaOperand? then {other.dewa, other.dewa.samples} else {}
    ensures other.DewaOperand? ==> p == (PositionOrZero(other.dewa.pos), other.dewa.samples[..])
    ensures other.ArrayOperand? ==> p == (0, other.values)
    ensures other.ModifierOperand? ==> p == (0, other.render(dur))
  {
    match other
    case DewaOperand(d) => (PositionOrZero(d.pos), d.samples[..])
    case ArrayOperand(a) => (0, a)
    case ModifierOperand(render) => (0, render(dur))
  }

  class Dewa {
    var dur: nat
    var pos: Option<int>
    var samples: array<real>

    /** The duration always counts the samples; slice assignment never changes the length. */
    ghost predicate Valid()
      reads this
    {
      samples.Length == dur
    }

    /** Dewa(dur, position): `dur` zero samples at the given position, or at none. */
    constructor (dur: nat, position: Option<int>)
      ensures Valid() && fresh(samples)
      ensures this.dur == dur && pos == position
      ensures samples[..] == Zeros(dur)
    {
      this.dur := dur;
      pos := position;
      samples := new real[dur](_ => 0.0);
    }

    /** self[start:stop]: the samples from the clamped start up to the clamped stop. */
    function GetItem(start: int, stop: int): (r: seq<real>)
      reads this, samples
      ensures var range := SliceRange(start, stop, samples.Length);
        |r| == range.1 - range.0 && forall k :: 0 <= k < |r| ==> r[k] == samples[range.0 + k]
    {
      GetSlice(samples[..], start, stop)
    }

    /** self[start:stop] = value: writes the slice in place; ValueError when the value does not fit it. */
    method SetItem(start: int, stop: int, value: seq<real>) returns (r: Result<()>)
      requires Valid()
      modifies samples
      ensures Valid()
      ensures r.Ok? <==> SetSlice(old(samples[..]), start, stop, value).Ok?
      ensures r.Ok? ==> samples[..] == SetSlice(old(samples[..]), start, stop, value).value
      ensures r.Err? ==> samples[..] == old(samples[..])
    {
      r := SetSliceInPlace(samples, start, stop, value);
    }

    /** self[start:stop] += v: get the slice, add v into it, set it back. */
    method AddItem(start: int, stop: int, v: seq<real>) returns (r: Result<()>)
      requires Valid()
      modifies samples
      ensures Valid()
      ensures r.Ok? <==> SliceAdd(old(samples[..]), start, stop, v).Ok?
      ensures r.Ok? ==> samples[..] == SliceAdd(old(samples[..]), start, stop, v).value
      ensures r.Err? ==> samples[..] == old(samples[..])
    {
      r := SliceAddInPlace(samples, start, stop, v);
    }

    /**
      self + other: a new Dewa positioned at the earlier start (a missing
      position counting as 0) and as long as the union window, into which
      each operand's samples are added at [pos:dur]. A Modifier is first
      rendered for self.dur samples and the rendering is added as an array.
      Neither operand changes.
    */
    method Add(other: Operand) returns (r: Result<Dewa>)
      requires Valid()
      requires other.DewaOperand? ==> other.dewa.Valid()
      decreases if other.ModifierOperand? then 1 else 0
      ensures var p := Placement(other, dur);
        r.Ok? <==> PositionalSum(PositionOrZero(pos), samples[..], p.0, p.1).Ok?
      ensures r.Ok? ==> fresh(r.value) && fresh(r.value.samples) && r.value.Valid()
      ensures r.Ok? ==>
        var p := Placement(other, dur);
        var w := Window(PositionOrZero(pos), dur, p.0, |p.1|);
        r.value.pos == Some(w.0) && r.value.dur == w.1 &&
        r.value.samples[..] == PositionalSum(PositionOrZero(pos), samples[..], p.0, p.1).value
    {
      if other.ModifierOperand? {
        r := Add(ArrayOperand(other.render(dur)));
        return;
      }
      var p := Placement(other, dur);
      r := AddPlaced(p.0, p.1);
    }

    /**
      The Dewa and array branch of self + other, for an operand `s2` placed
      at `pos2` (its duration is its length).
    */
    method AddPlaced(pos2: int, s2: seq<real>) returns (r: Result<Dewa>)
      requires Valid()
      ensures r.Ok? <==> PositionalSum(PositionOrZero(pos), samples[..], pos2, s2).Ok?
      ensures r.Ok? ==> fresh(r.value) && fresh(r.value.samples) && r.value.Valid()
      ensures r.Ok? ==>
        var w := Window(PositionOrZero(pos), dur, pos2, |s2|);
        r.value.pos == Some(w.0) && r.value.dur == w.1 &&
        r.value.samples[..] == PositionalSum(PositionOrZero(pos), samples[..], pos2, s2).value
    {
      var pos1 := PositionOrZero(pos);
      var dur1, dur2 := dur, |s2|;
      var w := Window(pos1, dur1, pos2, dur2);
      var added := new Dewa(w.1, Some(w.0));
      var first := added.AddItem(pos1, dur1, samples[..]);
      if first.Err? {
        return Err(first.error);
      }
      var second := added.AddItem(pos2, dur2, s2);
      if second.Err? {
        return Err(second.error);
      }
      r := Ok(added);
    }
  }
}
