/**
  The audio Block of the dewa package (src/dewa/block.py): a duration and a
  numpy array of that many samples. Arithmetic, negation, reversal and
  repetition build new blocks; mount overlays another block in place and
  may grow the receiver.
*/
module Block {
  import opened Results
  import opened Samples
  import opened Mounting

  /** The operands of Block + x and Block * x other than a Modifier: a Python number or a numpy array. */
  datatype Operand = Scalar(value: real) | Array(values: seq<real>)

  /**
    The samples of `s op x`, or None when numpy cannot broadcast the two
    arrays together.
  */
  function Combined(op: Op, s: seq<real>, x: Operand): (r: Option<seq<real>>)
    ensures x.Scalar? ==> r.Some?
    ensures x.Array? ==> (r.Some? <==> |x.values| == |s| || |x.values| == 1 || |s| == 1)
  {
    match x
    case Scalar(c) => Some(WithScalar(op, s, c))
    case Array(a) => Broadcast(op, s, a)
  }

  /** Adding or multiplying by a number keeps the length and acts on every sample. */
  lemma CombinedScalar(op: Op, s: seq<real>, c: real)
    ensures Combined(op, s, Scalar(c)).Some?
    ensures |Combined(op, s, Scalar(c)).value| == |s|
    ensures forall i :: 0 <= i < |s| ==>
      Combined(op, s, Scalar(c)).value[i] == (if op == Plus then s[i] + c else s[i] * c)
  {
  }

  /**
    A broadcast result keeps the receiver's length exactly when the receiver
    does not have a single sample stretched over a longer or empty array.
  */
  lemma CombinedArrayLength(op: Op, s: seq<real>, a: seq<real>)
    requires Combined(op, s, Array(a)).Some?
    ensures |Combined(op, s, Array(a)).value| == |s| <==> !(|s| == 1 && |a| != 1)
  {
  }

  class Block {
    var duration: nat
    var samples: array<real>

    /** The duration always counts the samples. */
    ghost predicate Valid()
      reads this
    {
      samples.Length == duration
    }

    /** Block(duration): `duration` zero samples; Block(None) is empty. */
    constructor (duration: Option<nat>)
      ensures Valid() && fresh(samples)
      ensures this.duration == (if duration.Some? then duration.value else 0)
      ensures samples[..] == Zeros(this.duration)
    {
      var d := if duration.Some? then duration.value else 0;
      this.duration := d;
      samples := new real[d](_ => 0.0);
    }

    /** A new block of duration `d` whose samples are `s`, as the operators build their results. */
    static method Make(d: nat, s: seq<real>) returns (b: Block)
      ensures fresh(b) && fresh(b.samples)
      ensures b.duration == d && b.samples[..] == s
    {
      b := new Block(Some(d));
      b.samples := ToArray(s);
    }

    method Arith(op: Op, other: Operand) returns (r: Result<Block>)
      ensures r.Ok? <==> Combined(op, samples[..], other).Some?
      ensures r.Ok? ==> fresh(r.value) && fresh(r.value.samples)
      ensures r.Ok? ==> r.value.duration == duration
      ensures r.Ok? ==> r.value.samples[..] == Combined(op, samples[..], other).value
      ensures r.Ok? && Valid() ==>
        (r.value.Valid() <==> other.Scalar? || duration != 1 || |other.values| == 1)
    {
      var c := Combined(op, samples[..], other);
      if c.None? {
        return Err(ValueError("operands could not be broadcast together"));
      }
      var b := Make(duration, c.value);
      r := Ok(b);
    }

    /** self + other: a new block of the same duration; the receiver is not changed. */
    method Add(other: Operand) returns (r: Result<Block>)
      ensures r.Ok? <==> Combined(Plus, samples[..], other).Some?
      ensures r.Ok? ==> fresh(r.value) && fresh(r.value.samples)
      ensures r.Ok? ==> r.value.duration == duration
      ensures r.Ok? ==> r.value.samples[..] == Combined(Plus, samples[..], other).value
      ensures r.Ok? && Valid() ==>
        (r.value.Valid() <==> other.Scalar? || duration != 1 || |other.values| == 1)
    {
      r := Arith(Plus, other);
    }

    /** self * other: a new block of the same duration; the receiver is not changed. */
    method Multiply(other: Operand) returns (r: Result<Block>)
      ensures r.Ok? <==> Combined(Times, samples[..], other).Some?
      ensures r.Ok? ==> fresh(r.value) && fresh(r.value.samples)
      ensures r.Ok? ==> r.value.duration == duration
      ensures r.Ok? ==> r.value.samples[..] == Combined(Times, samples[..], other).value
      ensures r.Ok? && Valid() ==>
        (r.value.Valid() <==> other.Scalar? || duration != 1 || |other.values| == 1)
    {
      r := Arith(Times, other);
    }

    /** -self: a new block with every sample negated. */
    method Negate() returns (r: Block)
      ensures fresh(r) && fresh(r.samples) && (r.Valid() <==> Valid())
      ensures r.duration == duration && r.samples[..] == Negated(samples[..])
    {
      r := Make(duration, Negated(samples[..]));
    }

    /** other + self for a number `other`: a new block. */
    method RightAdd(other: real) returns (r: Block)
      ensures fresh(r) && fresh(r.samples) && (r.Valid() <==> Valid())
      ensures r.duration == duration && r.samples[..] == ScalarWith(Plus, other, samples[..])
    {
      r := Make(duration, ScalarWith(Plus, other, samples[..]));
    }

    /** A new block with the samples in reverse order. */
    method Reverse() returns (r: Block)
      ensures fresh(r) && fresh(r.samples) && (r.Valid() <==> Valid())
      ensures r.duration == duration && r.samples[..] == Reversed(samples[..])
    {
      r := Make(duration, Reversed(samples[..]));
    }

    /** A new block holding `times` copies of the samples; ValueError unless times is positive. */
    method Repeat(times: int) returns (r: Result<Block>)
      ensures r.Err? <==> times <= 0
      ensures r.Ok? ==> fresh(r.value) && fresh(r.value.samples) && (r.value.Valid() <==> Valid())
      ensures r.Ok? ==> r.value.duration == duration * times
      ensures r.Ok? ==> r.value.samples[..] == Tile(samples[..], times)
    {
      if times <= 0 {
        return Err(ValueError("Times must be a positive integer."));
      }
      var b := Make(duration * times, Tile(samples[..], times));
      r := Ok(b);
    }

    /**
      mount(other, mountPoint): grow the receiver with np.resize when the
      other block reaches past its end, then add the other block's samples
      into the window at mountPoint; returns the receiver itself.
    */
    method Mount(other: Block, mountPoint: nat) returns (r: Block)
      requires Valid() && other.Valid()
      requires other.samples != samples
      modifies this, samples
      ensures r == this && Valid()
      ensures duration == Max(old(duration), mountPoint + other.duration)
      ensures samples[..] == Mounted(old(samples[..]), other.samples[..], mountPoint)
      ensures other.samples[..] == old(other.samples[..])
    {
      assert other != this;
      ghost var mounted := other.samples[..];
      var required := mountPoint + other.duration;
      if duration < required {
        if required > duration {
          samples := Grow(samples, required);
          duration := required;
        }
      }
      assert samples[..] == Grown(old(samples[..]), required);
      OverlayInPlace(samples, other.samples[..], mountPoint);
      assert other.samples[..] == mounted;
      r := this;
    }
  }
}
