/**
  The Block of the synth sub-package (src/dewa/synth/block.py): like the
  package Block, but it carries a sample rate and remembers whether it was
  created without a duration ("dynamic"). Its + and * hand the block to a
  Modifier, which changes it in place; they are modelled in SynthModifier.
*/
module SynthBlock {
  import opened Results
  import opened Samples
  import opened Mounting

  class Block {
    var sampleRate: int
    var dynamicDuration: bool
    var duration: nat
    var samples: array<real>

    /** The duration always counts the samples. */
    ghost predicate Valid()
      reads this
    {
      samples.Length == duration
    }

    /**
      Block(duration, sample_rate): a block created without a duration is
      dynamic and starts empty; otherwise it holds `duration` zero samples.
    */
    constructor (duration: Option<nat>, sampleRate: int := 44100)
      ensures Valid() && fresh(samples)
      ensures this.sampleRate == sampleRate
      ensures dynamicDuration <==> duration.None?
      ensures this.duration == (if duration.Some? then duration.value else 0)
      ensures samples[..] == Zeros(this.duration)
    {
      this.sampleRate := sampleRate;
      dynamicDuration := duration.None?;
      var d := if duration.Some? then duration.value else 0;
      this.duration := d;
      samples := new real[d](_ => 0.0);
    }

    /** A new block Block(d, rate) whose samples are then replaced by `s`; it is never dynamic. */
    static method Make(d: nat, rate: int, s: seq<real>) returns (b: Block)
      ensures fresh(b) && fresh(b.samples)
      ensures b.duration == d && b.sampleRate == rate && !b.dynamicDuration
      ensures b.samples[..] == s
    {
      b := new Block(Some(d), rate);
      b.samples := ToArray(s);
    }

    /** -self: a new block with every sample negated, the same duration and sample rate. */
    method Negate() returns (r: Block)
      requires Valid()
      ensures fresh(r) && fresh(r.samples) && r.Valid()
      ensures r.duration == duration && r.sampleRate == sampleRate && !r.dynamicDuration
      ensures r.samples[..] == Negated(samples[..])
    {
      r := Make(duration, sampleRate, Negated(samples[..]));
    }

    /** other + self for a number `other`: a new block with the same duration and sample rate. */
    method RightAdd(other: real) returns (r: Block)
      requires Valid()
      ensures fresh(r) && fresh(r.samples) && r.Valid()
      ensures r.duration == duration && r.sampleRate == sampleRate && !r.dynamicDuration
      ensures r.samples[..] == ScalarWith(Plus, other, samples[..])
    {
      r := Make(duration, sampleRate, ScalarWith(Plus, other, samples[..]));
    }

    /** A new block with the samples in reverse order. */
    method Reverse() returns (r: Block)
      requires Valid()
      ensures fresh(r) && fresh(r.samples) && r.Valid()
      ensures r.duration == duration && r.sampleRate == sampleRate && !r.dynamicDuration
      ensures r.samples[..] == Reversed(samples[..])
    {
      r := Make(duration, sampleRate, Reversed(samples[..]));
    }

    /** A new block holding `times` copies of the samples; ValueError unless times is positive. */
    method Repeat(times: int) returns (r: Result<Block>)
      requires Valid()
      ensures r.Err? <==> times <= 0
      ensures r.Ok? ==> fresh(r.value) && fresh(r.value.samples) && r.value.Valid()
      ensures r.Ok? ==> r.value.duration == duration * times && r.value.sampleRate == sampleRate && !r.value.dynamicDuration
      ensures r.Ok? ==> r.value.samples[..] == Tile(samples[..], times)
    {
      if times <= 0 {
        return Err(ValueError("Times must be a positive integer."));
      }
      var b := Make(duration * times, sampleRate, Tile(samples[..], times));
      r := Ok(b);
    }

    /**
      mount(other, mountPoint): grow the receiver with np.resize when the
      other block reaches past its end (a dynamic block grows by the same
      rule), then add the other block's samples into the window at
      mountPoint; returns the receiver itself.
    */
    method Mount(other: Block, mountPoint: nat) returns (r: Block)
      requires Valid() && other.Valid()
      requires other.samples != samples
      modifies this, samples
      ensures r == this && Valid()
      ensures sampleRate == old(sampleRate) && dynamicDuration == old(dynamicDuration)
      ensures duration == Max(old(duration), mountPoint + other.duration)
      ensures samples[..] == Mounted(old(samples[..]), other.samples[..], mountPoint)
      ensures other.samples[..] == old(other.samples[..])
    {
      assert other != this;
      ghost var mounted := other.samples[..];
      var required := mountPoint + other.duration;
      if dynamicDuration || duration < required {
        if required > duration {
          samples := Grow(samples, required);
          duration := required;
        }
      }
      assert samples[..] == Grown(old(samples[..]), required);
      OverlayInPlace(samples, other.samples[..], mountPoint);
      assert other.samples[..] == mounted;
      r := this;
    }
  }
}
