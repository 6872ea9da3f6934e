/**
  The sample arithmetic of Block.mount, shared by both Block classes: when
  the mounted block reaches past the end of the receiver, the receiver's
  samples are grown with np.resize; then the mounted samples are added into
  the window that starts at the mount point.
*/
module Mounting {
  import opened Samples

  /** s[p : p + |o|] += o, for a window that lies inside `s`. */
  function Overlay(s: seq<real>, o: seq<real>, p: nat): (r: seq<real>)
    requires p + |o| <= |s|
    ensures |r| == |s|
  {
    seq(|s|, i requires 0 <= i < |s| => if p <= i < p + |o| then s[i] + o[i - p] else s[i])
  }

  /** The receiver's samples before the overlay: np.resize(s, required) when `required` is past the end. */
  function Grown(s: seq<real>, required: nat): (r: seq<real>)
    ensures |r| == Max(|s|, required)
  {
    if |s| < required then Resize(s, required) else s
  }

  /** np.resize(buf, required) for a buffer that has to grow, as a new array. */
  method Grow(buf: array<real>, required: nat) returns (r: array<real>)
    requires buf.Length < required
    ensures fresh(r) && r.Length == required
    ensures r[..] == Grown(buf[..], required)
  {
    r := ToArray(Resize(buf[..], required));
  }

  /** The receiver's samples after mount(o, p), as the code computes them. */
  function Mounted(s: seq<real>, o: seq<real>, p: nat): (r: seq<real>)
    ensures |r| == Max(|s|, p + |o|)
  {
    Overlay(Grown(s, p + |o|), o, p)
  }

  /** Past the old end, the grown samples are cyclic copies of the old ones (zeros when there were none). */
  lemma GrownAt(s: seq<real>, required: nat, k: nat)
    requires k < Max(|s|, required)
    ensures Grown(s, required)[k] == if k < |s| then s[k] else if |s| == 0 then 0.0 else s[k % |s|]
  {
    if |s| < required {
      if k < |s| {
        ResizePrefix(s, required, k);
      } else {
        ResizeAt(s, required, k);
      }
    }
  }

  /**
    Every sample after a mount: an old sample, or past the old end a cyclic
    copy of the old samples (zero only when there were none), plus the
    mounted sample where the window covers it.
  */
  lemma MountedAt(s: seq<real>, o: seq<real>, p: nat, k: nat)
    requires k < Max(|s|, p + |o|)
    ensures Mounted(s, o, p)[k] ==
      (if k < |s| then s[k] else if |s| == 0 then 0.0 else s[k % |s|])
      + (if p <= k < p + |o| then o[k - p] else 0.0)
  {
    var g := Grown(s, p + |o|);
    GrownAt(s, p + |o|, k);
    assert Mounted(s, o, p)[k] == g[k] + (if p <= k < p + |o| then o[k - p] else 0.0);
  }

  /** A mount that fits inside the receiver keeps its length and only adds into the window. */
  lemma MountedWithin(s: seq<real>, o: seq<real>, p: nat)
    requires p + |o| <= |s|
    ensures Mounted(s, o, p) == Overlay(s, o, p)
  {
  }

  /**
    As written, mounting at the end of a non-empty block does not append:
    the grown tail holds a copy of the first samples, and the mounted
    samples are added to that copy.
  */
  lemma MountAtEndAddsToCopy()
    ensures Mounted([1.0, 2.0], [5.0], 2) == [1.0, 2.0, 6.0]
    ensures Mounted([1.0, 2.0], [5.0], 2) != [1.0, 2.0] + [5.0]
  {
    var r := Mounted([1.0, 2.0], [5.0], 2);
    MountedAt([1.0, 2.0], [5.0], 2, 2);
    assert r[2] == 6.0;
  }

  /** The evidently intended mount: grow by zero-padding, then add into the window. */
  function MountedZeroPadded(s: seq<real>, o: seq<real>, p: nat): (r: seq<real>)
    ensures |r| == Max(|s|, p + |o|)
  {
    Overlay(s + Zeros(Max(|s|, p + |o|) - |s|), o, p)
  }

  /**
    With zero-padding, every new sample outside the window is zero, and a
    mount at the end of the receiver appends the mounted samples.
  */
  lemma MountedZeroPaddedAt(s: seq<real>, o: seq<real>, p: nat, k: nat)
    requires k < Max(|s|, p + |o|)
    ensures MountedZeroPadded(s, o, p)[k] ==
      (if k < |s| then s[k] else 0.0) + (if p <= k < p + |o| then o[k - p] else 0.0)
  {
  }

  /** With zero-padding, mounting at the end concatenates. */
  lemma MountedZeroPaddedAtEnd(s: seq<real>, o: seq<real>)
    ensures MountedZeroPadded(s, o, |s|) == s + o
  {
    var r := MountedZeroPadded(s, o, |s|);
    forall k | 0 <= k < |r|
      ensures r[k] == (s + o)[k]
    {
      MountedZeroPaddedAt(s, o, |s|, k);
    }
  }

  /** The code and the intended mount agree unless the receiver is non-empty and grows. */
  lemma MountedAgreesWhenNoCopies(s: seq<real>, o: seq<real>, p: nat)
    requires p + |o| <= |s| || |s| == 0
    ensures Mounted(s, o, p) == MountedZeroPadded(s, o, p)
  {
    var r := Mounted(s, o, p);
    forall k | 0 <= k < |r|
      ensures r[k] == MountedZeroPadded(s, o, p)[k]
    {
      MountedAt(s, o, p, k);
      MountedZeroPaddedAt(s, o, p, k);
    }
  }

  /** buf[p : p + |o|] += o on a numpy array, one sample at a time. */
  method OverlayInPlace(buf: array<real>, o: seq<real>, p: nat)
    requires p + |o| <= buf.Length
    modifies buf
    ensures buf[..] == Overlay(old(buf[..]), o, p)
  {
    var i := 0;
    while i < |o|
      invariant 0 <= i <= |o|
      invariant forall k :: 0 <= k < buf.Length ==>
        buf[k] == if p <= k < p + i then old(buf[k]) + o[k - p] else old(buf[k])
    {
      buf[p + i] := buf[p + i] + o[i];
      i := i + 1;
    }
  }
}
