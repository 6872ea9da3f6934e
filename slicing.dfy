/**
  Python slices of numpy arrays and the window arithmetic of the positional
  addition of two Dewa buffers (src/synth/base.py, dewa/synth/base.py).
  The code allocates a zero buffer over the union window of the two
  operands and then runs `added[pos:dur] += samples` for each operand.
*/
module Slicing {
  import opened Results
  import opened Samples

  /** A slice bound as Python normalises it: a negative bound counts from the end, then it is clamped to [0, len]. */
  function Clamp(i: int, len: nat): (c: nat)
    ensures c <= len
    ensures 0 <= i <= len ==> c == i
  {
    if i < 0 then (if i + len < 0 then 0 else i + len)
    else if i > len then len
    else i
  }

  /** The index range [lo, hi) that buf[start:stop] selects in an array of length `len`. */
  function SliceRange(start: int, stop: int, len: nat): (r: (nat, nat))
    ensures r.0 <= r.1 <= len
    ensures 0 <= start <= stop <= len ==> r == (start, stop)
  {
    var lo := Clamp(start, len);
    var hi := Clamp(stop, len);
    (lo, if hi < lo then lo else hi)
  }

  /** buf[start:stop] */
  function GetSlice(buf: seq<real>, start: int, stop: int): (r: seq<real>)
    ensures |r| == SliceRange(start, stop, |buf|).1 - SliceRange(start, stop, |buf|).0
  {
    var range := SliceRange(start, stop, |buf|);
    buf[range.0..range.1]
  }

  /**
    buf[start:stop] = value: the value must have the slice's length, or
    length one, in which case it fills the slice; otherwise ValueError.
  */
  function SetSlice(buf: seq<real>, start: int, stop: int, value: seq<real>): (r: Result<seq<real>>)
    ensures var range := SliceRange(start, stop, |buf|);
      r.Ok? <==> |value| == range.1 - range.0 || |value| == 1
    ensures r.Ok? ==> |r.value| == |buf|
  {
    var range := SliceRange(start, stop, |buf|);
    var lo, hi := range.0, range.1;
    if |value| == hi - lo || |value| == 1 then
      Ok(seq(|buf|, k requires 0 <= k < |buf| =>
        if lo <= k < hi then (if |value| == hi - lo then value[k - lo] else value[0]) else buf[k]))
    else Err(ValueError("could not broadcast input array into the slice"))
  }

  /** After a slice assignment the slice holds the value (or its single sample) and nothing else changed. */
  lemma SetSliceAt(buf: seq<real>, start: int, stop: int, value: seq<real>, i: nat)
    requires SetSlice(buf, start, stop, value).Ok? && i < |buf|
    ensures var range := SliceRange(start, stop, |buf|);
      SetSlice(buf, start, stop, value).value[i] ==
        if range.0 <= i < range.1 then (if |value| == range.1 - range.0 then value[i - range.0] else value[0])
        else buf[i]
  {
  }

  /**
    buf[start:stop] += v as Python runs it: read the slice, add v into it in
    place (v must have the slice's length or length one), and store the
    sum back into the slice.
  */
  function SliceAdd(buf: seq<real>, start: int, stop: int, v: seq<real>): (r: Result<seq<real>>)
    ensures var range := SliceRange(start, stop, |buf|);
      r.Ok? <==> |v| == range.1 - range.0 || |v| == 1
    ensures r.Ok? ==> |r.value| == |buf|
  {
    var sum := InPlace(Plus, GetSlice(buf, start, stop), v);
    if sum.None? then Err(ValueError("non-broadcastable output operand"))
    else SetSlice(buf, start, stop, sum.value)
  }

  /** After buf[start:stop] += v, every sample of the slice gained its part of v and nothing else changed. */
  lemma SliceAddAt(buf: seq<real>, start: int, stop: int, v: seq<real>, i: nat)
    requires SliceAdd(buf, start, stop, v).Ok? && i < |buf|
    ensures var range := SliceRange(start, stop, |buf|);
      SliceAdd(buf, start, stop, v).value[i] ==
        if range.0 <= i < range.1 then buf[i] + (if |v| == range.1 - range.0 then v[i - range.0] else v[0])
        else buf[i]
  {
    var range := SliceRange(start, stop, |buf|);
    var sum := InPlace(Plus, GetSlice(buf, start, stop), v).value;
    SetSliceAt(buf, start, stop, sum, i);
  }

  /**
    buf[start:stop] = value on an array: the samples of the slice are
    overwritten one by one; on ValueError the array is left as it was.
  */
  method SetSliceInPlace(buf: array<real>, start: int, stop: int, value: seq<real>) returns (r: Result<()>)
    modifies buf
    ensures r.Ok? <==> SetSlice(old(buf[..]), start, stop, value).Ok?
    ensures r.Ok? ==> buf[..] == SetSlice(old(buf[..]), start, stop, value).value
    ensures r.Err? ==> buf[..] == old(buf[..])
  {
    var range := SliceRange(start, stop, buf.Length);
    var lo, hi := range.0, range.1;
    if |value| != hi - lo && |value| != 1 {
      return Err(ValueError("could not broadcast input array into the slice"));
    }
    var k := lo;
    while k < hi
      invariant lo <= k <= hi
      invariant forall j :: 0 <= j < buf.Length ==>
        buf[j] == if lo <= j < k then (if |value| == hi - lo then value[j - lo] else value[0]) else old(buf[j])
    {
      buf[k] := if |value| == hi - lo then value[k - lo] else value[0];
      k := k + 1;
    }
    r := Ok(());
    assert buf[..] == SetSlice(old(buf[..]), start, stop, value).value;
  }

  /**
    buf[start:stop] += v on an array: the slice is read, v is added into it
    (ValueError, with the array untouched, when v does not fit the slice),
    and the sum is stored back.
  */
  method SliceAddInPlace(buf: array<real>, start: int, stop: int, v: seq<real>) returns (r: Result<()>)
    modifies buf
    ensures r.Ok? <==> SliceAdd(old(buf[..]), start, stop, v).Ok?
    ensures r.Ok? ==> buf[..] == SliceAdd(old(buf[..]), start, stop, v).value
    ensures r.Err? ==> buf[..] == old(buf[..])
  {
    var view := GetSlice(buf[..], start, stop);
    var sum := InPlace(Plus, view, v);
    if sum.None? {
      return Err(ValueError("non-broadcastable output operand"));
    }
    r := SetSliceInPlace(buf, start, stop, sum.value);
  }

  /** The union window of two placed buffers: it starts at the earlier position and ends at the later end. */
  function Window(p1: int, d1: nat, p2: int, d2: nat): (w: (int, nat))
    ensures w.0 == Min(p1, p2) && w.0 + w.1 == Max(p1 + d1, p2 + d2)
    ensures w.0 <= p1 && p1 + d1 <= w.0 + w.1
    ensures w.0 <= p2 && p2 + d2 <= w.0 + w.1
  {
    var start := Min(p1, p2);
    (start, Max(p1 + d1, p2 + d2) - start)
  }

  /** The window is at least as long as each operand and does not depend on their order. */
  lemma WindowSymmetric(p1: int, d1: nat, p2: int, d2: nat)
    ensures Window(p1, d1, p2, d2) == Window(p2, d2, p1, d1)
    ensures Window(p1, d1, p2, d2).1 >= d1 && Window(p1, d1, p2, d2).1 >= d2
  {
  }

  /**
    The samples of the sum as the code computes them: a zero buffer as long
    as the window, then added[p1:|s1|] += s1 and added[p2:|s2|] += s2. The
    slices use each operand's own position and duration as absolute bounds.
  */
  function PositionalSum(p1: int, s1: seq<real>, p2: int, s2: seq<real>): (r: Result<seq<real>>)
    ensures r.Ok? ==> |r.value| == Window(p1, |s1|, p2, |s2|).1
  {
    var w := Window(p1, |s1|, p2, |s2|);
    match SliceAdd(Zeros(w.1), p1, |s1|, s1)
    case Err(e) => Err(e)
    case Ok(first) => SliceAdd(first, p2, |s2|, s2)
  }

  /** With both operands at position 0 the sum succeeds and adds them sample by sample. */
  lemma PositionalSumAtOrigin(s1: seq<real>, s2: seq<real>, i: nat)
    requires i < Max(|s1|, |s2|)
    ensures PositionalSum(0, s1, 0, s2).Ok?
    ensures |PositionalSum(0, s1, 0, s2).value| == Max(|s1|, |s2|)
    ensures PositionalSum(0, s1, 0, s2).value[i] ==
      (if i < |s1| then s1[i] else 0.0) + (if i < |s2| then s2[i] else 0.0)
  {
    var n := Max(|s1|, |s2|);
    var first := SliceAdd(Zeros(n), 0, |s1|, s1);
    assert first.Ok?;
    SliceAddAt(Zeros(n), 0, |s1|, s1, i);
    assert SliceAdd(first.value, 0, |s2|, s2).Ok?;
    SliceAddAt(first.value, 0, |s2|, s2, i);
  }

  /**
    As written, an operand placed after the start of the window is not
    placed: here the slice [2:4] holds two samples and cannot take four.
  */
  lemma PositionalSumRejectsOffset()
    ensures PositionalSum(2, [1.0, 1.0, 1.0, 1.0], 0, [1.0, 1.0, 1.0, 1.0]).Err?
  {
    var first := SliceAdd(Zeros(6), 2, 4, [1.0, 1.0, 1.0, 1.0]);
    assert SliceRange(2, 4, 6) == (2, 4);
    assert first.Err?;
  }

  /**
    As written, a one-sample operand at position 3 falls into the empty
    slice [3:1] and is silently dropped from the sum.
  */
  lemma PositionalSumDropsOperand()
    ensures PositionalSum(3, [5.0], 0, [1.0]) == Ok([1.0, 0.0, 0.0, 0.0])
  {
    assert Window(3, 1, 0, 1) == (0, 4);
    assert SliceRange(3, 1, 4) == (3, 3);
    assert SliceRange(0, 1, 4) == (0, 1);
    var zeros := Zeros(4);
    var first := SliceAdd(zeros, 3, 1, [5.0]);
    assert first.Ok?;
    var second := SliceAdd(first.value, 0, 1, [1.0]);
    assert second.Ok?;
    forall i | 0 <= i < 4
      ensures second.value[i] == [1.0, 0.0, 0.0, 0.0][i]
    {
      SliceAddAt(zeros, 3, 1, [5.0], i);
      SliceAddAt(first.value, 0, 1, [1.0], i);
    }
    assert second.value == [1.0, 0.0, 0.0, 0.0];
    assert PositionalSum(3, [5.0], 0, [1.0]) == second;
  }

  /**
    The evidently intended sum: each operand is added at its offset from
    the start of the window, added[p - start : p - start + d] += s.
  */
  function PlacedSum(p1: int, s1: seq<real>, p2: int, s2: seq<real>): (r: Result<seq<real>>)
    ensures r.Ok? ==> |r.value| == Window(p1, |s1|, p2, |s2|).1
  {
    var w := Window(p1, |s1|, p2, |s2|);
    AddBoth(Zeros(w.1), p1 - w.0, s1, p2 - w.0, s2)
  }

  /** Adding an operand into a slice that fits it exactly always succeeds and shifts it to the slice's start. */
  lemma SliceAddExact(buf: seq<real>, lo: nat, v: seq<real>, i: nat)
    requires lo + |v| <= |buf| && i < |buf|
    ensures SliceAdd(buf, lo, lo + |v|, v).Ok?
    ensures |SliceAdd(buf, lo, lo + |v|, v).value| == |buf|
    ensures SliceAdd(buf, lo, lo + |v|, v).value[i] == buf[i] + (if lo <= i < lo + |v| then v[i - lo] else 0.0)
  {
    assert SliceRange(lo, lo + |v|, |buf|) == (lo, lo + |v|);
    SliceAddAt(buf, lo, lo + |v|, v, i);
  }

  /** buf[lo1 : lo1 + |s1|] += s1, then buf[lo2 : lo2 + |s2|] += s2. */
  function AddBoth(buf: seq<real>, lo1: int, s1: seq<real>, lo2: int, s2: seq<real>): (r: Result<seq<real>>)
    ensures r.Ok? ==> |r.value| == |buf|
  {
    match SliceAdd(buf, lo1, lo1 + |s1|, s1)
    case Err(e) => Err(e)
    case Ok(first) => SliceAdd(first, lo2, lo2 + |s2|, s2)
  }

  /** When both operands fit inside the buffer, both additions succeed and each lands at its own offset. */
  lemma AddBothAt(buf: seq<real>, lo1: nat, s1: seq<real>, lo2: nat, s2: seq<real>, i: nat)
    requires lo1 + |s1| <= |buf| && lo2 + |s2| <= |buf| && i < |buf|
    ensures AddBoth(buf, lo1, s1, lo2, s2).Ok?
    ensures |AddBoth(buf, lo1, s1, lo2, s2).value| == |buf|
    ensures AddBoth(buf, lo1, s1, lo2, s2).value[i] == buf[i]
      + (if lo1 <= i < lo1 + |s1| then s1[i - lo1] else 0.0) + (if lo2 <= i < lo2 + |s2| then s2[i - lo2] else 0.0)
  {
    SliceAddExact(buf, lo1, s1, i);
    var first := SliceAdd(buf, lo1, lo1 + |s1|, s1).value;
    SliceAddExact(first, lo2, s2, i);
  }

  /**
    The reference meaning of mixing two placed buffers: `n` samples, each the
    sum of the samples of s1 and s2 that lie over it when s1 starts at
    offset o1 and s2 at offset o2 (zero where neither does).
  */
  function Overlaid(n: nat, o1: int, s1: seq<real>, o2: int, s2: seq<real>): (r: seq<real>)
    ensures |r| == n
  {
    seq(n, i requires 0 <= i < n =>
      (if o1 <= i < o1 + |s1| then s1[i - o1] else 0.0) + (if o2 <= i < o2 + |s2| then s2[i - o2] else 0.0))
  }

  /** Adding both operands into a zero buffer they fit in gives their overlay. */
  lemma AddBothIsOverlaid(n: nat, lo1: nat, s1: seq<real>, lo2: nat, s2: seq<real>)
    requires lo1 + |s1| <= n && lo2 + |s2| <= n
    ensures AddBoth(Zeros(n), lo1, s1, lo2, s2) == Ok(Overlaid(n, lo1, s1, lo2, s2))
  {
    var zeros := Zeros(n);
    AddBothOk(zeros, lo1, s1, lo2, s2);
    var r := AddBoth(zeros, lo1, s1, lo2, s2).value;
    var o := Overlaid(n, lo1, s1, lo2, s2);
    forall i | 0 <= i < n
      ensures r[i] == o[i]
    {
      AddBothAt(zeros, lo1, s1, lo2, s2, i);
      assert zeros[i] == 0.0;
    }
    assert r == o;
  }

  /**
    The intended sum always succeeds and is the overlay of the two operands
    over the window, each at its offset from the window's start.
  */
  lemma PlacedSumIsOverlaid(p1: int, s1: seq<real>, p2: int, s2: seq<real>)
    ensures var w := Window(p1, |s1|, p2, |s2|);
      PlacedSum(p1, s1, p2, s2) == Ok(Overlaid(w.1, p1 - w.0, s1, p2 - w.0, s2))
  {
    var w := Window(p1, |s1|, p2, |s2|);
    PlacedSumIsAddBoth(p1, s1, p2, s2);
    AddBothIsOverlaid(w.1, p1 - w.0, s1, p2 - w.0, s2);
  }

  lemma PlacedSumIsAddBoth(p1: int, s1: seq<real>, p2: int, s2: seq<real>)
    ensures var w := Window(p1, |s1|, p2, |s2|);
      PlacedSum(p1, s1, p2, s2) == AddBoth(Zeros(w.1), p1 - w.0, s1, p2 - w.0, s2)
  {
  }

  /** Overlaying is symmetric in its two operands. */
  lemma OverlaidSymmetric(n: nat, o1: int, s1: seq<real>, o2: int, s2: seq<real>)
    ensures Overlaid(n, o1, s1, o2, s2) == Overlaid(n, o2, s2, o1, s1)
  {
    var a, b := Overlaid(n, o1, s1, o2, s2), Overlaid(n, o2, s2, o1, s1);
    forall i | 0 <= i < n
      ensures a[i] == b[i]
    {
    }
  }

  /** The intended sum does not depend on the order of its operands. */
  lemma PlacedSumSymmetric(p1: int, s1: seq<real>, p2: int, s2: seq<real>)
    ensures PlacedSum(p1, s1, p2, s2).Ok?
    ensures PlacedSum(p1, s1, p2, s2) == PlacedSum(p2, s2, p1, s1)
  {
    var w := Window(p1, |s1|, p2, |s2|);
    WindowSymmetric(p1, |s1|, p2, |s2|);
    PlacedSumIsOverlaid(p1, s1, p2, s2);
    PlacedSumIsOverlaid(p2, s2, p1, s1);
    OverlaidSymmetric(w.1, p1 - w.0, s1, p2 - w.0, s2);
  }

  lemma AddBothOk(buf: seq<real>, lo1: nat, s1: seq<real>, lo2: nat, s2: seq<real>)
    requires lo1 + |s1| <= |buf| && lo2 + |s2| <= |buf|
    ensures AddBoth(buf, lo1, s1, lo2, s2).Ok? && |AddBoth(buf, lo1, s1, lo2, s2).value| == |buf|
  {
    assert SliceRange(lo1, lo1 + |s1|, |buf|) == (lo1, lo1 + |s1|);
    assert SliceRange(lo2, lo2 + |s2|, |buf|) == (lo2, lo2 + |s2|);
  }

  /** With both operands at position 0 the code computes the intended sum. */
  lemma PositionalSumIntendedAtOrigin(s1: seq<real>, s2: seq<real>)
    ensures PositionalSum(0, s1, 0, s2) == PlacedSum(0, s1, 0, s2)
  {
    var w := Window(0, |s1|, 0, |s2|);
    assert w.0 == 0;
    PlacedSumIsAddBoth(0, s1, 0, s2);
    assert PositionalSum(0, s1, 0, s2) == AddBoth(Zeros(w.1), 0, s1, 0, s2);
  }
}
