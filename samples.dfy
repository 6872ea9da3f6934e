/**
  The numpy array operations the engine is built from, on one-dimensional
  arrays of samples: np.zeros, np.tile, np.resize, np.flip, element-wise
  arithmetic with broadcasting, and np.linspace with endpoint=False.
  Samples are real numbers; float32 rounding is not modelled.
*/
module Samples {
  import opened Results

  function Min(a: int, b: int): int {
    if a < b then a else b
  }

  function Max(a: int, b: int): int {
    if a < b then b else a
  }

  /** np.zeros(n). */
  function Zeros(n: nat): (r: seq<real>)
    ensures |r| == n
    ensures forall i :: 0 <= i < n ==> r[i] == 0.0
  {
    seq(n, _ => 0.0)
  }

  /** np.tile(s, times): `times` copies of `s`, one after another. */
  function Tile(s: seq<real>, times: nat): (r: seq<real>)
    ensures |r| == |s| * times
  {
    if times == 0 then [] else s + Tile(s, times - 1)
  }

  /** Sample j of copy q of a tiling is sample j of `s`. */
  lemma {:induction false} TileCopyAt(s: seq<real>, times: nat, q: nat, j: nat)
    requires q < times && j < |s|
    ensures q * |s| + j < |s| * times
    ensures Tile(s, times)[q * |s| + j] == s[j]
  {
    assert |s| * times == |s| + |s| * (times - 1);
    if q > 0 {
      assert q * |s| + j - |s| == (q - 1) * |s| + j;
      TileCopyAt(s, times - 1, q - 1, j);
    }
  }

  /** Sample k of a tiling is sample k mod |s| of the tiled array. */
  lemma TileAt(s: seq<real>, times: nat, k: int)
    requires 0 <= k < |s| * times
    ensures |s| > 0
    ensures Tile(s, times)[k] == s[k % |s|]
  {
    var m := |s|;
    var q, j := k / m, k % m;
    assert k == q * m + j;
    assert q < times;
    TileCopyAt(s, times, q, j);
  }

  /** Every block of |s| samples of a tiling equals `s`. */
  lemma TileBlock(s: seq<real>, times: nat, b: nat)
    requires b < times
    ensures b * |s| + |s| <= |s| * times
    ensures Tile(s, times)[b * |s| .. b * |s| + |s|] == s
  {
    var lo := b * |s|;
    assert lo + |s| == (b + 1) * |s|;
    assert (b + 1) * |s| <= times * |s|;
    var block := Tile(s, times)[lo .. lo + |s|];
    forall j | 0 <= j < |s|
      ensures block[j] == s[j]
    {
      TileCopyAt(s, times, b, j);
    }
  }

  /** The number of copies np.resize concatenates: the ceiling of n / m, written as numpy writes it. */
  function CeilDiv(n: nat, m: nat): (q: nat)
    requires m > 0
    ensures m * q >= n
    ensures m * (q - 1) < n || n == 0
  {
    var negN: int := -(n as int);
    var f := negN / m;
    assert negN == f * m + negN % m;
    -f
  }

  /**
    np.resize(s, n): an array of length n that repeats `s` cyclically and is
    cut at n; all zeros when `s` is empty.
  */
  function Resize(s: seq<real>, n: nat): (r: seq<real>)
    ensures |r| == n
  {
    if |s| == 0 || n == 0 then Zeros(n) else Tile(s, CeilDiv(n, |s|))[..n]
  }

  /** Sample k of a resize is sample k mod |s| of the source, or zero when the source is empty. */
  lemma ResizeAt(s: seq<real>, n: nat, k: int)
    requires 0 <= k < n
    ensures Resize(s, n)[k] == if |s| == 0 then 0.0 else s[k % |s|]
  {
    if |s| > 0 {
      TileAt(s, CeilDiv(n, |s|), k);
    }
  }

  /** Growing keeps the existing samples in front. */
  lemma ResizePrefix(s: seq<real>, n: nat, k: nat)
    requires k < |s| && k < n
    ensures Resize(s, n)[k] == s[k]
  {
    ResizeAt(s, n, k);
    ModBelow(k, |s|);
  }

  lemma ModBelow(k: nat, m: nat)
    requires k < m
    ensures k % m == k
  {
  }

  /** Resizing to the array's own length gives the array back. */
  lemma ResizeSameLength(s: seq<real>)
    ensures Resize(s, |s|) == s
  {
    forall k | 0 <= k < |s|
      ensures Resize(s, |s|)[k] == s[k]
    {
      ResizeAt(s, |s|, k);
    }
  }

  /** -s */
  function Negated(s: seq<real>): (r: seq<real>)
    ensures |r| == |s|
  {
    seq(|s|, i requires 0 <= i < |s| => -s[i])
  }

  /** Negating twice gives back the original samples. */
  lemma NegatedTwice(s: seq<real>)
    ensures Negated(Negated(s)) == s
  {
  }

  /** np.flip(s) */
  function Reversed(s: seq<real>): (r: seq<real>)
    ensures |r| == |s|
  {
    seq(|s|, i requires 0 <= i < |s| => s[|s| - 1 - i])
  }

  /** Flipping twice gives back the original samples. */
  lemma ReversedTwice(s: seq<real>)
    ensures Reversed(Reversed(s)) == s
  {
  }

  /** The two element-wise operators of the algebra. */
  datatype Op = Plus | Times

  function Apply(op: Op, x: real, y: real): real {
    match op
    case Plus => x + y
    case Times => x * y
  }

  /** s op c for a scalar c. */
  function WithScalar(op: Op, s: seq<real>, c: real): (r: seq<real>)
    ensures |r| == |s|
  {
    seq(|s|, i requires 0 <= i < |s| => Apply(op, s[i], c))
  }

  /** c op s for a scalar c. */
  function ScalarWith(op: Op, c: real, s: seq<real>): (r: seq<real>)
    ensures |r| == |s|
  {
    seq(|s|, i requires 0 <= i < |s| => Apply(op, c, s[i]))
  }

  /** s op t on arrays of equal length. */
  function Pointwise(op: Op, s: seq<real>, t: seq<real>): (r: seq<real>)
    requires |s| == |t|
    ensures |r| == |s|
  {
    seq(|s|, i requires 0 <= i < |s| => Apply(op, s[i], t[i]))
  }

  /**
    s op a under numpy's broadcasting rule for two one-dimensional arrays:
    equal lengths combine element by element, an array of length one acts
    as a scalar, any other pair raises ValueError.
  */
  function Broadcast(op: Op, s: seq<real>, a: seq<real>): (r: Option<seq<real>>)
    ensures r.Some? <==> |s| == |a| || |a| == 1 || |s| == 1
    ensures r.Some? ==> |r.value| == (if |a| == 1 then |s| else |a|)
  {
    if |s| == |a| then Some(Pointwise(op, s, a))
    else if |a| == 1 then Some(WithScalar(op, s, a[0]))
    else if |s| == 1 then Some(ScalarWith(op, s[0], a))
    else None
  }

  /**
    s op= a in place: the output keeps the shape of `s`, so `a` must have
    the same length or length one.
  */
  function InPlace(op: Op, s: seq<real>, a: seq<real>): (r: Option<seq<real>>)
    ensures r.Some? <==> |a| == |s| || |a| == 1
    ensures r.Some? ==> |r.value| == |s|
    ensures r.Some? ==> forall i :: 0 <= i < |s| ==>
      r.value[i] == Apply(op, s[i], if |a| == |s| then a[i] else a[0])
  {
    if |a| == |s| then Some(Pointwise(op, s, a))
    else if |a| == 1 then Some(WithScalar(op, s, a[0]))
    else None
  }

  /**
    np.linspace(start, stop, num, endpoint=False): `num` evenly spaced values
    from `start`, with step (stop - start) / num, so `stop` itself is left out.
  */
  function LinSpace(start: real, stop: real, num: nat): (r: seq<real>)
    ensures |r| == num
  {
    seq(num, i requires 0 <= i < num => (i as real) * ((stop - start) / (num as real)) + start)
  }

  /** Consecutive values of a linspace differ by the same step (stop - start) / num. */
  lemma LinSpaceStep(start: real, stop: real, num: nat, i: nat)
    requires i + 1 < num
    ensures LinSpace(start, stop, num)[i + 1] - LinSpace(start, stop, num)[i] == (stop - start) / (num as real)
  {
  }

  /** Value i of a linspace is start + (stop - start) * i / num. */
  lemma LinSpaceAt(start: real, stop: real, num: nat, i: nat)
    requires i < num
    ensures LinSpace(start, stop, num)[i] == start + (stop - start) * (i as real) / (num as real)
  {
  }

  /** A fresh numpy array holding the given samples. */
  method ToArray(s: seq<real>) returns (a: array<real>)
    ensures fresh(a) && a[..] == s
  {
    a := new real[|s|](i requires 0 <= i < |s| => s[i]);
  }

  /** buf op= w on a numpy array of the same length, one sample at a time. */
  method PointwiseInPlace(op: Op, buf: array<real>, w: seq<real>)
    requires buf.Length == |w|
    modifies buf
    ensures buf[..] == Pointwise(op, old(buf[..]), w)
  {
    var i := 0;
    while i < buf.Length
      invariant 0 <= i <= buf.Length
      invariant forall k :: 0 <= k < buf.Length ==>
        buf[k] == if k < i then Apply(op, old(buf[k]), w[k]) else old(buf[k])
    {
      buf[i] := Apply(op, buf[i], w[i]);
      i := i + 1;
    }
  }
}
