/**
  The cubic Bezier envelope of the dewa package
  (src/dewa/modifiers/bezier.py): four control values at t = 0, 1/3, 2/3
  and 1, evaluated in Bernstein form over the time base t[i] = i / duration.
*/
module Bezier {
  import opened Samples

  datatype Bezier = Bezier(p0: real, p1: real, p2: real, p3: real)

  /** The four cubic Bernstein weights at parameter t. */
  function Weights(t: real): (w: (real, real, real, real))
    ensures t == 0.0 ==> w == (1.0, 0.0, 0.0, 0.0)
    ensures t == 1.0 ==> w == (0.0, 0.0, 0.0, 1.0)
  {
    var u := 1.0 - t;
    (u * u * u, 3.0 * u * u * t, 3.0 * u * t * t, t * t * t)
  }

  /** B(t) = (1-t)^3 p0 + 3 (1-t)^2 t p1 + 3 (1-t) t^2 p2 + t^3 p3; the curve interpolates its end points. */
  function At(b: Bezier, t: real): (r: real)
    ensures t == 0.0 ==> r == b.p0
    ensures t == 1.0 ==> r == b.p3
  {
    Weighted(Weights(t), b)
  }

  /** The control values combined with the given weights. */
  function Weighted(w: (real, real, real, real), b: Bezier): real {
    w.0 * b.p0 + w.1 * b.p1 + w.2 * b.p2 + w.3 * b.p3
  }

  /** The weights sum to one, since they expand ((1 - t) + t)^3. */
  lemma WeightsSumToOne(t: real)
    ensures var w := Weights(t); w.0 + w.1 + w.2 + w.3 == 1.0
  {
    var u := 1.0 - t;
    assert u + t == 1.0;
    calc {
      u * u * u + 3.0 * u * u * t + 3.0 * u * t * t + t * t * t;
      (u + t) * (u + t) * (u + t);
      1.0;
    }
  }

  lemma MulNonNegative(a: real, b: real)
    requires a >= 0.0 && b >= 0.0
    ensures a * b >= 0.0
  {
  }

  /** On [0, 1] every weight is non-negative. */
  lemma WeightsNonNegative(t: real)
    requires 0.0 <= t <= 1.0
    ensures var w := Weights(t); w.0 >= 0.0 && w.1 >= 0.0 && w.2 >= 0.0 && w.3 >= 0.0
  {
    var u := 1.0 - t;
    MulNonNegative(u, u);
    MulNonNegative(t, t);
    MulNonNegative(u * u, u);
    MulNonNegative(t * t, t);
    MulNonNegative(3.0 * u * u, t);
    MulNonNegative(3.0 * u, t);
    MulNonNegative(3.0 * u * t, t);
  }

  /** A weighted sum with non-negative weights that sum to one lies between the bounds of its terms. */
  lemma ConvexCombination(w0: real, w1: real, w2: real, w3: real, x0: real, x1: real, x2: real, x3: real, lo: real, hi: real)
    requires w0 >= 0.0 && w1 >= 0.0 && w2 >= 0.0 && w3 >= 0.0 && w0 + w1 + w2 + w3 == 1.0
    requires lo <= x0 <= hi && lo <= x1 <= hi && lo <= x2 <= hi && lo <= x3 <= hi
    ensures lo <= w0 * x0 + w1 * x1 + w2 * x2 + w3 * x3 <= hi
  {
    MulNonNegative(w0, x0 - lo);
    MulNonNegative(w1, x1 - lo);
    MulNonNegative(w2, x2 - lo);
    MulNonNegative(w3, x3 - lo);
    MulNonNegative(w0, hi - x0);
    MulNonNegative(w1, hi - x1);
    MulNonNegative(w2, hi - x2);
    MulNonNegative(w3, hi - x3);
    assert (w0 + w1 + w2 + w3) * lo == lo;
    assert (w0 + w1 + w2 + w3) * hi == hi;
  }

  /** The time base np.linspace(0, 1, duration, endpoint=False): t[i] = i / duration, inside [0, 1). */
  function TimeBase(duration: nat): (t: seq<real>)
    ensures |t| == duration
    ensures forall i :: 0 <= i < duration ==> t[i] == (i as real) / (duration as real) && 0.0 <= t[i] < 1.0
  {
    var t := LinSpace(0.0, 1.0, duration);
    assert forall i :: 0 <= i < duration ==> t[i] == (i as real) / (duration as real) by {
      forall i | 0 <= i < duration
        ensures t[i] == (i as real) / (duration as real)
      {
        LinSpaceAt(0.0, 1.0, duration, i);
      }
    }
    forall i | 0 <= i < duration
      ensures 0.0 <= t[i] < 1.0
    {
      assert (i as real) < (duration as real);
    }
    t
  }

  /** _generate: the curve sampled at every point of the time base. */
  function Generate(b: Bezier, duration: nat): (curve: seq<real>)
    ensures |curve| == duration
  {
    var t := TimeBase(duration);
    seq(duration, i requires 0 <= i < duration => At(b, t[i]))
  }

  /** The curve starts exactly at p0. */
  lemma CurveStart(b: Bezier, duration: nat)
    requires duration > 0
    ensures Generate(b, duration)[0] == b.p0
  {
    assert TimeBase(duration)[0] == 0.0;
  }

  /** Four equal control values give a constant curve. */
  lemma ConstantCurve(c: real, duration: nat, i: nat)
    requires i < duration
    ensures Generate(Bezier(c, c, c, c), duration)[i] == c
  {
    var t := TimeBase(duration)[i];
    var w := Weights(t);
    WeightsSumToOne(t);
    assert At(Bezier(c, c, c, c), t) == (w.0 + w.1 + w.2 + w.3) * c;
  }

  /** Scaling the four control values by k scales every sample by k. */
  lemma CurveScales(b: Bezier, k: real, duration: nat, i: nat)
    requires i < duration
    ensures Generate(Bezier(k * b.p0, k * b.p1, k * b.p2, k * b.p3), duration)[i] == k * Generate(b, duration)[i]
  {
    var t := TimeBase(duration)[i];
    assert Generate(Bezier(k * b.p0, k * b.p1, k * b.p2, k * b.p3), duration)[i]
      == At(Bezier(k * b.p0, k * b.p1, k * b.p2, k * b.p3), t);
    assert Generate(b, duration)[i] == At(b, t);
    WeightedScales(Weights(t), b, k);
  }

  lemma WeightedScales(w: (real, real, real, real), b: Bezier, k: real)
    ensures Weighted(w, Bezier(k * b.p0, k * b.p1, k * b.p2, k * b.p3)) == k * Weighted(w, b)
  {
    assert w.0 * (k * b.p0) + w.1 * (k * b.p1) + w.2 * (k * b.p2) + w.3 * (k * b.p3)
        == k * (w.0 * b.p0 + w.1 * b.p1 + w.2 * b.p2 + w.3 * b.p3);
  }

  function Min4(a: real, b: real, c: real, d: real): real {
    var ab := if a < b then a else b;
    var cd := if c < d then c else d;
    if ab < cd then ab else cd
  }

  function Max4(a: real, b: real, c: real, d: real): real {
    var ab := if a < b then b else a;
    var cd := if c < d then d else c;
    if ab < cd then cd else ab
  }

  /** On [0, 1] the curve stays between the smallest and the largest control value. */
  lemma AtWithinControlValues(b: Bezier, t: real)
    requires 0.0 <= t <= 1.0
    ensures Min4(b.p0, b.p1, b.p2, b.p3) <= At(b, t) <= Max4(b.p0, b.p1, b.p2, b.p3)
  {
    WeightsSumToOne(t);
    WeightsNonNegative(t);
    WeightedWithinBounds(Weights(t), b);
  }

  lemma WeightedWithinBounds(w: (real, real, real, real), b: Bezier)
    requires w.0 >= 0.0 && w.1 >= 0.0 && w.2 >= 0.0 && w.3 >= 0.0 && w.0 + w.1 + w.2 + w.3 == 1.0
    ensures Min4(b.p0, b.p1, b.p2, b.p3) <= Weighted(w, b) <= Max4(b.p0, b.p1, b.p2, b.p3)
  {
    BoundsOfFour(b.p0, b.p1, b.p2, b.p3);
    ConvexCombination(w.0, w.1, w.2, w.3, b.p0, b.p1, b.p2, b.p3,
      Min4(b.p0, b.p1, b.p2, b.p3), Max4(b.p0, b.p1, b.p2, b.p3));
  }

  lemma BoundsOfFour(a: real, b: real, c: real, d: real)
    ensures Min4(a, b, c, d) <= a <= Max4(a, b, c, d) && Min4(a, b, c, d) <= b <= Max4(a, b, c, d)
    ensures Min4(a, b, c, d) <= c <= Max4(a, b, c, d) && Min4(a, b, c, d) <= d <= Max4(a, b, c, d)
  {
  }

  /** Every sample lies between the smallest and the largest control value. */
  lemma CurveWithinControlValues(b: Bezier, duration: nat, i: nat)
    requires i < duration
    ensures Min4(b.p0, b.p1, b.p2, b.p3) <= Generate(b, duration)[i] <= Max4(b.p0, b.p1, b.p2, b.p3)
  {
    var t := TimeBase(duration)[i];
    assert Generate(b, duration)[i] == At(b, t);
    AtWithinControlValues(b, t);
  }
}
