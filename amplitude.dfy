/**
  The Amplitude modifier of the dewa package
  (src/dewa/modifiers/amplitude.py) and the rule by which a parameter that
  is a number, a Block or another Modifier becomes an array of the block's
  length. The modifiers a parameter can name are Amplitude itself and
  Bezier; the trigonometric generators are not part of this model.
*/
module Amplitude {
  import opened Samples
  import Bezier

  /** The dewa package modifiers whose waves are plain array arithmetic. */
  datatype Modifier =
    | AmplitudeModifier(amplitude: Param)
    | BezierModifier(curve: Bezier.Bezier)

  /** An amplitude argument: a number, the samples of a Block, or another modifier. */
  datatype Param =
    | Scalar(value: real)
    | BlockParam(samples: seq<real>)
    | ModifierParam(modifier: Modifier)

  /** Every number given as an amplitude, at any depth, is non-zero. */
  predicate NonZeroAmplitudes(m: Modifier) {
    match m
    case AmplitudeModifier(Scalar(a)) => a != 0.0
    case AmplitudeModifier(ModifierParam(inner)) => NonZeroAmplitudes(inner)
    case _ => true
  }

  /**
    _generate(block) for a block of `duration` samples. A Block argument is
    resized to the duration, a Modifier argument generates for the same
    block, and a number a gives np.linspace(0, duration, duration,
    endpoint=False) / a. Every case returns one value per sample.
  */
  function Generate(m: Modifier, duration: nat): (t: seq<real>)
    requires NonZeroAmplitudes(m)
    ensures |t| == duration
  {
    match m
    case BezierModifier(b) => Bezier.Generate(b, duration)
    case AmplitudeModifier(p) =>
      match p
      case BlockParam(s) => Resize(s, duration)
      case ModifierParam(inner) => Generate(inner, duration)
      case Scalar(a) =>
        var base := LinSpace(0.0, duration as real, duration);
        seq(duration, i requires 0 <= i < duration => base[i] / a)
  }

  /** A Block argument is repeated cyclically or cut to the duration, and gives zeros when it is empty. */
  lemma BlockParamAt(s: seq<real>, duration: nat, i: nat)
    requires i < duration
    ensures Generate(AmplitudeModifier(BlockParam(s)), duration)[i] == if |s| == 0 then 0.0 else s[i % |s|]
  {
    ResizeAt(s, duration, i);
  }

  /** A Modifier argument contributes exactly what that modifier generates for the same block. */
  lemma ModifierParamIsInner(inner: Modifier, duration: nat)
    requires NonZeroAmplitudes(inner)
    ensures Generate(AmplitudeModifier(ModifierParam(inner)), duration) == Generate(inner, duration)
  {
  }

  /** A number a gives the sample index divided by a. */
  lemma ScalarParamAt(a: real, duration: nat, i: nat)
    requires a != 0.0 && i < duration
    ensures Generate(AmplitudeModifier(Scalar(a)), duration)[i] == (i as real) / a
  {
    LinSpaceAt(0.0, duration as real, duration, i);
  }

  /** Any depth of nesting resolves to the innermost modifier. */
  lemma {:induction false} NestedResolvesInnermost(inner: Modifier, depth: nat, duration: nat)
    requires NonZeroAmplitudes(inner)
    ensures NonZeroAmplitudes(Nest(inner, depth))
    ensures Generate(Nest(inner, depth), duration) == Generate(inner, duration)
  {
    if depth > 0 {
      NestedResolvesInnermost(inner, depth - 1, duration);
    }
  }

  /** `inner` wrapped in `depth` Amplitude modifiers, each taking the next as its argument. */
  function Nest(inner: Modifier, depth: nat): Modifier {
    if depth == 0 then inner else AmplitudeModifier(ModifierParam(Nest(inner, depth - 1)))
  }
}
