/** CatFaceExpression: one requested expression (type, intensity, duration,
    per-slot blend-shape values) and its ease-in-out blend curve. */
module CatFaceExpressions {
  import opened CatExpressionTypes
  import opened Numeric

  /** The number of per-expression blend-shape slots a new request allocates. */
  const BlendShapeSlots: nat := 10

  datatype CatFaceExpression = CatFaceExpression(
    expressionType: ExpressionType,
    intensity: real,
    duration: real,
    blendShapeValues: seq<real>)

  /** The constructor, with the source's default arguments: intensity is
      clamped into [0,1], duration is kept as given, and all slots start at 0. */
  function NewExpression(t: ExpressionType, intens: real := 0.5, dur: real := 2.0): (e: CatFaceExpression)
    ensures e.expressionType == t && e.duration == dur
    ensures InUnit(e.intensity)
    ensures InUnit(intens) ==> e.intensity == intens
    ensures intens < 0.0 ==> e.intensity == 0.0
    ensures intens > 1.0 ==> e.intensity == 1.0
    ensures |e.blendShapeValues| == BlendShapeSlots
    ensures forall i :: 0 <= i < |e.blendShapeValues| ==> e.blendShapeValues[i] == 0.0
  {
    CatFaceExpression(t, Clamp01(intens), dur, seq(BlendShapeSlots, _ => 0.0))
  }

  /** The default arguments give intensity one half and a two-second duration. */
  lemma DefaultArguments(t: ExpressionType)
    ensures NewExpression(t).intensity == 0.5 && NewExpression(t).duration == 2.0
  {
  }

  /** AnimationCurve.EaseInOut(0, 0, 1, 1): two keys with flat tangents, which
      is the cubic 3t^2 - 2t^3 between them and clamped to the end values
      outside [0,1]. */
  function EaseInOut(t: real): real
  {
    if t <= 0.0 then 0.0
    else if t >= 1.0 then 1.0
    else 3.0 * t * t - 2.0 * t * t * t
  }

  /** The curve starts at 0, ends at 1 and never leaves [0,1]. */
  lemma EaseInOutRange(t: real)
    ensures InUnit(EaseInOut(t))
    ensures EaseInOut(0.0) == 0.0 && EaseInOut(1.0) == 1.0
  {
    if 0.0 < t < 1.0 {
      var sq := t * t;
      assert 0.0 <= sq by { MulNonNegative(t, t); }
      assert 3.0 * t * t - 2.0 * t * t * t == sq * (3.0 - 2.0 * t);
      MulNonNegative(sq, 3.0 - 2.0 * t);
      var gap := (1.0 - t) * (1.0 - t);
      assert 0.0 <= gap by { MulNonNegative(1.0 - t, 1.0 - t); }
      assert 1.0 - (3.0 * t * t - 2.0 * t * t * t) == gap * (1.0 + 2.0 * t);
      MulNonNegative(gap, 1.0 + 2.0 * t);
    }
  }

  /** GetBlendValue: 0 for an index outside the slots, otherwise the slot value
      scaled by the intensity and the curve at the normalised time. */
  function GetBlendValue(e: CatFaceExpression, index: int, normalizedTime: real): (r: real)
    ensures !(0 <= index < |e.blendShapeValues|) ==> r == 0.0
  {
    if index < 0 || index >= |e.blendShapeValues| then 0.0
    else e.blendShapeValues[index] * e.intensity * EaseInOut(normalizedTime)
  }

  /** A freshly constructed request contributes nothing at any time. */
  lemma FreshExpressionIsFlat(t: ExpressionType, intens: real, dur: real, index: int, time: real)
    ensures GetBlendValue(NewExpression(t, intens, dur), index, time) == 0.0
  {
  }

  /** With intensity in [0,1], a blend value never exceeds its slot value in
      magnitude, and has the slot's sign. */
  lemma {:induction false} BlendValueBounded(e: CatFaceExpression, index: int, time: real)
    requires InUnit(e.intensity) && 0 <= index < |e.blendShapeValues|
    ensures Abs(GetBlendValue(e, index, time)) <= Abs(e.blendShapeValues[index])
    ensures e.blendShapeValues[index] >= 0.0 ==> GetBlendValue(e, index, time) >= 0.0
  {
    var v := e.blendShapeValues[index];
    var c := EaseInOut(time);
    EaseInOutRange(time);
    var f := e.intensity * c;
    assert 0.0 <= f <= 1.0 by {
      MulNonNegative(e.intensity, c);
      MulNonNegative(e.intensity, 1.0 - c);
      assert e.intensity * (1.0 - c) == e.intensity - f;
    }
    assert GetBlendValue(e, index, time) == v * f;
    ScaledDifference(0.0, v, f);
    assert (v - 0.0) * f == v * f;
  }
}
