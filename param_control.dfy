/** The plus/minus parameter control: a step that defaults only when none is given, a rounded
    percentage, and decrement/increment clamped to the range. */
module ParamControl {
  import opened Numerics

  /** `step ?? (max - min) / 20`: only a missing step (`null` or `undefined`) takes the default. */
  function ComputedStep(step: Option<real>, min: real, max: real): (s: real)
    ensures step.Some? ==> s == step.value
    ensures step.None? ==> s == (max - min) / 20.0
  {
    match step
    case Some(v) => v
    case None => (max - min) / 20.0
  }

  /** `Math.round(((value - min) / (max - min)) * 100)`. */
  function Percentage(value: real, min: real, max: real): (p: int)
    requires min != max
    ensures min < max && min <= value <= max ==> 0 <= p <= 100
  {
    FractionOfRange(value, min, max);
    Round(((value - min) / (max - min)) * 100.0)
  }

  lemma {:induction false} PercentageEnds(min: real, max: real)
    requires min != max
    ensures Percentage(min, min, max) == 0 && Percentage(max, min, max) == 100
  {
    assert (max - min) / (max - min) == 1.0;
    assert (min - min) / (max - min) == 0.0;
  }

  /** `handleDecrement`: `Math.max(min, value - step)`. */
  function Decrement(value: real, min: real, step: real): (v: real)
    ensures v >= min
    ensures v == min || v == value - step
    ensures v >= value - step
    ensures value == min && step >= 0.0 ==> v == min
  {
    MaxR(min, value - step)
  }

  /** `handleIncrement`: `Math.min(max, value + step)`. */
  function Increment(value: real, max: real, step: real): (v: real)
    ensures v <= max
    ensures v == max || v == value + step
    ensures v <= value + step
    ensures value == max && step >= 0.0 ==> v == max
  {
    MinR(max, value + step)
  }

  /** Away from the ends, one press of either button is undone by one press of the other. */
  lemma {:induction false} StepsUndoEachOther(value: real, min: real, max: real, step: real)
    requires step >= 0.0
    ensures min <= value - step && value <= max ==> Increment(Decrement(value, min, step), max, step) == value
    ensures min <= value && value + step <= max ==> Decrement(Increment(value, max, step), min, step) == value
  {
  }

  /** An explicit zero step is kept, so both buttons leave an in-range value as it is. */
  lemma {:induction false} ZeroStepIsKept(value: real, min: real, max: real)
    requires min <= value <= max
    ensures ComputedStep(Some(0.0), min, max) == 0.0
    ensures Decrement(value, min, ComputedStep(Some(0.0), min, max)) == value
    ensures Increment(value, max, ComputedStep(Some(0.0), min, max)) == value
  {
  }

  /** With the default step on a proper range, twenty presses walk from one end to the other. */
  lemma {:induction false} DefaultStepIsAtwentieth(min: real, max: real)
    requires min < max
    ensures ComputedStep(None, min, max) > 0.0
    ensures 20.0 * ComputedStep(None, min, max) == max - min
  {
  }
}
