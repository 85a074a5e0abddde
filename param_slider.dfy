/** The slider-style parameter control: a step that defaults whenever it is falsy, a rounded
    fill percentage, and decrement/increment clamped to the range. */
module ParamSlider {
  import opened Numerics
  import ParamControl

  /** `step || (max - min) / 20`: a missing step and an explicit 0 both take the default. */
  function StepVal(step: Option<real>, min: real, max: real): (s: real)
    ensures step.Some? && step.value != 0.0 ==> s == step.value
    ensures step.None? || step.value == 0.0 ==> s == (max - min) / 20.0
  {
    if step.Some? && step.value != 0.0 then step.value else (max - min) / 20.0
  }

  /** `Math.round(((value - min) / (max - min)) * 100)`. */
  function NormalizedPercent(value: real, min: real, max: real): (p: int)
    requires min != max
    ensures min < max && min <= value <= max ==> 0 <= p <= 100
  {
    FractionOfRange(value, min, max);
    Round(((value - min) / (max - min)) * 100.0)
  }

  lemma {:induction false} PercentEnds(min: real, max: real)
    requires min != max
    ensures NormalizedPercent(min, min, max) == 0 && NormalizedPercent(max, min, max) == 100
  {
    assert (max - min) / (max - min) == 1.0;
    assert (min - min) / (max - min) == 0.0;
  }

  /** `decrement`: `Math.max(min, value - stepVal)`. */
  function Decrement(value: real, min: real, step: real): (v: real)
    ensures v >= min
    ensures v == min || v == value - step
    ensures v >= value - step
  {
    MaxR(min, value - step)
  }

  /** `increment`: `Math.min(max, value + stepVal)`. */
  function Increment(value: real, max: real, step: real): (v: real)
    ensures v <= max
    ensures v == max || v == value + step
    ensures v <= value + step
  {
    MinR(max, value + step)
  }

  /** For an in-range value and a positive step, decrement moves down (and stays in range) and
      increment moves up (and stays in range). */
  lemma {:induction false} StepsMoveTheRightWay(value: real, min: real, max: real, step: real)
    requires min <= value <= max && step > 0.0
    ensures min <= Decrement(value, min, step) <= value
    ensures value <= Increment(value, max, step) <= max
    ensures value > min ==> Decrement(value, min, step) < value
    ensures value < max ==> Increment(value, max, step) > value
  {
  }

  /** Away from the ends, one press of either button is undone by one press of the other. */
  lemma {:induction false} StepsUndoEachOther(value: real, min: real, max: real, step: real)
    requires step >= 0.0
    ensures min <= value - step && value <= max ==> Increment(Decrement(value, min, step), max, step) == value
    ensures min <= value && value + step <= max ==> Decrement(Increment(value, max, step), min, step) == value
  {
  }

  /** The two controls disagree on an explicit zero step: this one replaces it with the default,
      which is nonzero on a proper range, while `ParamControl` keeps it. */
  lemma {:induction false} ZeroStepDiffers(min: real, max: real)
    requires min < max
    ensures StepVal(Some(0.0), min, max) == (max - min) / 20.0 != 0.0
    ensures ParamControl.ComputedStep(Some(0.0), min, max) == 0.0
    ensures StepVal(None, min, max) == ParamControl.ComputedStep(None, min, max)
  {
  }
}
