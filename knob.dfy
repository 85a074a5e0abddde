/** The rotary knob: a vertical drag maps to a clamped value, the value to an indicator angle
    between -135 and 135 degrees, and eleven fixed tick marks cover that sweep. */
module Knob {
  import opened Numerics

  /** Pixels of vertical travel that sweep the whole range. */
  const DragSpan: real := 150.0

  /** `startValue + (startY - clientY) * ((max - min) / 150)`, before clamping. */
  function Unclamped(min: real, max: real, startValue: real, startY: real, clientY: real): real
  {
    startValue + (startY - clientY) * ((max - min) / DragSpan)
  }

  /** `handleMouseMove`'s new value: the unclamped value held to `[min, max]`. */
  function DragValue(min: real, max: real, startValue: real, startY: real, clientY: real): (v: real)
    ensures v >= min
    ensures min <= max ==> v <= max
    ensures min <= Unclamped(min, max, startValue, startY, clientY) <= max ==>
              v == Unclamped(min, max, startValue, startY, clientY)
  {
    Clamp(min, max, Unclamped(min, max, startValue, startY, clientY))
  }

  /** Dragging up by the full span from `min` reaches `max`; dragging the other way from `max`
      reaches `min`. */
  lemma {:induction false} FullSpanCoversTheRange(min: real, max: real, startY: real)
    requires min <= max
    ensures DragValue(min, max, min, startY, startY - DragSpan) == max
    ensures DragValue(min, max, max, startY, startY + DragSpan) == min
  {
    assert DragSpan * ((max - min) / DragSpan) == max - min;
  }

  /** Moving the mouse further up never lowers the value. */
  lemma {:induction false} DragIsMonotone(min: real, max: real, startValue: real, startY: real, y1: real, y2: real)
    requires min <= max && y2 <= y1
    ensures DragValue(min, max, startValue, startY, y1) <= DragValue(min, max, startValue, startY, y2)
  {
    var s := (max - min) / DragSpan;
    QuotientNonnegative(max - min, DragSpan);
    assert (startY - y2) * s - (startY - y1) * s == (y1 - y2) * s;
    ProductNonnegative(y1 - y2, s);
    ClampMonotone(min, max, Unclamped(min, max, startValue, startY, y1), Unclamped(min, max, startValue, startY, y2));
  }

  /** `-135 + ((value - min) / (max - min)) * 270`. */
  function Rotation(value: real, min: real, max: real): (deg: real)
    requires min != max
    ensures min < max && min <= value <= max ==> -135.0 <= deg <= 135.0
  {
    FractionOfRange(value, min, max);
    -135.0 + ((value - min) / (max - min)) * 270.0
  }

  /** The indicator sits at -135 degrees at `min`, 135 at `max`, moves with the value, and stays on
      the sweep for values in range. */
  lemma {:induction false} RotationSweep(min: real, max: real, v1: real, v2: real)
    requires min < max && v1 <= v2
    ensures Rotation(min, min, max) == -135.0 && Rotation(max, min, max) == 135.0
    ensures Rotation(v1, min, max) <= Rotation(v2, min, max)
    ensures min <= v1 <= max ==> -135.0 <= Rotation(v1, min, max) <= 135.0
  {
    var d := max - min;
    SelfQuotient(d);
    assert min - min == 0.0;
    QuotientDifference(v2 - min, v1 - min, d);
    QuotientNonnegative(v2 - v1, d);
    if min <= v1 <= max {
      QuotientNonnegative(v1 - min, d);
      QuotientDifference(max - min, v1 - min, d);
      QuotientNonnegative(max - v1, d);
    }
  }

  /** The eleven tick marks, `-135 + 27 i` degrees. */
  function TickAngles(): (t: seq<int>)
    ensures |t| == 11
    ensures forall i :: 0 <= i < 11 ==> t[i] == -135 + 27 * i
  {
    seq(11, i => -135 + 27 * i)
  }

  /** The ticks run from -135 to 135 in equal steps, symmetric about 0, and tick `i` is where the
      indicator sits for the value `i / 10` of the way along the range. */
  lemma {:induction false} TicksMatchTheSweep(min: real, max: real, i: int)
    requires min < max && 0 <= i <= 10
    ensures TickAngles()[0] == -135 && TickAngles()[5] == 0 && TickAngles()[10] == 135
    ensures forall k :: 0 <= k <= 10 ==> TickAngles()[k] == -TickAngles()[10 - k]
    ensures Rotation(min + (i as real / 10.0) * (max - min), min, max) == TickAngles()[i] as real
  {
    var d := max - min;
    var v := min + (i as real / 10.0) * d;
    assert (v - min) / d == i as real / 10.0 by {
      assert v - min == (i as real / 10.0) * d;
    }
    assert (i as real / 10.0) * 270.0 == (27 * i) as real;
  }

  /** The drag gesture: on mouse-down the mouse height, the value and the range in force are
      recorded, and the listeners stay installed until mouse-up. */
  class Gesture {
    var isDragging: bool
    var startY: real
    var startValue: real
    var min: real
    var max: real

    constructor ()
      ensures !isDragging && startY == 0.0 && startValue == 0.0
    {
      isDragging, startY, startValue := false, 0.0, 0.0;
      min, max := 0.0, 0.0;
    }

    /** `handleMouseDown`. */
    method MouseDown(clientY: real, value: real, lo: real, hi: real)
      modifies this
      ensures isDragging && startY == clientY && startValue == value && min == lo && max == hi
    {
      isDragging := true;
      startY, startValue := clientY, value;
      min, max := lo, hi;
    }

    /** `handleMouseMove`: the value to pass to `onChange`; nothing recorded changes. */
    method MouseMove(clientY: real) returns (newValue: real)
      ensures newValue == DragValue(min, max, startValue, startY, clientY)
      ensures min <= max ==> min <= newValue <= max
    {
      var deltaY := startY - clientY;
      var range := max - min;
      var sensitivity := range / DragSpan;
      newValue := MaxR(min, MinR(max, startValue + deltaY * sensitivity));
    }

    /** `handleMouseUp`. */
    method MouseUp()
      modifies this
      ensures !isDragging && startY == old(startY) && startValue == old(startValue)
      ensures min == old(min) && max == old(max)
    {
      isDragging := false;
    }
  }
}
