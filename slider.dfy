/** The settings-screen slider of slider.cpp and slider.h: a bounded value
    that a tap on the slider's left half lowers and a tap on its right half
    raises, one step at a time. The label and accent colour only affect
    drawing and are not part of this model. */
module Slider {

  import opened Config

  const SliderHeight: int := 42
  const SliderPadding: int := 8
  /** Extra margin around the slider that still counts as a hit. */
  const Tolerance: int := 8

  /** The value after one step down (`lower`) or up, stopped at the bound
      in that direction. */
  function Nudge(value: int, minVal: int, maxVal: int, step: int, lower: bool): (r: int)
    // the bounds are kept
    ensures step >= 0 && minVal <= value <= maxVal ==> minVal <= r <= maxVal
    // the value moves in the chosen direction by at most one step
    ensures step >= 0 && lower && minVal <= value ==> value - step <= r <= value && (r > value - step ==> r == minVal)
    ensures step >= 0 && !lower && value <= maxVal ==> value <= r <= value + step && (r < value + step ==> r == maxVal)
    // and it does move when there is room
    ensures step > 0 && lower && value > minVal ==> r < value
    ensures step > 0 && !lower && value < maxVal ==> r > value
  {
    if lower then
      var r := value - step;
      if r < minVal then minVal else r
    else
      var r := value + step;
      if r > maxVal then maxVal else r
  }

  /** The `Slider` struct, which the slider functions update in place. */
  class Slider {
    var x: int
    var y: int
    var width: int
    var height: int
    var minVal: int
    var maxVal: int
    var step: int
    var value: int

    /** The value lies in its range. */
    predicate Valid()
      reads this
    {
      minVal <= value <= maxVal
    }

    /** A zero-initialised static `Slider`. */
    constructor ()
      ensures x == 0 && y == 0 && width == 0 && height == 0
      ensures minVal == 0 && maxVal == 0 && step == 0 && value == 0
    {
      x, y, width, height := 0, 0, 0, 0;
      minVal, maxVal, step, value := 0, 0, 0, 0;
    }

    /** `sliderInit`: full-width layout at height `y0`, start value clamped. */
    method Init(y0: int, lo: int, hi: int, stepSize: int, startVal: int)
      modifies this
      ensures x == SliderPadding && y == y0 && width == LcdWidth - 2 * SliderPadding && height == SliderHeight
      ensures minVal == lo && maxVal == hi && step == stepSize
      ensures value == Constrain(startVal, lo, hi)
      ensures lo <= hi ==> Valid()
    {
      x := SliderPadding;
      y := y0;
      width := LcdWidth - SliderPadding * 2;
      height := SliderHeight;
      minVal := lo;
      maxVal := hi;
      step := stepSize;
      value := Constrain(startVal, lo, hi);
    }

    /** The touch lies on the slider or within the tolerance around it. */
    predicate Reaches(touchX: int, touchY: int)
      reads this
    {
      !(touchX < x - Tolerance || touchX > x + width + Tolerance ||
        touchY < y - Tolerance || touchY > y + height + Tolerance)
    }

    /** The boundary between the lowering and the raising half. */
    function MidX(): int
      reads this
    {
      x + CDiv(width, 2)
    }

    /** `sliderHandleTouch` would report a change for this touch. */
    predicate Accepts(touchX: int, touchY: int)
      reads this
    {
      Reaches(touchX, touchY) && if touchX < MidX() then value > minVal else value < maxVal
    }

    /** `sliderHandleTouch(s, touchX, touchY)`. */
    method HandleTouch(touchX: int, touchY: int) returns (changed: bool)
      modifies this`value
      ensures changed == old(Accepts(touchX, touchY))
      ensures value == if changed then Nudge(old(value), minVal, maxVal, step, touchX < MidX()) else old(value)
      // the header's promise, which holds for every positive step
      ensures step > 0 ==> (changed <==> value != old(value))
      ensures old(Valid()) && step >= 0 ==> Valid()
    {
      if touchX < x - Tolerance || touchX > x + width + Tolerance ||
         touchY < y - Tolerance || touchY > y + height + Tolerance {
        return false;
      }
      var midX := x + CDiv(width, 2);
      if touchX < midX {
        if value > minVal {
          value := value - step;
          if value < minVal {
            value := minVal;
          }
          return true;
        }
      } else {
        if value < maxVal {
          value := value + step;
          if value > maxVal {
            value := maxVal;
          }
          return true;
        }
      }
      return false;
    }

    method GetValue() returns (v: int)
      ensures v == value
    {
      v := value;
    }

    /** `sliderSetValue`: the value, clamped into the range. */
    method SetValue(v: int)
      modifies this`value
      ensures value == Constrain(v, minVal, maxVal)
      ensures minVal <= maxVal ==> Valid()
    {
      value := Constrain(v, minVal, maxVal);
    }
  }

}
