/** SpinnerProgress: a circular progress indicator that is either determinate
    (a value in a range) or spins (SpinnerProgress.cpp). Painting and the fade
    animations are left out; the timer is a pair of flags. */
module Spinners {
  import opened Wrappers
  import opened Geometry

  /** One timer tick of the spinning arc: five degrees further, wrapping at 360. */
  function NextAngle(angle: int): int {
    (angle + 5) % 360
  }

  /** The angle after n ticks from a starting angle, tick by tick. */
  function AngleAfter(start: int, n: nat): (a: int)
    ensures 0 <= a < 360 || (n == 0 && a == start)
  {
    if n == 0 then start else NextAngle(AngleAfter(start, n - 1))
  }

  /** Ticking n times turns the arc by 5n degrees, taken modulo 360. */
  lemma {:induction false} AngleAfterIsModular(start: int, n: nat)
    requires 0 <= start < 360
    ensures AngleAfter(start, n) == (start + 5 * n) % 360
  {
    if n > 0 {
      AngleAfterIsModular(start, n - 1);
      var prev := start + 5 * (n - 1);
      assert AngleAfter(start, n) == (prev % 360 + 5) % 360;
      TurnOfRemainder(prev);
    }
  }

  /** Reducing the angle before turning it does not change the result. */
  lemma TurnOfRemainder(a: int)
    requires a >= 0
    ensures (a % 360 + 5) % 360 == (a + 5) % 360
  {
    var q := a / 360;
    assert a == 360 * q + a % 360;
  }

  /** The range setRange stores: the arguments when 0 <= min < max <= 100, and
      0..100 otherwise. */
  function RangeFor(min: int, max: int): (r: (int, int))
    ensures 0 <= r.0 < r.1 <= 100
    ensures 0 <= min < max <= 100 ==> r == (min, max)
    ensures !(0 <= min < max <= 100) ==> r == (0, 100)
  {
    if min < 0 || max > 100 || min >= max then (0, 100) else (min, max)
  }

  /** The range is either the untouched initial one (0, 0) or a valid one. */
  predicate RangeOk(minimum: int, maximum: int) {
    (minimum == 0 && maximum == 0) || 0 <= minimum < maximum <= 100
  }

  /** The width setSize keeps: never below 250. */
  function SpinnerSize(s: Size): (r: Size)
    ensures r.h == 140 && r.w >= 250 && r.w >= s.w && (r.w == s.w || r.w == 250)
  {
    Size(if s.w > 250 then s.w else 250, 140)
  }

  class Spinner {
    var isDarkMode: bool
    var isIndeterminate: bool
    var angle: int
    var minimum: int
    var maximum: int
    var currentValue: int
    /** Whether the timer has been created, and whether it is running. */
    var hasTimer: bool
    var timerActive: bool
    var loaderText: string
    /** The fixed size setSize gave; None while the toolkit's sizing applies. */
    var size: Option<Size>
    var visible: bool

    ghost predicate Valid()
      reads this
    {
      && 0 <= angle < 360
      && RangeOk(minimum, maximum)
      && 0 <= currentValue <= 100
      && (timerActive ==> hasTimer)
    }

    /** The header's defaults: hidden, determinate, range 0..0, value 0, no timer. */
    constructor()
      ensures Valid()
      ensures !isDarkMode && !isIndeterminate && angle == 0
      ensures minimum == 0 && maximum == 0 && currentValue == 0
      ensures !hasTimer && !timerActive && loaderText == "" && size == None && !visible
    {
      isDarkMode := false;
      isIndeterminate := false;
      angle := 0;
      minimum := 0;
      maximum := 0;
      currentValue := 0;
      hasTimer := false;
      timerActive := false;
      loaderText := "";
      size := None;
      visible := false;
    }

    /** The divisor of the determinate percentage. */
    function PercentDivisor(): (d: int)
      requires Valid()
      reads this
      ensures d == 0 <==> minimum == 0 && maximum == 0
      ensures d != 0 ==> 0 < d <= 100
    {
      maximum - minimum
    }

    method SetSize(s: Size)
      modifies this`size
      ensures size == Some(SpinnerSize(s))
    {
      var width := if s.w > 250 then s.w else 250;
      size := Some(Size(width, 140));
    }

    method SetText(text: string)
      modifies this`loaderText
      ensures loaderText == text
    {
      loaderText := text;
    }

    method SetDarkMode(value: bool)
      modifies this`isDarkMode
      ensures isDarkMode == value
    {
      isDarkMode := value;
    }

    /** setRange: valid bounds are kept, anything else gives 0..100; the divisor
        of the percentage is positive from then on. */
    method SetRange(min: int, max: int)
      requires Valid()
      modifies this`minimum, this`maximum
      ensures Valid()
      ensures (minimum, maximum) == RangeFor(min, max)
      ensures PercentDivisor() > 0
    {
      if min < 0 || max > 100 || min >= max {
        minimum := 0;
        maximum := 100;
      } else {
        minimum := min;
        maximum := max;
      }
    }

    /** setValue: a value outside 0..100 is refused; any other is stored, whatever
        the range. */
    method SetValue(value: int)
      requires Valid()
      modifies this`currentValue
      ensures Valid()
      ensures 0 <= value <= 100 ==> currentValue == value
      ensures !(0 <= value <= 100) ==> currentValue == old(currentValue)
    {
      if value > 100 || value < 0 {
        return;
      }
      currentValue := value;
    }

    /** getValue: the last value setValue accepted. */
    method GetValue() returns (v: int)
      requires Valid()
      ensures v == currentValue && 0 <= v <= 100
    {
      v := currentValue;
    }

    /** setIndeterminate: the timer is created the first time spinning is asked for. */
    method SetIndeterminate(value: bool)
      requires Valid()
      modifies this`isIndeterminate, this`hasTimer
      ensures Valid()
      ensures isIndeterminate == value
      ensures hasTimer == (old(hasTimer) || value)
    {
      isIndeterminate := value;
      if isIndeterminate && !hasTimer {
        hasTimer := true;
      }
    }

    /** A timeout of the running timer turns the arc. */
    method Tick()
      requires Valid() && timerActive
      modifies this`angle
      ensures Valid()
      ensures angle == NextAngle(old(angle))
    {
      angle := (angle + 5) % 360;
    }

    /** start: the timer runs from here when it exists, is stopped and the spinner
        spins; the spinner fades in. */
    method Start()
      requires Valid()
      modifies this`timerActive, this`visible
      ensures Valid() && visible
      ensures hasTimer && !old(timerActive) && isIndeterminate ==> timerActive
      ensures !(hasTimer && !old(timerActive) && isIndeterminate) ==> timerActive == old(timerActive)
    {
      if hasTimer && !timerActive && isIndeterminate {
        timerActive := true;
      }
      visible := true;
    }

    /** stop: a spinning spinner's timer stops; the spinner fades out. */
    method Stop()
      requires Valid()
      modifies this`timerActive, this`visible
      ensures Valid() && !visible
      ensures isIndeterminate ==> !timerActive
      ensures !isIndeterminate ==> timerActive == old(timerActive)
    {
      if isIndeterminate && hasTimer {
        timerActive := false;
      }
      visible := false;
    }
  }
}
