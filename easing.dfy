/** The two quadratic easing curves used by the overlay animation. */
module Easing {

  /** Decelerating curve `1 - (1 - t)^2`. It is not clamped: past `t = 2` it turns negative. */
  function EaseOutQuad(t: real): (r: real)
    ensures r <= 1.0
    ensures t == 0.0 ==> r == 0.0
    ensures t == 1.0 ==> r == 1.0
    ensures 0.0 <= t <= 1.0 ==> 0.0 <= r <= 1.0
    ensures t >= 2.0 ==> r <= 0.0
  {
    SquareBounds(1.0 - t);
    1.0 - (1.0 - t) * (1.0 - t)
  }

  /** Accelerating then decelerating curve: `2t^2` below one half, `1 - (2 - 2t)^2 / 2` from there. */
  function EaseInOutQuad(t: real): (r: real)
    ensures t == 0.0 ==> r == 0.0
    ensures t == 0.5 ==> r == 0.5
    ensures t == 1.0 ==> r == 1.0
    ensures 0.0 <= t <= 1.0 ==> 0.0 <= r <= 1.0
  {
    if t < 0.5 then
      SquareMonotone(t, 0.5);
      assert 2.0 * t * t == 2.0 * (t * t);
      2.0 * t * t
    else
      var u := -2.0 * t + 2.0;
      SquareBounds(u);
      1.0 - u * u / 2.0
  }

  /** On [0, 1] the decelerating curve never goes down. */
  lemma EaseOutQuadMonotone(a: real, b: real)
    requires 0.0 <= a <= b <= 1.0
    ensures EaseOutQuad(a) <= EaseOutQuad(b)
  {
    SquareMonotone(1.0 - b, 1.0 - a);
  }

  /** On [0, 1] the accelerating-decelerating curve never goes down. */
  lemma EaseInOutQuadMonotone(a: real, b: real)
    requires 0.0 <= a <= b <= 1.0
    ensures EaseInOutQuad(a) <= EaseInOutQuad(b)
  {
    if b < 0.5 {
      SquareMonotone(a, b);
    } else if a < 0.5 {
      SquareMonotone(a, 0.5);
      assert 2.0 * a * a == 2.0 * (a * a) <= 0.5;
      SquareBounds(-2.0 * b + 2.0);
    } else {
      SquareMonotone(-2.0 * b + 2.0, -2.0 * a + 2.0);
    }
  }

  /** Facts about a square that the curves' bounds rest on. */
  lemma SquareBounds(x: real)
    ensures x * x >= 0.0
    ensures 0.0 <= x <= 1.0 ==> x * x <= x
    ensures -1.0 <= x <= 0.0 ==> x * x <= -x
    ensures x <= -1.0 ==> x * x >= 1.0
  {
    if x < 0.0 {
      SquareMonotone(0.0, -x);
      if x <= -1.0 { SquareMonotone(1.0, -x); }
      if -1.0 <= x { assert (-x) * (-x) <= (-x) * 1.0; }
    } else if x <= 1.0 {
      assert x * x <= x * 1.0;
    }
  }

  /** Squaring is monotone on the non-negative reals. */
  lemma SquareMonotone(x: real, y: real)
    ensures 0.0 <= x <= y ==> x * x <= y * y
  {
    if 0.0 <= x <= y {
      assert x * x <= x * y;
      assert x * y <= y * y;
    }
  }

  /** Which curve an animation uses. */
  datatype EaseKind = OutQuad | InOutQuad

  function Ease(kind: EaseKind, t: real): (r: real)
    ensures 0.0 <= t <= 1.0 ==> 0.0 <= r <= 1.0
    ensures t == 1.0 ==> r == 1.0
  {
    match kind
    case OutQuad => EaseOutQuad(t)
    case InOutQuad => EaseInOutQuad(t)
  }
}
