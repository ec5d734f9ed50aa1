/** Text overlays (title, description, transition banner) and the per-frame rule that moves
    their opacity and vertical position toward a target. */
module Overlay {
  import opened Numeric
  import opened Easing

  /** The three animated texts. The title and the banner carry a background box; the
      description does not. */
  datatype Element = Title | Description | Transition

  predicate HasBbox(e: Element) {
    e != Description
  }

  /** Fraction of the text's target opacity that its box aims for. */
  function BboxShare(e: Element): real {
    match e
    case Title => 0.6
    case Transition => 0.85
    case Description => 0.0
  }

  /** What the animation changes on a text: opacity, vertical position, box opacity. */
  datatype Look = Look(alpha: real, y: real, bboxAlpha: real)

  /** `a <= x <= b` or `b <= x <= a`. */
  predicate Between(a: real, b: real, x: real) {
    (a <= x <= b) || (b <= x <= a)
  }

  /** Linear progress through a transition; a non-positive duration means "done". Not clamped. */
  function Progress(frameCount: int, totalFrames: int): (p: real)
    ensures totalFrames <= 0 ==> p == 1.0
    ensures 0 < totalFrames && 0 <= frameCount <= totalFrames ==> 0.0 <= p <= 1.0
    ensures 0 < totalFrames && frameCount == totalFrames ==> p == 1.0
    ensures 0 < totalFrames && 2 * totalFrames <= frameCount ==> p >= 2.0
  {
    if totalFrames > 0 then
      Ratio(frameCount as real, totalFrames as real);
      frameCount as real / totalFrames as real
    else
      1.0
  }

  /** Where a quotient by a positive divisor lies, read off the dividend. */
  lemma Ratio(a: real, b: real)
    requires b > 0.0
    ensures 0.0 <= a ==> 0.0 <= a / b
    ensures a <= b ==> a / b <= 1.0
    ensures a == b ==> a / b == 1.0
    ensures 2.0 * b <= a ==> a / b >= 2.0
  {
    var q := a / b;
    var over := q - 1.0;
    var under := 2.0 - q;
    assert q * b == a;
    assert over * b == a - b;
    assert under * b == 2.0 * b - a;
    ProductSign(q, b);
    ProductSign(over, b);
    ProductSign(under, b);
  }

  /** A product with a positive factor has the sign of the other factor. */
  lemma ProductSign(x: real, b: real)
    requires b > 0.0
    ensures x > 0.0 ==> x * b > 0.0
    ensures x < 0.0 ==> x * b < 0.0
  {
  }


  /** Opacity is recomputed when it is more than 0.01 away from its target, or when the
      target is exactly 0 or 1 and not yet reached. */
  predicate AlphaMoves(current: real, target: real) {
    Abs(current - target) > 0.01 || (target == 0.0 && current != 0.0) || (target == 1.0 && current != 1.0)
  }

  /** Box opacity is recomputed when it is more than 0.01 away from its target, when the
      target is 0 and not yet reached, or when the target is above 0.8 and the box below it. */
  predicate BboxMoves(current: real, target: real) {
    Abs(current - target) > 0.01 || (target == 0.0 && current != 0.0) || (target > 0.8 && current < 0.8)
  }

  /** Linear interpolation from `a` toward `b` by the factor `f` (any real, not only [0, 1]). */
  function Lerp(a: real, b: real, f: real): real {
    a + (b - a) * f
  }

  /** A step of the lerp toward `target`, clipped into [0, 1]. */
  function Lerped(current: real, target: real, eased: real): (r: real)
    ensures 0.0 <= r <= 1.0
  {
    Clip(Lerp(current, target, eased), 0.0, 1.0)
  }

  function NextAlpha(current: real, target: real, eased: real): (r: real)
    ensures AlphaMoves(current, target) ==> 0.0 <= r <= 1.0
    ensures !AlphaMoves(current, target) ==> r == current
  {
    if AlphaMoves(current, target) then Lerped(current, target, eased) else current
  }

  function NextBbox(current: real, target: real, eased: real): (r: real)
    ensures BboxMoves(current, target) ==> 0.0 <= r <= 1.0
    ensures !BboxMoves(current, target) ==> r == current
  {
    if BboxMoves(current, target) then Lerped(current, target, eased) else current
  }

  /** Vertical position: lerp toward the target, or snap onto it when within 0.001. Not clipped. */
  function NextY(currentY: real, targetY: real, eased: real): (r: real)
    ensures Abs(currentY - targetY) <= 0.001 ==> r == targetY
    ensures 0.0 <= eased <= 1.0 ==> Between(currentY, targetY, r)
    ensures eased == 1.0 ==> r == targetY
  {
    if Abs(currentY - targetY) > 0.001 then
      LerpBetween(currentY, targetY, eased);
      Lerp(currentY, targetY, eased)
    else
      targetY
  }

  /** The whole effect of one animation call on a text. */
  function Animated(e: Element, look: Look, targetAlpha: real, targetY: real, currentY: real,
                    frameCount: int, totalFrames: int, ease: EaseKind): Look
  {
    var eased := Ease(ease, Progress(frameCount, totalFrames));
    Look(NextAlpha(look.alpha, targetAlpha, eased),
         NextY(currentY, targetY, eased),
         if HasBbox(e) then NextBbox(look.bboxAlpha, targetAlpha * BboxShare(e), eased) else look.bboxAlpha)
  }

  /** A lerp with a factor in [0, 1] lands between its two ends, at distance `(1 - f)` times
      the original gap from the target. */
  lemma LerpBetween(a: real, b: real, f: real)
    ensures 0.0 <= f <= 1.0 ==> Between(a, b, Lerp(a, b, f))
    ensures Abs(Lerp(a, b, f) - b) == Abs(a - b) * Abs(1.0 - f)
  {
    var gap, rest := a - b, 1.0 - f;
    assert Lerp(a, b, f) - b == gap * rest;
    assert a - Lerp(a, b, f) == gap * f;
    AbsProduct(gap, rest);
    if 0.0 <= f <= 1.0 {
      ScaledSign(gap, rest);
      ScaledSign(gap, f);
    }
  }

  /** Scaling by a non-negative factor keeps a sign. */
  lemma ScaledSign(x: real, y: real)
    requires y >= 0.0
    ensures x >= 0.0 ==> x * y >= 0.0
    ensures x <= 0.0 ==> x * y <= 0.0
  {
  }

  lemma AbsProduct(x: real, y: real)
    ensures Abs(x * y) == Abs(x) * Abs(y)
  {
    if x < 0.0 && y < 0.0 {
      assert x * y == (-x) * (-y);
    } else if x < 0.0 {
      assert -(x * y) == (-x) * y;
    } else if y < 0.0 {
      assert -(x * y) == x * (-y);
    }
  }

  /** With eased progress in [0, 1] and a target inside [0, 1], opacity never moves away
      from its target and stays in [0, 1]. */
  lemma AlphaApproaches(current: real, target: real, eased: real)
    requires 0.0 <= current <= 1.0 && 0.0 <= target <= 1.0 && 0.0 <= eased <= 1.0
    ensures 0.0 <= NextAlpha(current, target, eased) <= 1.0
    ensures Abs(NextAlpha(current, target, eased) - target) <= Abs(current - target)
  {
    LerpBetween(current, target, eased);
    var x := Lerp(current, target, eased);
    assert Abs(x - target) <= Abs(current - target) by {
      assert 0.0 <= Abs(1.0 - eased) <= 1.0;
      assert Abs(current - target) * Abs(1.0 - eased) <= Abs(current - target) * 1.0;
    }
  }

  /** Once eased progress reaches 1, an opacity aimed at 0 or 1 lands exactly on it. */
  lemma AlphaArrives(current: real, target: real)
    requires target == 0.0 || target == 1.0
    ensures NextAlpha(current, target, 1.0) == target
  {
  }

  /** An opacity sitting on a target of 0 or 1 stays there, whatever the progress. */
  lemma AlphaStays(target: real, eased: real)
    requires target == 0.0 || target == 1.0
    ensures NextAlpha(target, target, eased) == target
  {
  }

  /** Past twice the duration the eased progress is not positive, so a fade-in from 0
      stays at 0 and a fade-out from 1 stays at 1: the step goes the wrong way and the
      clip cancels it. */
  lemma LateProgressHoldsAlpha(eased: real)
    requires eased <= 0.0
    ensures NextAlpha(0.0, 1.0, eased) == 0.0
    ensures NextAlpha(1.0, 0.0, eased) == 1.0
    ensures NextBbox(0.0, 0.85, eased) == 0.0
  {
  }

  /** With a negative eased progress the vertical position is pushed AWAY from its target. */
  lemma LateProgressRepelsY(currentY: real, targetY: real, eased: real)
    requires eased < 0.0 && Abs(currentY - targetY) > 0.001
    ensures Abs(NextY(currentY, targetY, eased) - targetY) > Abs(currentY - targetY)
  {
    LerpBetween(currentY, targetY, eased);
    assert Abs(1.0 - eased) > 1.0;
    assert Abs(currentY - targetY) * Abs(1.0 - eased) > Abs(currentY - targetY) * 1.0;
  }

  /** Opacity and box opacity both lie in [0, 1]. */
  predicate Opacities(l: Look) {
    0.0 <= l.alpha <= 1.0 && 0.0 <= l.bboxAlpha <= 1.0
  }

  /** An animation call never takes an opacity out of [0, 1]. */
  lemma AnimatedKeepsOpacities(e: Element, look: Look, targetAlpha: real, targetY: real, currentY: real,
                               frameCount: int, totalFrames: int, ease: EaseKind)
    requires Opacities(look)
    ensures Opacities(Animated(e, look, targetAlpha, targetY, currentY, frameCount, totalFrames, ease))
  {
  }

  /** On the call where the frame count reaches the duration, an opacity aimed at 0 or 1 and
      the position land exactly on their targets, wherever they started. */
  lemma AnimatedArrives(e: Element, look: Look, targetAlpha: real, targetY: real, currentY: real,
                        n: int, ease: EaseKind)
    requires n > 0 && (targetAlpha == 0.0 || targetAlpha == 1.0)
    ensures var r := Animated(e, look, targetAlpha, targetY, currentY, n, n, ease);
      r.alpha == targetAlpha && r.y == targetY
  {
    AlphaArrives(look.alpha, targetAlpha);
  }

  /** A text already on its targets (opacity 0 or 1, position, box) stays there, whatever the
      progress. */
  lemma AnimatedAtRest(e: Element, look: Look, targetAlpha: real, frameCount: int, totalFrames: int,
                       ease: EaseKind)
    requires targetAlpha == 0.0 || targetAlpha == 1.0
    requires look.alpha == targetAlpha
    ensures var r := Animated(e, look, targetAlpha, look.y, look.y, frameCount, totalFrames, ease);
      r.alpha == targetAlpha && r.y == look.y &&
      (look.bboxAlpha == targetAlpha * BboxShare(e) ==> r.bboxAlpha == look.bboxAlpha)
  {
    AlphaStays(targetAlpha, Ease(ease, Progress(frameCount, totalFrames)));
  }

  /** From twice the duration on, the decelerating curve makes a fade-out from 1 stay at 1
      and a fade-in from 0 (box at 0) stay at 0: the transition never happens. */
  lemma AnimatedLateHolds(e: Element, look: Look, targetAlpha: real, targetY: real, currentY: real,
                          n: int, totalFrames: int)
    requires totalFrames > 0 && n >= 2 * totalFrames
    requires (look.alpha == 1.0 && targetAlpha == 0.0) ||
             (look.alpha == 0.0 && look.bboxAlpha == 0.0 && targetAlpha == 1.0)
    ensures var r := Animated(e, look, targetAlpha, targetY, currentY, n, totalFrames, OutQuad);
      r.alpha == look.alpha && (targetAlpha == 1.0 ==> r.bboxAlpha == 0.0)
  {
    var eased := Ease(OutQuad, Progress(n, totalFrames));
    assert eased <= 0.0;
    LateProgressHoldsAlpha(eased);
    if targetAlpha == 1.0 && e == Title {
      assert NextBbox(0.0, 0.6, eased) == 0.0;
    }
  }

  class TextOverlay {
    const element: Element
    var alpha: real
    var y: real
    var bboxAlpha: real

    constructor (element: Element, alpha: real, y: real, bboxAlpha: real)
      ensures this.element == element
      ensures this.alpha == alpha && this.y == y && this.bboxAlpha == bboxAlpha
    {
      this.element := element;
      this.alpha, this.y, this.bboxAlpha := alpha, y, bboxAlpha;
    }

    function State(): Look
      reads this
    {
      Look(alpha, y, bboxAlpha)
    }

    /** One animation call: moves opacity, position (starting from `currentY`) and box opacity
        toward their targets by the eased progress `frameCount / totalFrames`. */
    method Animer(targetAlpha: real, targetY: real, currentY: real, frameCount: int, totalFrames: int,
                  ease: EaseKind := OutQuad)
      modifies this
      ensures Look(alpha, y, bboxAlpha) ==
              Animated(element, Look(old(alpha), old(y), old(bboxAlpha)), targetAlpha, targetY, currentY,
                       frameCount, totalFrames, ease)
    {
      var progress := Progress(frameCount, totalFrames);
      var eased := Ease(ease, progress);

      var currentAlpha := alpha;
      if AlphaMoves(currentAlpha, targetAlpha) {
        var newAlpha := Lerp(currentAlpha, targetAlpha, eased);
        alpha := Clip(newAlpha, 0.0, 1.0);
      }

      if Abs(currentY - targetY) > 0.001 {
        y := Lerp(currentY, targetY, eased);
      } else {
        y := targetY;
      }

      if HasBbox(element) {
        var currentBbox := bboxAlpha;
        var targetBbox := targetAlpha * BboxShare(element);
        if BboxMoves(currentBbox, targetBbox) {
          var newBbox := Lerp(currentBbox, targetBbox, eased);
          bboxAlpha := Clip(newBbox, 0.0, 1.0);
        }
      }
    }
  }
}
