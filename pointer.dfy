/**
 * Pointer geometry: the tilt of the profile card under the pointer and the anchor of
 * the tooltip above a hovered element. Coordinates are CSS pixels, as reals.
 */
module Pointer {
  import opened Optional
  import opened Tweens

  /** A bounding client rectangle. */
  datatype Rect = Rect(left: real, top: real, width: real, height: real)

  datatype Point = Point(x: real, y: real)

  /** The largest tilt, in degrees, on either axis. */
  const MaxTilt: real := 12.0

  /** The gap between a tooltip's anchor and the top edge of its element. */
  const TooltipGap: real := 15.0

  /** Math.max(lo, Math.min(hi, v)). */
  function Clamp(lo: real, hi: real, v: real): (r: real)
    requires lo <= hi
    ensures lo <= r <= hi
    ensures lo <= v <= hi ==> r == v
    ensures v < lo ==> r == lo
    ensures v > hi ==> r == hi
  {
    if hi < v then hi else if v < lo then lo else v
  }

  /**
   * The pointer offset from the centre of `card`, as a fraction of its half width and
   * half height: (1, 1) is the bottom-right corner, (0, 0) the centre.
   */
  function Normalized(pointer: Point, card: Rect): (n: Point)
    requires card.width > 0.0 && card.height > 0.0
    ensures pointer.x == card.left + card.width / 2.0 + n.x * (card.width / 2.0)
    ensures pointer.y == card.top + card.height / 2.0 + n.y * (card.height / 2.0)
  {
    var centre := Point(card.left + card.width / 2.0, card.top + card.height / 2.0);
    Point((pointer.x - centre.x) / (card.width / 2.0), (pointer.y - centre.y) / (card.height / 2.0))
  }

  /**
   * The tilt targets for a normalized pointer offset `n`: `x` is the rotation about the
   * horizontal axis, driven by the vertical offset and inverted, `y` the rotation about
   * the vertical axis, driven by the horizontal offset.
   */
  function Tilt(n: Point): (tilt: Point)
    ensures -MaxTilt <= tilt.x <= MaxTilt && -MaxTilt <= tilt.y <= MaxTilt
  {
    Point(Clamp(-MaxTilt, MaxTilt, n.y * -MaxTilt), Clamp(-MaxTilt, MaxTilt, n.x * MaxTilt))
  }

  /** Inside the card's inscribed range the tilt is proportional to the offset, and it saturates outside. */
  lemma TiltProportional(n: Point)
    ensures -1.0 <= n.y <= 1.0 ==> Tilt(n).x == -MaxTilt * n.y
    ensures -1.0 <= n.x <= 1.0 ==> Tilt(n).y == MaxTilt * n.x
    ensures n.y >= 1.0 ==> Tilt(n).x == -MaxTilt
    ensures n.y <= -1.0 ==> Tilt(n).x == MaxTilt
    ensures n.x >= 1.0 ==> Tilt(n).y == MaxTilt
    ensures n.x <= -1.0 ==> Tilt(n).y == -MaxTilt
  {
  }

  /**
   * The pointer above the centre tilts the card's top edge away (positive x rotation),
   * below it towards the viewer; right of the centre turns it positively about y.
   */
  lemma TiltDirections(n: Point)
    ensures (Tilt(n).x > 0.0 <==> n.y < 0.0) && (Tilt(n).x < 0.0 <==> n.y > 0.0)
    ensures (Tilt(n).y > 0.0 <==> n.x > 0.0) && (Tilt(n).y < 0.0 <==> n.x < 0.0)
  {
  }

  /** The bottom-right corner of the card gives the largest tilt on both axes. */
  lemma TiltAtCorner()
    ensures Tilt(Point(1.0, 1.0)) == Point(-12.0, 12.0)
  {
  }

  /** handleMouseMove: with a card, both tilt targets follow the pointer; without one, nothing changes. */
  method HandleMouseMove(t: TweenSet, pointer: Point, card: Option<Rect>)
    requires t.Valid()
    requires card.Some? ==> card.value.width > 0.0 && card.value.height > 0.0
    modifies t
    ensures t.Valid()
    ensures card.None? ==> t.targets == old(t.targets)
    ensures card.Some? ==>
      var tilt := Tilt(Normalized(pointer, card.value));
      t.targets == old(t.targets)[TiltX := tilt.x][TiltY := tilt.y]
  {
    if card.Some? {
      var tilt := Tilt(Normalized(pointer, card.value));
      t.targets := t.targets[TiltX := tilt.x][TiltY := tilt.y];
    }
  }

  /** resetTilt: the card lies flat again, as with the pointer at its centre. */
  method ResetTilt(t: TweenSet)
    requires t.Valid()
    modifies t
    ensures t.Valid() && t.targets == old(t.targets)[TiltX := 0.0][TiltY := 0.0]
  {
    t.targets := t.targets[TiltX := 0.0][TiltY := 0.0];
  }

  /** The pointer at the centre of any card gives no tilt: the targets resetTilt writes. */
  lemma CentreIsFlat(card: Rect)
    requires card.width > 0.0 && card.height > 0.0
    ensures Tilt(Normalized(Point(card.left + card.width / 2.0, card.top + card.height / 2.0), card)) == Point(0.0, 0.0)
  {
  }

  /**
   * updateTooltipPosition: over an element, the anchor is centred horizontally on it and
   * sits TooltipGap above its top edge; with no element, it is the origin.
   */
  function TooltipPosition(target: Option<Rect>): (p: Point)
    ensures target.Some? ==>
      var r := target.value;
      p.x - r.left == (r.left + r.width) - p.x && p.y == r.top - TooltipGap
    ensures target.None? ==> p == Point(0.0, 0.0)
  {
    match target
    case Some(r) => Point(r.left + r.width / 2.0, r.top - TooltipGap)
    case None => Point(0.0, 0.0)
  }

  /** The box {left 100, top 50, width 40, height 20} puts the tooltip at (120, 35). */
  lemma TooltipExample()
    ensures TooltipPosition(Some(Rect(100.0, 50.0, 40.0, 20.0))) == Point(120.0, 35.0)
  {
  }
}
