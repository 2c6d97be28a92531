/**
 * The tweened values of the page, as far as this code touches them: the handlers only
 * ever write a tween's target; the interpolation of the current value towards it is
 * done by the tween library and is not part of this model.
 */
module Tweens {

  /** The tweened properties of the page, one per field of the `Tweens` record. */
  datatype TweenId =
    | VolumeWidth | VolumeOpacity | IconScale | ScaleTelegram | ScaleGitHub | TiltX | TiltY

  /** The record of tweens that the handlers receive; only the targets are modelled. */
  class TweenSet {
    var targets: map<TweenId, real>

    /** Every property has a target. */
    ghost predicate Valid()
      reads this
    {
      forall id: TweenId :: id in targets
    }

    constructor (initial: map<TweenId, real>)
      requires forall id: TweenId :: id in initial
      ensures Valid() && targets == initial
    {
      targets := initial;
    }
  }

  /** The pending 1500 ms collapse of the volume panel, as held by its timeout reference. */
  class CollapseTimer {
    var pending: bool

    constructor ()
      ensures !pending
    {
      pending := false;
    }
  }

  // The targets of the volume panel: open, and closed again.
  const OpenWidth: real := 156.0
  const OpenOpacity: real := 1.0
  const HoverScale: real := 1.05
  const ClosedWidth: real := 48.0
  const ClosedOpacity: real := 0.0
  const RestScale: real := 1.0
  /** The icon scale of the short pulse after a mute toggle or a volume change. */
  const PulseScale: real := 1.15

  /** The pointer enters the volume control: a pending collapse is cancelled and the panel opens. */
  method HandleVolumeMouseEnter(t: TweenSet, timer: CollapseTimer)
    requires t.Valid()
    modifies t, timer
    ensures t.Valid() && !timer.pending
    ensures t.targets == old(t.targets)[VolumeWidth := OpenWidth][VolumeOpacity := OpenOpacity][IconScale := HoverScale]
  {
    timer.pending := false;
    t.targets := t.targets[VolumeWidth := OpenWidth][VolumeOpacity := OpenOpacity][IconScale := HoverScale];
  }

  /** The pointer leaves the volume control: a collapse is scheduled (see FireCollapse); nothing moves yet. */
  method HandleVolumeMouseLeave(timer: CollapseTimer)
    modifies timer
    ensures timer.pending
  {
    timer.pending := true;
  }

  /** 1500 ms after a leave: the scheduled collapse, if it was not cancelled, closes the panel. */
  method FireCollapse(t: TweenSet, timer: CollapseTimer)
    requires t.Valid()
    modifies t, timer
    ensures t.Valid() && !timer.pending
    ensures old(timer.pending) ==>
      t.targets == old(t.targets)[VolumeWidth := ClosedWidth][VolumeOpacity := ClosedOpacity][IconScale := RestScale]
    ensures !old(timer.pending) ==> t.targets == old(t.targets)
  {
    if timer.pending {
      t.targets := t.targets[VolumeWidth := ClosedWidth][VolumeOpacity := ClosedOpacity][IconScale := RestScale];
      timer.pending := false;
    }
  }

  /** The pointer is on a link button: that button's tween grows. */
  method ScaleUp(t: TweenSet, id: TweenId)
    requires t.Valid()
    modifies t
    ensures t.Valid() && t.targets == old(t.targets)[id := HoverScale]
  {
    t.targets := t.targets[id := HoverScale];
  }

  /** The pointer has left a link button: that button's tween returns to its rest size. */
  method ScaleDown(t: TweenSet, id: TweenId)
    requires t.Valid()
    modifies t
    ensures t.Valid() && t.targets == old(t.targets)[id := RestScale]
  {
    t.targets := t.targets[id := RestScale];
  }

  /** The start of the icon pulse shared by the mute toggle and the volume change. */
  method PulseIcon(t: TweenSet)
    requires t.Valid()
    modifies t
    ensures t.Valid() && t.targets == old(t.targets)[IconScale := PulseScale]
  {
    t.targets := t.targets[IconScale := PulseScale];
  }

  /** 150 ms after a pulse: the icon returns to its rest size. */
  method SettleIcon(t: TweenSet)
    requires t.Valid()
    modifies t
    ensures t.Valid() && t.targets == old(t.targets)[IconScale := RestScale]
  {
    t.targets := t.targets[IconScale := RestScale];
  }

  /**
   * Hover sequences on the volume control. Leaving and coming back before the collapse
   * fires keeps the panel open; leaving for good closes it. Nothing else is touched.
   */
  method VolumeHoverScenario(t: TweenSet, timer: CollapseTimer)
    requires t.Valid()
    modifies t, timer
    ensures t.Valid() && !timer.pending
    ensures t.targets[VolumeWidth] == ClosedWidth && t.targets[VolumeOpacity] == ClosedOpacity
    ensures t.targets[IconScale] == RestScale
    ensures forall id :: id !in {VolumeWidth, VolumeOpacity, IconScale} ==> t.targets[id] == old(t.targets[id])
  {
    ReturnBeforeCollapse(t, timer);
    HandleVolumeMouseLeave(timer);
    FireCollapse(t, timer);
  }

  /**
   * Enter, leave, and come back before the 1500 ms are up: when the timeout would have
   * fired, the panel is still open, exactly as the second enter left it.
   */
  method ReturnBeforeCollapse(t: TweenSet, timer: CollapseTimer)
    requires t.Valid()
    modifies t, timer
    ensures t.Valid() && !timer.pending
    ensures t.targets == old(t.targets)[VolumeWidth := OpenWidth][VolumeOpacity := OpenOpacity][IconScale := HoverScale]
  {
    HandleVolumeMouseEnter(t, timer);
    HandleVolumeMouseLeave(timer);
    HandleVolumeMouseEnter(t, timer);
    FireCollapse(t, timer);
  }
}
