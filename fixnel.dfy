/**
 * The vertical widget of src/fixnel.js, the revision before src/hfixnel.js.
 * Its panel works like HFixnel but does not truncate positions, has no
 * rubber band while dragging, no moveTo, and triggers `move` on every
 * interval tick, null value included; the scrollbar turns that null into
 * its own `moveend`. Its fade is built into the scrollbar.
 */
module VerticalFixnel {
  import opened Wrappers
  import opened JsNumber
  import opened Timing
  import opened Cursors
  import opened Motion

  /** Steps of a scrollbar fade (`DURATION`). */
  const FADE_STEPS: int := 30
  /** `_wait`'s delay when none is given. */
  const DEFAULT_WAIT: int := 500
  /** The hide delay after the panel stops moving (`_moveEnd`). */
  const MOVE_END_WAIT: int := 1000
  /** The hide delay after the bar is first shown (`render`). */
  const RENDER_WAIT: int := 2000

  /**
   * A fade cursor of this scrollbar: easeOutQuad over 30 steps from an
   * opacity to an opacity (it need not end at the fade's target).
   */
  ghost predicate BarCursor(e: Easing)
    reads e
  {
    && e.curve.OutQuad? && e.d == FADE_STEPS && e.t >= 0
    && 0.0 <= e.b <= 1.0 && 0.0 <= e.b + e.c <= 1.0
  }

  lemma BarValueIsOpacity(e: Easing)
    requires BarCursor(e) && e.t <= e.d
    ensures 0.0 <= EaseOutQuad(e.t as real, e.b, e.c, e.d as real) <= 1.0
  {
    OutQuadBetween(e.t as real, e.b, e.c, e.d as real);
  }

  /**
   * An interrupted hide, as written: a show from 0 answers 0.75 at its
   * step 15, and a hide started then builds its cursor from the nominal
   * opacity 1 (not from the in-flight 0.75) with its last eased value 0.25,
   * so the bar jumps up to 1 and later jumps from 0.25 down to 0.
   */
  lemma InterruptedHideJumps()
    ensures var inflight := EaseOutQuad(15.0, 0.0, 1.0, FADE_STEPS as real);
            var start := FadeStartValue(Some(inflight), 1.0);
            var c := 0.0 - start;
            && inflight == 0.75 && start == 0.75
            && Eval(OutQuad, 0.0, 1.0, c, FADE_STEPS as real) == 1.0
            && Eval(OutQuad, FADE_STEPS as real, 1.0, c, FADE_STEPS as real) == 0.25
  {
    assert 15.0 / FADE_STEPS as real == 0.5;
  }

  /** `easing.getValue() || b`. */
  function FadeStartValue(inflight: Option<real>, nominal: real): (r: real)
    ensures inflight.Some? && inflight.value != 0.0 ==> r == inflight.value
    ensures inflight.None? || inflight.value == 0.0 ==> r == nominal
  {
    if inflight.Some? && inflight.value != 0.0 then inflight.value else nominal
  }

  /** The bar's length, `(containerHeight * ratio) | 0`. */
  function BarSize(container: int, ratio: real): int {
    OrZero(container as real * ratio)
  }

  class Scrollbar {
    var ratio: real
    /** The bar's length, `(containerHeight * ratio) | 0`. */
    var size: int
    /** The bar's translation, `-(y * ratio)`, not truncated. */
    var offset: real
    var moving: bool
    /** A `_wait` timeout is pending. */
    var waitPending: bool
    /** `this.timer` is truthy: set by `_wait`, cleared only when its timeout fires. */
    var timerHandle: bool
    var waitDelay: int
    var opacity: real
    var easing: Easing?
    var fadeTimerPending: bool
    /** The `f` of the running fade, written when its cursor is exhausted. */
    var fadeTarget: real

    ghost predicate Valid()
      reads this, easing
    {
      && 0.0 <= opacity <= 1.0
      && (easing != null ==> BarCursor(easing))
      && (fadeTimerPending ==> easing != null && (fadeTarget == 0.0 || fadeTarget == 1.0))
      && (waitPending ==> timerHandle)
    }

    ghost function InflightNext(): Option<real>
      reads this, easing
      requires easing != null ==> easing.Valid()
    {
      if easing == null then None else ValueAt(easing.curve, easing.t, easing.b, easing.c, easing.d)
    }

    /** `init` and `render`: sizes the bar, shows it and waits 2000 ms to hide it. */
    constructor (content: int, container: int)
      requires content > 0
      ensures Valid() && ratio == container as real / content as real
      ensures size == BarSize(container, ratio) && !moving
      ensures opacity == 0.0 && fadeTimerPending && fadeTarget == 1.0
      ensures waitPending && timerHandle && waitDelay == RENDER_WAIT
    {
      var r := container as real / content as real;
      ratio := r;
      size := BarSize(container, r);
      offset := 0.0;
      moving := false;
      waitPending, timerHandle, waitDelay := false, false, 0;
      opacity := 0.0;
      easing := null;
      fadeTimerPending, fadeTarget := false, 0.0;
      new;
      Show();
      Wait(RENDER_WAIT);
    }

    /** `_setY`. */
    method SetY(y: real)
      modifies this
      ensures offset == -(y * ratio)
      ensures ratio == old(ratio) && size == old(size) && moving == old(moving)
      ensures waitPending == old(waitPending) && timerHandle == old(timerHandle) && waitDelay == old(waitDelay)
      ensures opacity == old(opacity) && easing == old(easing)
      ensures fadeTimerPending == old(fadeTimerPending) && fadeTarget == old(fadeTarget)
    {
      offset := -(y * ratio);
    }

    /**
     * `_move`: a null value triggers the bar's own `moveend`, whose handler
     * `_moveEnd` runs at once; any other value moves the bar.
     */
    method Move(value: Option<real>)
      requires Valid()
      modifies this
      ensures Valid()
      ensures value.Some? ==> offset == -(value.value * ratio) && moving == old(moving)
                              && waitPending == old(waitPending) && waitDelay == old(waitDelay)
      ensures value.None? ==> offset == old(offset) && !moving && waitPending && waitDelay == MOVE_END_WAIT
      ensures ratio == old(ratio) && size == old(size) && opacity == old(opacity) && easing == old(easing)
      ensures fadeTimerPending == old(fadeTimerPending) && fadeTarget == old(fadeTarget)
    {
      if value.None? {
        MoveEnd();
        return;
      }
      SetY(value.value);
    }

    /**
     * `_moveStart`: cancels a pending hide, but the handle stays truthy, so
     * the bar is only shown when no `_wait` has been set since the last one
     * fired.
     */
    method MoveStart()
      requires Valid()
      modifies this, easing
      ensures Valid() && !waitPending && ratio == old(ratio) && size == old(size) && offset == old(offset)
      ensures old(moving) || old(timerHandle) ==>
                && moving == old(moving) && timerHandle == old(timerHandle)
                && opacity == old(opacity) && easing == old(easing) && fadeTimerPending == old(fadeTimerPending)
      ensures !old(moving) && !old(timerHandle) ==>
                && moving && !timerHandle && fresh(easing) && fadeTimerPending && fadeTarget == 1.0
                && easing.b == 0.0 && easing.c == 1.0 - FadeStartValue(old(InflightNext()), 0.0)
                && opacity == 0.0
    {
      waitPending := false;
      if moving || timerHandle {
        return;
      }
      timerHandle := false;
      moving := true;
      Show();
    }

    /** `_moveEnd`. */
    method MoveEnd()
      requires Valid()
      modifies this
      ensures Valid() && !moving && waitPending && timerHandle && waitDelay == MOVE_END_WAIT
      ensures ratio == old(ratio) && size == old(size) && offset == old(offset)
      ensures opacity == old(opacity) && easing == old(easing)
      ensures fadeTimerPending == old(fadeTimerPending) && fadeTarget == old(fadeTarget)
    {
      Wait(MOVE_END_WAIT);
      moving := false;
    }

    /** `_wait(delay)`: replaces any pending hide; a missing or zero delay means 500 ms. */
    method Wait(delay: int)
      requires Valid()
      modifies this
      ensures Valid() && waitPending && timerHandle && waitDelay == (if delay == 0 then DEFAULT_WAIT else delay)
      ensures ratio == old(ratio) && size == old(size) && offset == old(offset) && moving == old(moving)
      ensures opacity == old(opacity) && easing == old(easing)
      ensures fadeTimerPending == old(fadeTimerPending) && fadeTarget == old(fadeTarget)
    {
      waitDelay := if delay == 0 then DEFAULT_WAIT else delay;
      waitPending := true;
      timerHandle := true;
    }

    /** The pending `_wait` timeout fires: it clears the handle and hides the bar unless it is moving. */
    method FireWait()
      requires Valid() && waitPending
      modifies this, easing
      ensures Valid() && !waitPending && !timerHandle && moving == old(moving)
      ensures ratio == old(ratio) && size == old(size) && offset == old(offset)
      ensures old(moving) ==> opacity == old(opacity) && easing == old(easing) && fadeTimerPending == old(fadeTimerPending)
      ensures !old(moving) ==>
                && fresh(easing) && fadeTimerPending && fadeTarget == 0.0 && opacity == 1.0
                && easing.b == 1.0 && easing.c == 0.0 - FadeStartValue(old(InflightNext()), 1.0)
    {
      waitPending := false;
      timerHandle := false;
      if !moving {
        Hide();
      }
    }

    /** `_show`. */
    method Show()
      requires Valid()
      modifies this, easing
      ensures Valid() && fresh(easing) && fadeTimerPending && fadeTarget == 1.0 && opacity == 0.0
      ensures easing.b == 0.0 && easing.c == 1.0 - FadeStartValue(old(InflightNext()), 0.0)
      ensures ratio == old(ratio) && size == old(size) && offset == old(offset) && moving == old(moving)
      ensures waitPending == old(waitPending) && timerHandle == old(timerHandle) && waitDelay == old(waitDelay)
    {
      Fade(0.0, 1.0);
    }

    /** `_hide`. */
    method Hide()
      requires Valid()
      modifies this, easing
      ensures Valid() && fresh(easing) && fadeTimerPending && fadeTarget == 0.0 && opacity == 1.0
      ensures easing.b == 1.0 && easing.c == 0.0 - FadeStartValue(old(InflightNext()), 1.0)
      ensures ratio == old(ratio) && size == old(size) && offset == old(offset) && moving == old(moving)
      ensures waitPending == old(waitPending) && timerHandle == old(timerHandle) && waitDelay == old(waitDelay)
    {
      Fade(1.0, 0.0);
    }

    /**
     * `_fade(b, f)`: the change `c` is measured from the in-flight value
     * `_b`, but the cursor starts from the nominal `b`, so an interrupted
     * fade jumps to `b` and its eased part ends at `b + f - _b`.
     */
    method Fade(nominal: real, target: real)
      requires Valid() && ((nominal == 0.0 && target == 1.0) || (nominal == 1.0 && target == 0.0))
      modifies this, easing
      ensures Valid() && fresh(easing) && easing.curve.OutQuad? && easing.t == 1
      ensures easing.b == nominal && easing.c == target - FadeStartValue(old(InflightNext()), nominal)
      ensures opacity == nominal && fadeTimerPending && fadeTarget == target
      ensures ratio == old(ratio) && size == old(size) && offset == old(offset) && moving == old(moving)
      ensures waitPending == old(waitPending) && timerHandle == old(timerHandle) && waitDelay == old(waitDelay)
    {
      var start := nominal;
      if easing != null {
        if easing.t <= easing.d {
          BarValueIsOpacity(easing);
        }
        var v := easing.Next();
        start := FadeStartValue(v, nominal);
      }
      var c := target - start;
      easing := new Easing(Some(OutQuad), 0, nominal, c, FADE_STEPS);
      fadeTimerPending := false;
      fadeTarget := target;
      Ease();
    }

    /** The `ease` closure: write the next value, or the target once the cursor is exhausted. */
    method Ease()
      requires Valid() && easing != null && (fadeTarget == 0.0 || fadeTarget == 1.0)
      modifies this, easing
      ensures Valid()
      ensures old(easing.Remaining()) == 0 ==> easing == null && !fadeTimerPending && opacity == fadeTarget
      ensures old(easing.Remaining()) > 0 ==>
                && easing == old(easing) && easing.Remaining() == old(easing.Remaining()) - 1
                && opacity == EaseOutQuad(old(easing.t) as real, easing.b, easing.c, easing.d as real)
                && fadeTimerPending
      ensures fadeTarget == old(fadeTarget) && ratio == old(ratio) && size == old(size) && offset == old(offset)
      ensures moving == old(moving) && waitPending == old(waitPending) && timerHandle == old(timerHandle)
      ensures waitDelay == old(waitDelay)
    {
      if easing.t <= easing.d {
        BarValueIsOpacity(easing);
      }
      var val := easing.Next();
      if val.None? {
        easing := null;
        fadeTimerPending := false;
        opacity := fadeTarget;
        return;
      }
      opacity := val.value;
      fadeTimerPending := true;
    }

    /** The pending fade step's timeout fires. */
    method FadeTick()
      requires Valid() && fadeTimerPending
      modifies this, easing
      ensures Valid()
      ensures old(easing.Remaining()) == 0 ==> easing == null && !fadeTimerPending && opacity == old(fadeTarget)
      ensures old(easing.Remaining()) > 0 ==>
                && easing == old(easing) && easing.Remaining() == old(easing.Remaining()) - 1
                && opacity == EaseOutQuad(old(easing.t) as real, easing.b, easing.c, easing.d as real)
                && fadeTimerPending
      ensures moving == old(moving) && waitPending == old(waitPending) && timerHandle == old(timerHandle)
    {
      fadeTimerPending := false;
      Ease();
    }
  }

  class Fixnel {
    var y: real
    var vy: real
    var accY: real
    var prevY: real
    var prevT: int
    var prevAccY: real
    var dragging: bool
    var bouncing: bool
    var bounce: Easing?
    var moving: bool
    var intervalActive: bool
    var stopTimerPending: bool
    /**
     * Stop timeouts whose handle a later pointer-down overwrote: each still
     * fires and clears the interval, and nothing can cancel it.
     */
    var orphanStopTimers: nat
    var contentHeight: int
    var containerHeight: int
    const expo: (real, real, real, real) -> real

    /** `_getBottom()`. */
    function Bottom(): int
      reads this
    {
      contentHeight - containerHeight
    }

    ghost predicate Valid()
      reads this, bounce
    {
      && accY == prevAccY
      && (bounce != null <==> bouncing)
      && (bounce != null ==> bounce.d == BOUNCE_STEPS && bounce.t >= 0)
    }

    predicate Stopped()
      reads this
    {
      vy == 0.0 && !intervalActive && !moving && !bouncing && bounce == null
    }

    ghost function Measure(): nat
      reads this, bounce
    {
      if bounce != null then bounce.Remaining() else BOUNCE_STEPS + 2 + Rank(vy)
    }

    twostate predicate DragKept()
      reads this
    {
      && accY == old(accY) && prevY == old(prevY) && prevT == old(prevT) && prevAccY == old(prevAccY)
      && dragging == old(dragging) && stopTimerPending == old(stopTimerPending) && orphanStopTimers == old(orphanStopTimers)
    }

    twostate predicate MotionKept()
      reads this
    {
      && y == old(y) && vy == old(vy) && bouncing == old(bouncing) && bounce == old(bounce)
      && moving == old(moving) && intervalActive == old(intervalActive)
    }

    constructor (content: int, container: int, expoCurve: (real, real, real, real) -> real)
      ensures Valid() && Stopped() && y == 0.0 && !dragging && !stopTimerPending && orphanStopTimers == 0
      ensures contentHeight == content && containerHeight == container && expo == expoCurve
    {
      y, vy, accY, prevY, prevT, prevAccY := 0.0, 0.0, 0.0, 0.0, 0, 0.0;
      dragging, bouncing, bounce, moving := false, false, null, false;
      intervalActive, stopTimerPending, orphanStopTimers := false, false, 0;
      contentHeight, containerHeight := content, container;
      expo := expoCurve;
    }

    /** `_stopScrolling`: triggers nothing in this revision. */
    method StopScrolling()
      modifies this
      ensures Stopped() && y == old(y) && DragKept()
      ensures contentHeight == old(contentHeight) && containerHeight == old(containerHeight)
    {
      vy := 0.0;
      intervalActive := false;
      moving := false;
      bouncing := false;
      bounce := null;
    }

    /** `getVY`. */
    method GetVY() returns (cur: real)
      modifies this
      ensures cur == old(vy) && vy == Decay(old(vy), DECAY) as real
      ensures old(vy) != 0.0 ==> Abs(vy) < Abs(old(vy))
      ensures y == old(y) && bouncing == old(bouncing) && bounce == old(bounce)
      ensures moving == old(moving) && intervalActive == old(intervalActive) && DragKept()
      ensures contentHeight == old(contentHeight) && containerHeight == old(containerHeight)
    {
      cur := vy;
      vy := Decay(vy, DECAY) as real;
    }

    /**
     * `getValue`: as in HFixnel, but nothing is truncated: a bounce starts
     * from the exact position and a coasting step answers `y + vy` exactly.
     */
    method GetValue() returns (r: Option<real>)
      requires Valid()
      modifies this, bounce
      ensures Valid() && y == old(y) && DragKept()
      ensures contentHeight == old(contentHeight) && containerHeight == old(containerHeight)
      ensures old(bouncing) && old(bounce.Remaining()) == 0 ==> r.None? && Stopped()
      ensures old(bouncing) && old(bounce.Remaining()) > 0 ==>
                && bounce == old(bounce) && bounce.Remaining() == old(bounce.Remaining()) - 1
                && r == Some(Eval(bounce.curve, old(bounce.t) as real, bounce.b, bounce.c, bounce.d as real))
                && vy == old(vy) && moving == old(moving) && intervalActive == old(intervalActive)
      ensures !old(bouncing) && old(vy) == 0.0 && BounceTarget(old(y), Bottom() as real).None? ==>
                r.None? && Stopped()
      ensures !old(bouncing) && old(vy) == 0.0 && BounceTarget(old(y), Bottom() as real).Some? ==>
                && bouncing && fresh(bounce) && bounce.curve.Transcendental?
                && bounce.t == 0 && bounce.b == old(y)
                && bounce.b + bounce.c == BounceTarget(old(y), Bottom() as real).value
                && r == Some(old(y)) && vy == 0.0
                && moving == old(moving) && intervalActive == old(intervalActive)
      ensures !old(bouncing) && old(vy) != 0.0 ==>
                var v := EdgeClamp(old(y), old(vy), -Bottom() as real);
                && r == Some(old(y) + v) && vy == Decay(v, DECAY) as real
                && !bouncing && moving == old(moving) && intervalActive == old(intervalActive)
    {
      if bouncing {
        r := BounceValue();
        return;
      }
      if vy == 0.0 {
        var stopped := Settle();
        if stopped {
          return None;
        }
      }
      r := Coast();
    }

    /** The bouncing branch of `getValue`: the bounce cursor's next value, or a stop once it is spent. */
    method BounceValue() returns (r: Option<real>)
      requires Valid() && bouncing
      modifies this, bounce
      ensures Valid() && y == old(y) && DragKept()
      ensures contentHeight == old(contentHeight) && containerHeight == old(containerHeight)
      ensures old(bounce.Remaining()) == 0 ==> r.None? && Stopped()
      ensures old(bounce.Remaining()) > 0 ==>
                && bounce == old(bounce) && bounce.Remaining() == old(bounce.Remaining()) - 1
                && r == Some(Eval(bounce.curve, old(bounce.t) as real, bounce.b, bounce.c, bounce.d as real))
                && vy == old(vy) && moving == old(moving) && intervalActive == old(intervalActive)
    {
      r := bounce.Next();
      if r.None? {
        StopScrolling();
      }
    }

    /**
     * The resting branch of `getValue`: a panel outside the range starts a
     * bounce from its position back to the nearer end; one inside it stops.
     */
    method Settle() returns (stopped: bool)
      requires Valid() && !bouncing && vy == 0.0
      modifies this
      ensures Valid() && y == old(y) && DragKept()
      ensures contentHeight == old(contentHeight) && containerHeight == old(containerHeight)
      ensures stopped <==> BounceTarget(old(y), Bottom() as real).None?
      ensures stopped ==> Stopped()
      ensures !stopped ==>
                && bouncing && fresh(bounce) && bounce.curve.Transcendental?
                && bounce.t == 0 && bounce.b == old(y)
                && bounce.b + bounce.c == BounceTarget(old(y), Bottom() as real).value
                && vy == 0.0 && moving == old(moving) && intervalActive == old(intervalActive)
    {
      var bottom := -Bottom() as real;
      stopped := false;
      if y > 0.0 {
        bounce := new Easing(Some(Transcendental(expo)), 0, y, 0.0 - y, BOUNCE_STEPS);
        bouncing := true;
      } else if y < bottom {
        bounce := new Easing(Some(Transcendental(expo)), 0, y, bottom - y, BOUNCE_STEPS);
        bouncing := true;
      } else {
        StopScrolling();
        stopped := true;
      }
    }

    /**
     * The coasting part of `getValue`: the velocity is capped near an edge,
     * the answer is the next position, and the stored velocity decays.
     */
    method Coast() returns (r: Option<real>)
      modifies this
      ensures var v := EdgeClamp(old(y), old(vy), -Bottom() as real);
              r == Some(old(y) + v) && vy == Decay(v, DECAY) as real
      ensures y == old(y) && bouncing == old(bouncing) && bounce == old(bounce)
      ensures moving == old(moving) && intervalActive == old(intervalActive)
      ensures DragKept()
      ensures contentHeight == old(contentHeight) && containerHeight == old(containerHeight)
    {
      var v0 := vy;
      if y + v0 > 0.0 {
        vy := if v0 > EDGE_SPEED then EDGE_SPEED else v0;
      }
      if y - v0 < -Bottom() as real {
        vy := if v0 < -EDGE_SPEED then -EDGE_SPEED else v0;
      }
      var cur := GetVY();
      r := Some(y + cur);
    }

    /**
     * One interval callback: `move` is triggered with the value before
     * anything else, null included; a null value stops the panel without
     * writing a position.
     */
    method Tick() returns (ev: seq<PanelEvent>)
      requires Valid() && intervalActive
      modifies this, bounce
      ensures Valid() && DragKept()
      ensures contentHeight == old(contentHeight) && containerHeight == old(containerHeight)
      ensures !intervalActive <==> Stopped()
      ensures !intervalActive ==> y == old(y) && ev == [PanelEvent.Move(None)]
      ensures intervalActive ==> Measure() < old(Measure()) && ev == [PanelEvent.Move(Some(y))]
      ensures intervalActive && !old(bouncing) && old(vy) != 0.0 ==>
                y == old(y) + EdgeClamp(old(y), old(vy), -Bottom() as real)
      ensures intervalActive && !old(bouncing) && old(vy) == 0.0 ==> y == old(y) && bouncing
      ensures old(bouncing) && old(bounce.Remaining()) > 0 ==> intervalActive
      ensures !old(bouncing) && old(vy) != 0.0 ==> intervalActive
    {
      var value := GetValue();
      ev := [PanelEvent.Move(value)];
      if value.None? {
        StopScrolling();
        return;
      }
      if !old(bouncing) && old(vy) != 0.0 {
        MomentumStepSlows(old(y), old(vy), -Bottom() as real);
      }
      y := value.value;
    }

    /** `_scrolling`: replaces the interval with a fresh one. */
    method Scrolling()
      modifies this
      ensures moving && intervalActive
      ensures y == old(y) && vy == old(vy) && bouncing == old(bouncing) && bounce == old(bounce)
      ensures contentHeight == old(contentHeight) && containerHeight == old(containerHeight)
      ensures accY == old(accY) && prevY == old(prevY) && prevT == old(prevT) && prevAccY == old(prevAccY)
      ensures dragging == old(dragging) && stopTimerPending == old(stopTimerPending) && orphanStopTimers == old(orphanStopTimers)
    {
      moving := true;
      intervalActive := true;
    }

    /** `_stop`, the second pointer-down listener: a pending timeout's handle is overwritten, orphaning it. */
    method Stop()
      modifies this
      ensures stopTimerPending && MotionKept()
      ensures orphanStopTimers == old(orphanStopTimers) + (if old(stopTimerPending) then 1 else 0)
      ensures contentHeight == old(contentHeight) && containerHeight == old(containerHeight)
      ensures accY == old(accY) && prevY == old(prevY) && prevT == old(prevT)
      ensures prevAccY == old(prevAccY) && dragging == old(dragging)
    {
      if stopTimerPending {
        orphanStopTimers := orphanStopTimers + 1;
      }
      stopTimerPending := true;
    }

    /** The stop timeout fires: the interval is cleared and nothing else changes. */
    method FireStopTimer()
      requires stopTimerPending
      modifies this
      ensures !intervalActive && !stopTimerPending && orphanStopTimers == old(orphanStopTimers)
      ensures y == old(y) && vy == old(vy) && bouncing == old(bouncing) && bounce == old(bounce) && moving == old(moving)
      ensures contentHeight == old(contentHeight) && containerHeight == old(containerHeight)
      ensures accY == old(accY) && prevY == old(prevY) && prevT == old(prevT)
      ensures prevAccY == old(prevAccY) && dragging == old(dragging)
    {
      stopTimerPending := false;
      intervalActive := false;
    }

    /** An orphaned stop timeout fires: it clears the interval `timer` holds by now. */
    method FireOrphanStopTimer()
      requires orphanStopTimers > 0
      modifies this
      ensures !intervalActive && orphanStopTimers == old(orphanStopTimers) - 1
      ensures stopTimerPending == old(stopTimerPending)
      ensures y == old(y) && vy == old(vy) && bouncing == old(bouncing) && bounce == old(bounce) && moving == old(moving)
      ensures contentHeight == old(contentHeight) && containerHeight == old(containerHeight)
      ensures accY == old(accY) && prevY == old(prevY) && prevT == old(prevT)
      ensures prevAccY == old(prevAccY) && dragging == old(dragging)
    {
      orphanStopTimers := orphanStopTimers - 1;
      intervalActive := false;
    }

    /** `_down`: starts a drag unconditionally, even during a bounce. */
    method Down(pageY: real, now: int) returns (ev: seq<PanelEvent>)
      requires Valid()
      modifies this
      ensures Valid() && MotionKept() && ev == [MoveStart]
      ensures dragging && prevY == pageY && prevT == now
      ensures accY == old(accY) && prevAccY == old(prevAccY) && stopTimerPending == old(stopTimerPending) && orphanStopTimers == old(orphanStopTimers)
      ensures contentHeight == old(contentHeight) && containerHeight == old(containerHeight)
    {
      dragging := true;
      ev := [MoveStart];
      prevY := pageY;
      prevT := now;
    }

    /**
     * `_move`: while dragging, the panel follows the pointer exactly (no
     * rubber band) and `move` carries the new position.
     */
    method Move(pageY: real, now: int) returns (ev: seq<PanelEvent>)
      requires Valid()
      modifies this
      ensures Valid()
      ensures contentHeight == old(contentHeight) && containerHeight == old(containerHeight)
      ensures !old(dragging) ==> ev == [] && MotionKept() && DragKept()
      ensures old(dragging) ==>
                var s := DragKinematics(old(prevY), old(prevT), old(prevAccY), old(accY), pageY, now);
                && y == old(y) - s.dist && vy == pageY - old(prevY)
                && accY == s.sample && prevAccY == s.sample && prevY == pageY && prevT == now
                && !stopTimerPending && orphanStopTimers == old(orphanStopTimers)
                && dragging && ev == [PanelEvent.Move(Some(y))]
                && bouncing == old(bouncing) && bounce == old(bounce)
                && moving == old(moving) && intervalActive == old(intervalActive)
    {
      if !dragging {
        return [];
      }
      stopTimerPending := false;
      var s := DragKinematics(prevY, prevT, prevAccY, accY, pageY, now);
      DragVelocity(prevY, prevT, accY, pageY, now);
      accY := s.acc;
      vy := s.vy;
      y := y - s.dist;
      ev := [PanelEvent.Move(Some(y))];
      prevT := now;
      prevY := pageY;
      prevAccY := s.sample;
    }

    /** `_up`: always ends the drag and starts the interval, even without a drag. */
    method Up() returns (ev: seq<PanelEvent>)
      requires Valid()
      modifies this
      ensures Valid() && ev == [] && !dragging && moving && intervalActive
      ensures y == old(y) && vy == old(vy) && bouncing == old(bouncing) && bounce == old(bounce)
      ensures accY == old(accY) && prevY == old(prevY) && prevT == old(prevT)
      ensures prevAccY == old(prevAccY) && stopTimerPending == old(stopTimerPending) && orphanStopTimers == old(orphanStopTimers)
      ensures contentHeight == old(contentHeight) && containerHeight == old(containerHeight)
    {
      dragging := false;
      Scrolling();
      ev := [];
    }
  }
}
