/**
 * The first prototype, the root main.js (lines 33-243): a vertical panel
 * whose interval stops as soon as the velocity is 0 or the panel is past an
 * end (the bounce is an empty stub at the top and an undefined method at the
 * bottom), with a 1/40 velocity decay, and a Bounce cursor that mirrors
 * easeOutQuad back down once it passes half the change.
 */
module FirstFixnel {
  import opened Wrappers
  import opened JsNumber
  import opened Timing
  import opened Motion

  /** What this revision throws. */
  datatype Thrown = NotAFunction(name: string)

  /** The only curve the Bounce prototype defines. */
  const EASE_OUT_QUAD: string := "easeOutQuad"
  /** The curve name a Bounce gets when none is given; the prototype has no such member. */
  const DEFAULT_TYPE: string := "easeIn"

  /** `if (ret > c / 2) ret = c - ret`. */
  function Mirror(ret: real, c: real): (r: real)
    ensures ret > c / 2.0 ==> r == c - ret && r < c / 2.0
    ensures ret <= c / 2.0 ==> r == ret
  {
    if ret > c / 2.0 then c - ret else ret
  }

  /**
   * From 0 with a non-negative change, every mirrored value lies in the
   * lower half `[0, c/2]` of the change.
   */
  lemma MirrorStaysInLowerHalf(t: real, c: real, d: real)
    requires d > 0.0 && 0.0 <= t <= d && c >= 0.0
    ensures 0.0 <= Mirror(EaseOutQuad(t, 0.0, c, d), c) <= c / 2.0
  {
    OutQuadBetween(t, 0.0, c, d);
  }

  class Bounce {
    const typeName: string
    var t: int
    const b: real
    const c: real
    const d: int

    predicate Valid() { d > 0 }

    ghost function Remaining(): nat
      reads this
    {
      if t > d then 0 else d + 1 - t
    }

    /**
     * `new Bounce(type, t, b, c, d)`: `type || 'easeIn'`, so a missing or
     * empty type selects "easeIn".
     */
    constructor (kind: Option<string>, t0: int, b0: real, c0: real, d0: int)
      requires d0 > 0
      ensures Valid()
      ensures kind.None? || kind.value == "" ==> typeName == DEFAULT_TYPE
      ensures kind.Some? && kind.value != "" ==> typeName == kind.value
      ensures t == t0 && b == b0 && c == c0 && d == d0
    {
      typeName := if kind.None? || kind.value == "" then DEFAULT_TYPE else kind.value;
      t, b, c, d := t0, b0, c0, d0;
    }

    /**
     * `getValue()`: null once `t > d`; otherwise `t` advances (the argument
     * `t++` is evaluated before the call), and a type other than
     * easeOutQuad throws because the prototype has no such function.
     */
    method Next() returns (r: Result<Option<real>, Thrown>)
      requires Valid()
      modifies this
      ensures old(t) > d ==> r == Ok(None) && t == old(t)
      ensures old(t) <= d ==> t == old(t) + 1 && Remaining() == old(Remaining()) - 1
      ensures old(t) <= d && typeName != EASE_OUT_QUAD ==> r == Err(NotAFunction(typeName))
      ensures old(t) <= d && typeName == EASE_OUT_QUAD ==>
                r == Ok(Some(Mirror(EaseOutQuad(old(t) as real, b, c, d as real), c)))
    {
      if t > d {
        return Ok(None);
      }
      var step := t;
      t := t + 1;
      if typeName != EASE_OUT_QUAD {
        return Err(NotAFunction(typeName));
      }
      var ret := EaseOutQuad(step as real, b, c, d as real);
      if ret > c / 2.0 {
        ret := c - ret;
      }
      r := Ok(Some(ret));
    }
  }

  class Fixnel {
    var y: real
    var vy: real
    var accY: real
    var prevX: real
    var prevY: real
    var prevT: int
    var prevAccY: real
    var dragging: bool
    var moving: bool
    /** The interval whose handle is in `timer` is live. */
    var intervalActive: bool
    /** Live intervals whose handle was overwritten. */
    var orphanIntervals: nat
    var stopTimerPending: bool
    /**
     * Stop timeouts whose handle a later pointer-down overwrote: each still
     * fires and clears the interval, and nothing can cancel it.
     */
    var orphanStopTimers: nat
    var contentHeight: int
    var containerHeight: int

    /** `_getBottom()`. */
    function Bottom(): int
      reads this
    {
      contentHeight - containerHeight
    }

    ghost predicate Valid()
      reads this
    {
      accY == prevAccY
    }

    twostate predicate DragKept()
      reads this
    {
      && accY == old(accY) && prevX == old(prevX) && prevY == old(prevY) && prevT == old(prevT)
      && prevAccY == old(prevAccY) && dragging == old(dragging) && stopTimerPending == old(stopTimerPending) && orphanStopTimers == old(orphanStopTimers)
    }

    twostate predicate SizesKept()
      reads this
    {
      contentHeight == old(contentHeight) && containerHeight == old(containerHeight)
    }

    constructor (content: int, container: int)
      ensures Valid() && y == 0.0 && vy == 0.0 && !dragging && !moving && !intervalActive
      ensures orphanIntervals == 0 && !stopTimerPending && orphanStopTimers == 0
      ensures contentHeight == content && containerHeight == container
    {
      y, vy, accY, prevX, prevY, prevT, prevAccY := 0.0, 0.0, 0.0, 0.0, 0.0, 0, 0.0;
      dragging, moving, intervalActive, orphanIntervals, stopTimerPending := false, false, false, 0, false;
      orphanStopTimers := 0;
      contentHeight, containerHeight := content, container;
    }

    /** `_stopScrolling`: clears the interval in `timer` and `moving`, and keeps the velocity. */
    method StopScrolling()
      modifies this
      ensures !intervalActive && !moving
      ensures y == old(y) && vy == old(vy) && orphanIntervals == old(orphanIntervals)
      ensures DragKept() && SizesKept()
    {
      intervalActive := false;
      moving := false;
    }

    /** `getVY`: answers the velocity and stores `trunc(vy - vy/40)`. */
    method GetVY() returns (cur: real)
      modifies this
      ensures cur == old(vy) && vy == Decay(old(vy), DECAY_FIRST) as real
      ensures old(vy) != 0.0 ==> Abs(vy) < Abs(old(vy))
      ensures y == old(y) && moving == old(moving) && intervalActive == old(intervalActive)
      ensures orphanIntervals == old(orphanIntervals) && DragKept() && SizesKept()
    {
      cur := vy;
      vy := Decay(vy, DECAY_FIRST) as real;
    }

    /**
     * One callback of any live interval. A zero velocity stops before any
     * bound is looked at; past the top it stops (the bounce is an empty
     * stub); past the bottom it stops and then throws, since `_boundUp` is
     * not defined; otherwise the panel moves by the velocity before decay.
     */
    method Tick() returns (r: Result<(), Thrown>)
      requires Valid() && (intervalActive || orphanIntervals > 0)
      modifies this
      ensures Valid() && DragKept() && SizesKept() && orphanIntervals == old(orphanIntervals)
      ensures r.Err? <==> old(vy) != 0.0 && old(y) <= 0.0 && old(y) < -Bottom() as real
      ensures r.Err? ==> r.error == NotAFunction("_boundUp")
      ensures old(vy) == 0.0 || old(y) > 0.0 || old(y) < -Bottom() as real ==>
                !intervalActive && !moving && y == old(y) && vy == old(vy)
      ensures old(vy) != 0.0 && -Bottom() as real <= old(y) <= 0.0 ==>
                && y == old(y) + old(vy) && vy == Decay(old(vy), DECAY_FIRST) as real
                && Rank(vy) < Rank(old(vy))
                && moving == old(moving) && intervalActive == old(intervalActive)
    {
      var oldY := y;
      if vy == 0.0 {
        StopScrolling();
        return Ok(());
      }
      if oldY > 0.0 {
        StopScrolling();
        return Ok(());
      }
      if oldY < -Bottom() as real {
        StopScrolling();
        return Err(NotAFunction("_boundUp"));
      }
      var cur := GetVY();
      RankDrops(Decay(old(vy), DECAY_FIRST), old(vy));
      y := oldY + cur;
      r := Ok(());
    }

    /** `_scrolling`: ends the drag and starts a new interval, orphaning a live one. */
    method Scrolling()
      modifies this
      ensures !dragging && moving && intervalActive
      ensures orphanIntervals == old(orphanIntervals) + (if old(intervalActive) then 1 else 0)
      ensures y == old(y) && vy == old(vy) && SizesKept()
      ensures accY == old(accY) && prevX == old(prevX) && prevY == old(prevY) && prevT == old(prevT)
      ensures prevAccY == old(prevAccY) && stopTimerPending == old(stopTimerPending) && orphanStopTimers == old(orphanStopTimers)
    {
      dragging := false;
      moving := true;
      if intervalActive {
        orphanIntervals := orphanIntervals + 1;
      }
      intervalActive := true;
    }

    /** `stopScroll`: a pending timeout's handle is overwritten, orphaning it. */
    method StopScroll()
      modifies this
      ensures stopTimerPending && y == old(y) && vy == old(vy) && moving == old(moving)
      ensures orphanStopTimers == old(orphanStopTimers) + (if old(stopTimerPending) then 1 else 0)
      ensures intervalActive == old(intervalActive) && orphanIntervals == old(orphanIntervals) && SizesKept()
      ensures accY == old(accY) && prevX == old(prevX) && prevY == old(prevY) && prevT == old(prevT)
      ensures prevAccY == old(prevAccY) && dragging == old(dragging)
    {
      if stopTimerPending {
        orphanStopTimers := orphanStopTimers + 1;
      }
      stopTimerPending := true;
    }

    /** The stop timeout fires: it clears the interval in `timer`. */
    method FireStopTimer()
      requires stopTimerPending
      modifies this
      ensures !intervalActive && !stopTimerPending && orphanIntervals == old(orphanIntervals)
      ensures orphanStopTimers == old(orphanStopTimers)
      ensures y == old(y) && vy == old(vy) && moving == old(moving) && SizesKept()
      ensures accY == old(accY) && prevX == old(prevX) && prevY == old(prevY) && prevT == old(prevT)
      ensures prevAccY == old(prevAccY) && dragging == old(dragging)
    {
      stopTimerPending := false;
      intervalActive := false;
    }

    /** An orphaned stop timeout fires: it clears the interval `timer` holds by now. */
    method FireOrphanStopTimer()
      requires orphanStopTimers > 0
      modifies this
      ensures !intervalActive && orphanStopTimers == old(orphanStopTimers) - 1
      ensures stopTimerPending == old(stopTimerPending) && orphanIntervals == old(orphanIntervals)
      ensures y == old(y) && vy == old(vy) && moving == old(moving) && SizesKept()
      ensures accY == old(accY) && prevX == old(prevX) && prevY == old(prevY) && prevT == old(prevT)
      ensures prevAccY == old(prevAccY) && dragging == old(dragging)
    {
      orphanStopTimers := orphanStopTimers - 1;
      intervalActive := false;
    }

    /** `mousedown`. */
    method MouseDown(pageX: real, pageY: real, now: int)
      requires Valid()
      modifies this
      ensures Valid() && dragging && prevX == pageX && prevY == pageY && prevT == now
      ensures y == old(y) && vy == old(vy) && moving == old(moving) && intervalActive == old(intervalActive)
      ensures orphanIntervals == old(orphanIntervals) && SizesKept()
      ensures accY == old(accY) && prevAccY == old(prevAccY) && stopTimerPending == old(stopTimerPending) && orphanStopTimers == old(orphanStopTimers)
    {
      dragging := true;
      prevX := pageX;
      prevY := pageY;
      prevT := now;
    }

    /** `mousemove`: cancels the stop timeout; while dragging, follows the pointer exactly. */
    method MouseMove(pageY: real, now: int)
      requires Valid()
      modifies this
      ensures Valid() && !stopTimerPending && orphanStopTimers == old(orphanStopTimers) && SizesKept()
      ensures moving == old(moving) && intervalActive == old(intervalActive) && orphanIntervals == old(orphanIntervals)
      ensures !old(dragging) ==> y == old(y) && vy == old(vy) && accY == old(accY) && prevY == old(prevY)
                                 && prevT == old(prevT) && prevAccY == old(prevAccY) && !dragging
      ensures old(dragging) ==>
                var s := DragKinematics(old(prevY), old(prevT), old(prevAccY), old(accY), pageY, now);
                && y == old(y) - s.dist && vy == pageY - old(prevY)
                && accY == s.sample && prevAccY == s.sample && prevY == pageY && prevT == now && dragging
    {
      stopTimerPending := false;
      if !dragging {
        return;
      }
      var s := DragKinematics(prevY, prevT, prevAccY, accY, pageY, now);
      DragVelocity(prevY, prevT, accY, pageY, now);
      accY := s.acc;
      vy := s.vy;
      prevT := now;
      y := y - s.dist;
      prevY := pageY;
      prevAccY := s.sample;
    }

    /** `mouseup`. */
    method MouseUp()
      modifies this
      ensures !dragging && moving && intervalActive
      ensures orphanIntervals == old(orphanIntervals) + (if old(intervalActive) then 1 else 0)
      ensures y == old(y) && vy == old(vy) && SizesKept()
      ensures accY == old(accY) && prevX == old(prevX) && prevY == old(prevY) && prevT == old(prevT)
      ensures prevAccY == old(prevAccY) && stopTimerPending == old(stopTimerPending) && orphanStopTimers == old(orphanStopTimers)
    {
      Scrolling();
    }
  }
}
