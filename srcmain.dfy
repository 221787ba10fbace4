/**
 * The vertical panel of src/main.js, the revision before src/fixnel.js: no
 * events and no scrollbar. Its Bounce is the cursor class of the later
 * revisions. `_scrolling` starts a new interval without clearing the one in
 * `timer`, so a release while coasting leaves the old interval running with
 * no handle to clear it: those are counted in `orphanIntervals`, and every
 * live interval runs the same callback, Tick.
 */
module PrototypeFixnel {
  import opened Wrappers
  import opened JsNumber
  import opened Timing
  import opened Cursors
  import opened Motion

  class Fixnel {
    var y: real
    var vy: real
    var accY: real
    var prevY: real
    var prevT: int
    var prevAccY: real
    var dragging: bool
    var bouncing: bool
    var bounce: Easing?
    var moving: bool
    /** The interval whose handle is in `timer` is live. */
    var intervalActive: bool
    /** Live intervals whose handle was overwritten. */
    var orphanIntervals: nat
    var stopTimerPending: bool
    /**
     * Stop timeouts whose handle a later pointer-down overwrote: each still
     * fires and clears the interval, and nothing can cancel it.
     */
    var orphanStopTimers: nat
    var contentHeight: int
    var containerHeight: int
    const expo: (real, real, real, real) -> real

    /** `_getBottom()`. */
    function Bottom(): int
      reads this
    {
      contentHeight - containerHeight
    }

    ghost predicate Valid()
      reads this, bounce
    {
      && accY == prevAccY
      && (bounce != null <==> bouncing)
      && (bounce != null ==> bounce.d == BOUNCE_STEPS && bounce.t >= 0)
    }

    /** The state `_stopScrolling` leaves (orphaned intervals live on). */
    predicate Stopped()
      reads this
    {
      vy == 0.0 && !intervalActive && !moving && !bouncing && bounce == null
    }

    ghost function Measure(): nat
      reads this, bounce
    {
      if bounce != null then bounce.Remaining() else BOUNCE_STEPS + 2 + Rank(vy)
    }

    twostate predicate DragKept()
      reads this
    {
      && accY == old(accY) && prevY == old(prevY) && prevT == old(prevT) && prevAccY == old(prevAccY)
      && dragging == old(dragging) && stopTimerPending == old(stopTimerPending) && orphanStopTimers == old(orphanStopTimers)
    }

    twostate predicate MotionKept()
      reads this
    {
      && y == old(y) && vy == old(vy) && bouncing == old(bouncing) && bounce == old(bounce)
      && moving == old(moving) && intervalActive == old(intervalActive) && orphanIntervals == old(orphanIntervals)
    }

    constructor (content: int, container: int, expoCurve: (real, real, real, real) -> real)
      ensures Valid() && Stopped() && y == 0.0 && !dragging && !stopTimerPending && orphanIntervals == 0
      ensures orphanStopTimers == 0
      ensures contentHeight == content && containerHeight == container && expo == expoCurve
    {
      y, vy, accY, prevY, prevT, prevAccY := 0.0, 0.0, 0.0, 0.0, 0, 0.0;
      dragging, bouncing, bounce, moving := false, false, null, false;
      intervalActive, orphanIntervals, stopTimerPending, orphanStopTimers := false, 0, false, 0;
      contentHeight, containerHeight := content, container;
      expo := expoCurve;
    }

    /** `_stopScrolling`: clears only the interval whose handle is in `timer`. */
    method StopScrolling()
      modifies this
      ensures Stopped() && y == old(y) && orphanIntervals == old(orphanIntervals) && DragKept()
      ensures contentHeight == old(contentHeight) && containerHeight == old(containerHeight)
    {
      vy := 0.0;
      intervalActive := false;
      moving := false;
      bouncing := false;
      bounce := null;
    }

    /** `getVY`. */
    method GetVY() returns (cur: real)
      modifies this
      ensures cur == old(vy) && vy == Decay(old(vy), DECAY) as real
      ensures old(vy) != 0.0 ==> Abs(vy) < Abs(old(vy))
      ensures y == old(y) && bouncing == old(bouncing) && bounce == old(bounce)
      ensures moving == old(moving) && intervalActive == old(intervalActive)
      ensures orphanIntervals == old(orphanIntervals) && DragKept()
      ensures contentHeight == old(contentHeight) && containerHeight == old(containerHeight)
    {
      cur := vy;
      vy := Decay(vy, DECAY) as real;
    }

    /** `getValue`, untruncated as in src/fixnel.js. */
    method GetValue() returns (r: Option<real>)
      requires Valid()
      modifies this, bounce
      ensures Valid() && y == old(y) && DragKept() && orphanIntervals == old(orphanIntervals)
      ensures contentHeight == old(contentHeight) && containerHeight == old(containerHeight)
      ensures old(bouncing) && old(bounce.Remaining()) == 0 ==> r.None? && Stopped()
      ensures old(bouncing) && old(bounce.Remaining()) > 0 ==>
                && bounce == old(bounce) && bounce.Remaining() == old(bounce.Remaining()) - 1
                && r == Some(Eval(bounce.curve, old(bounce.t) as real, bounce.b, bounce.c, bounce.d as real))
                && vy == old(vy) && moving == old(moving) && intervalActive == old(intervalActive)
      ensures !old(bouncing) && old(vy) == 0.0 && BounceTarget(old(y), Bottom() as real).None? ==>
                r.None? && Stopped()
      ensures !old(bouncing) && old(vy) == 0.0 && BounceTarget(old(y), Bottom() as real).Some? ==>
                && bouncing && fresh(bounce) && bounce.curve.Transcendental?
                && bounce.t == 0 && bounce.b == old(y)
                && bounce.b + bounce.c == BounceTarget(old(y), Bottom() as real).value
                && r == Some(old(y)) && vy == 0.0
                && moving == old(moving) && intervalActive == old(intervalActive)
      ensures !old(bouncing) && old(vy) != 0.0 ==>
                var v := EdgeClamp(old(y), old(vy), -Bottom() as real);
                && r == Some(old(y) + v) && vy == Decay(v, DECAY) as real
                && !bouncing && moving == old(moving) && intervalActive == old(intervalActive)
    {
      if bouncing {
        r := BounceValue();
        return;
      }
      if vy == 0.0 {
        var stopped := Settle();
        if stopped {
          return None;
        }
      }
      r := Coast();
    }

    /** The bouncing branch of `getValue`: the bounce cursor's next value, or a stop once it is spent. */
    method BounceValue() returns (r: Option<real>)
      requires Valid() && bouncing
      modifies this, bounce
      ensures Valid() && y == old(y) && DragKept() && orphanIntervals == old(orphanIntervals)
      ensures contentHeight == old(contentHeight) && containerHeight == old(containerHeight)
      ensures old(bounce.Remaining()) == 0 ==> r.None? && Stopped()
      ensures old(bounce.Remaining()) > 0 ==>
                && bounce == old(bounce) && bounce.Remaining() == old(bounce.Remaining()) - 1
                && r == Some(Eval(bounce.curve, old(bounce.t) as real, bounce.b, bounce.c, bounce.d as real))
                && vy == old(vy) && moving == old(moving) && intervalActive == old(intervalActive)
    {
      r := bounce.Next();
      if r.None? {
        StopScrolling();
      }
    }

    /**
     * The resting branch of `getValue`: a panel outside the range starts a
     * bounce from its position back to the nearer end; one inside it stops.
     */
    method Settle() returns (stopped: bool)
      requires Valid() && !bouncing && vy == 0.0
      modifies this
      ensures Valid() && y == old(y) && DragKept() && orphanIntervals == old(orphanIntervals)
      ensures contentHeight == old(contentHeight) && containerHeight == old(containerHeight)
      ensures stopped <==> BounceTarget(old(y), Bottom() as real).None?
      ensures stopped ==> Stopped()
      ensures !stopped ==>
                && bouncing && fresh(bounce) && bounce.curve.Transcendental?
                && bounce.t == 0 && bounce.b == old(y)
                && bounce.b + bounce.c == BounceTarget(old(y), Bottom() as real).value
                && vy == 0.0 && moving == old(moving) && intervalActive == old(intervalActive)
    {
      var bottom := -Bottom() as real;
      stopped := false;
      if y > 0.0 {
        bounce := new Easing(Some(Transcendental(expo)), 0, y, 0.0 - y, BOUNCE_STEPS);
        bouncing := true;
      } else if y < bottom {
        bounce := new Easing(Some(Transcendental(expo)), 0, y, bottom - y, BOUNCE_STEPS);
        bouncing := true;
      } else {
        StopScrolling();
        stopped := true;
      }
    }

    /**
     * The coasting part of `getValue`: the velocity is capped near an edge,
     * the answer is the next position, and the stored velocity decays.
     */
    method Coast() returns (r: Option<real>)
      modifies this
      ensures var v := EdgeClamp(old(y), old(vy), -Bottom() as real);
              r == Some(old(y) + v) && vy == Decay(v, DECAY) as real
      ensures y == old(y) && bouncing == old(bouncing) && bounce == old(bounce)
      ensures moving == old(moving) && intervalActive == old(intervalActive)
      ensures DragKept() && orphanIntervals == old(orphanIntervals)
      ensures contentHeight == old(contentHeight) && containerHeight == old(containerHeight)
    {
      var v0 := vy;
      if y + v0 > 0.0 {
        vy := if v0 > EDGE_SPEED then EDGE_SPEED else v0;
      }
      if y - v0 < -Bottom() as real {
        vy := if v0 < -EDGE_SPEED then -EDGE_SPEED else v0;
      }
      var cur := GetVY();
      r := Some(y + cur);
    }

    /**
     * One callback of any live interval (orphaned ones included): a null
     * value stops the panel, any other value is written.
     */
    method Tick()
      requires Valid() && (intervalActive || orphanIntervals > 0)
      modifies this, bounce
      ensures Valid() && DragKept() && orphanIntervals == old(orphanIntervals)
      ensures contentHeight == old(contentHeight) && containerHeight == old(containerHeight)
      ensures (Stopped() && y == old(y)) || Measure() < old(Measure())
      ensures old(bouncing) && old(bounce.Remaining()) > 0 ==>
                !Stopped() && y == Eval(bounce.curve, old(bounce.t) as real, bounce.b, bounce.c, bounce.d as real)
      ensures !old(bouncing) && old(vy) != 0.0 ==>
                !bouncing && y == old(y) + EdgeClamp(old(y), old(vy), -Bottom() as real)
                && intervalActive == old(intervalActive)
    {
      var value := GetValue();
      if value.None? {
        StopScrolling();
        return;
      }
      if !old(bouncing) && old(vy) != 0.0 {
        MomentumStepSlows(old(y), old(vy), -Bottom() as real);
      }
      y := value.value;
    }

    /**
     * `_scrolling`: ends the drag and starts a new interval; one still live
     * in `timer` is not cleared and becomes an orphan.
     */
    method Scrolling()
      modifies this
      ensures !dragging && moving && intervalActive
      ensures orphanIntervals == old(orphanIntervals) + (if old(intervalActive) then 1 else 0)
      ensures y == old(y) && vy == old(vy) && bouncing == old(bouncing) && bounce == old(bounce)
      ensures contentHeight == old(contentHeight) && containerHeight == old(containerHeight)
      ensures accY == old(accY) && prevY == old(prevY) && prevT == old(prevT) && prevAccY == old(prevAccY)
      ensures stopTimerPending == old(stopTimerPending) && orphanStopTimers == old(orphanStopTimers)
    {
      dragging := false;
      moving := true;
      if intervalActive {
        orphanIntervals := orphanIntervals + 1;
      }
      intervalActive := true;
    }

    /**
     * `_scrolling` with `clearInterval(this.timer)` first, as the later
     * revision does: the interval still live in `timer` is stopped before
     * the new one replaces it, so no interval is orphaned.
     */
    method ScrollingCleared()
      modifies this
      ensures !dragging && moving && intervalActive
      ensures orphanIntervals == old(orphanIntervals)
      ensures y == old(y) && vy == old(vy) && bouncing == old(bouncing) && bounce == old(bounce)
      ensures contentHeight == old(contentHeight) && containerHeight == old(containerHeight)
      ensures accY == old(accY) && prevY == old(prevY) && prevT == old(prevT) && prevAccY == old(prevAccY)
      ensures stopTimerPending == old(stopTimerPending) && orphanStopTimers == old(orphanStopTimers)
    {
      intervalActive := false;
      dragging := false;
      moving := true;
      intervalActive := true;
    }

    /** `stopScroll`, the second pointer-down listener: a pending timeout's handle is overwritten, orphaning it. */
    method StopScroll()
      modifies this
      ensures stopTimerPending && MotionKept()
      ensures orphanStopTimers == old(orphanStopTimers) + (if old(stopTimerPending) then 1 else 0)
      ensures contentHeight == old(contentHeight) && containerHeight == old(containerHeight)
      ensures accY == old(accY) && prevY == old(prevY) && prevT == old(prevT)
      ensures prevAccY == old(prevAccY) && dragging == old(dragging)
    {
      if stopTimerPending {
        orphanStopTimers := orphanStopTimers + 1;
      }
      stopTimerPending := true;
    }

    /** The stop timeout fires: it clears the interval in `timer`, and no orphan. */
    method FireStopTimer()
      requires stopTimerPending
      modifies this
      ensures !intervalActive && !stopTimerPending && orphanIntervals == old(orphanIntervals)
      ensures orphanStopTimers == old(orphanStopTimers)
      ensures y == old(y) && vy == old(vy) && bouncing == old(bouncing) && bounce == old(bounce) && moving == old(moving)
      ensures contentHeight == old(contentHeight) && containerHeight == old(containerHeight)
      ensures accY == old(accY) && prevY == old(prevY) && prevT == old(prevT)
      ensures prevAccY == old(prevAccY) && dragging == old(dragging)
    {
      stopTimerPending := false;
      intervalActive := false;
    }

    /**
     * An orphaned stop timeout fires: it clears the interval `timer` holds by
     * now; intervals already orphaned keep running.
     */
    method FireOrphanStopTimer()
      requires orphanStopTimers > 0
      modifies this
      ensures !intervalActive && orphanStopTimers == old(orphanStopTimers) - 1
      ensures stopTimerPending == old(stopTimerPending) && orphanIntervals == old(orphanIntervals)
      ensures y == old(y) && vy == old(vy) && bouncing == old(bouncing) && bounce == old(bounce) && moving == old(moving)
      ensures contentHeight == old(contentHeight) && containerHeight == old(containerHeight)
      ensures accY == old(accY) && prevY == old(prevY) && prevT == old(prevT)
      ensures prevAccY == old(prevAccY) && dragging == old(dragging)
    {
      orphanStopTimers := orphanStopTimers - 1;
      intervalActive := false;
    }

    /** `mousedown`. */
    method MouseDown(pageY: real, now: int)
      requires Valid()
      modifies this
      ensures Valid() && MotionKept() && dragging && prevY == pageY && prevT == now
      ensures accY == old(accY) && prevAccY == old(prevAccY) && stopTimerPending == old(stopTimerPending) && orphanStopTimers == old(orphanStopTimers)
      ensures contentHeight == old(contentHeight) && containerHeight == old(containerHeight)
    {
      dragging := true;
      prevY := pageY;
      prevT := now;
    }

    /**
     * `mousemove`: cancels the stop timeout whether or not a drag is on;
     * while dragging the panel follows the pointer exactly.
     */
    method MouseMove(pageY: real, now: int)
      requires Valid()
      modifies this
      ensures Valid() && !stopTimerPending && orphanStopTimers == old(orphanStopTimers)
      ensures contentHeight == old(contentHeight) && containerHeight == old(containerHeight)
      ensures !old(dragging) ==> MotionKept() && accY == old(accY) && prevY == old(prevY)
                                 && prevT == old(prevT) && prevAccY == old(prevAccY) && !dragging
      ensures old(dragging) ==>
                var s := DragKinematics(old(prevY), old(prevT), old(prevAccY), old(accY), pageY, now);
                && y == old(y) - s.dist && vy == pageY - old(prevY)
                && accY == s.sample && prevAccY == s.sample && prevY == pageY && prevT == now && dragging
                && bouncing == old(bouncing) && bounce == old(bounce) && moving == old(moving)
                && intervalActive == old(intervalActive) && orphanIntervals == old(orphanIntervals)
    {
      stopTimerPending := false;
      if !dragging {
        return;
      }
      var s := DragKinematics(prevY, prevT, prevAccY, accY, pageY, now);
      DragVelocity(prevY, prevT, accY, pageY, now);
      accY := s.acc;
      vy := s.vy;
      prevT := now;
      y := y - s.dist;
      prevY := pageY;
      prevAccY := s.sample;
    }

    /** `mouseup`: starts scrolling unconditionally. */
    method MouseUp()
      modifies this
      ensures !dragging && moving && intervalActive
      ensures orphanIntervals == old(orphanIntervals) + (if old(intervalActive) then 1 else 0)
      ensures y == old(y) && vy == old(vy) && bouncing == old(bouncing) && bounce == old(bounce)
      ensures contentHeight == old(contentHeight) && containerHeight == old(containerHeight)
      ensures accY == old(accY) && prevY == old(prevY) && prevT == old(prevT) && prevAccY == old(prevAccY)
      ensures stopTimerPending == old(stopTimerPending) && orphanStopTimers == old(orphanStopTimers)
    {
      Scrolling();
    }

    /** `mouseup` through ScrollingCleared. */
    method MouseUpCleared()
      modifies this
      ensures !dragging && moving && intervalActive
      ensures orphanIntervals == old(orphanIntervals)
      ensures y == old(y) && vy == old(vy) && bouncing == old(bouncing) && bounce == old(bounce)
      ensures contentHeight == old(contentHeight) && containerHeight == old(containerHeight)
      ensures accY == old(accY) && prevY == old(prevY) && prevT == old(prevT) && prevAccY == old(prevAccY)
      ensures stopTimerPending == old(stopTimerPending) && orphanStopTimers == old(orphanStopTimers)
    {
      ScrollingCleared();
    }
  }

  /**
   * A drag that moves and is released, so the panel coasts; a second
   * release before any tick, then a stop: one interval is left running that
   * no later stop can clear, and it keeps calling Tick. The StopScrolling
   * call stands for the interval callback whose getValue answers null.
   */
  method LeakAfterTwoReleases() returns (f: Fixnel)
    ensures f.Stopped() && f.orphanIntervals == 1
  {
    f := new Fixnel(1200, 500, (t: real, b: real, c: real, d: real) => b);
    f.MouseDown(100.0, 0);
    f.MouseMove(60.0, 16);
    f.MouseUp();
    f.MouseUp();
    f.StopScrolling();
  }

  /**
   * The same two releases and stop with the interval cleared before it is
   * replaced: the stop (again standing for the callback whose getValue
   * answers null) leaves no interval running.
   */
  method NoLeakAfterTwoReleases() returns (f: Fixnel)
    ensures f.Stopped() && f.orphanIntervals == 0
  {
    f := new Fixnel(1200, 500, (t: real, b: real, c: real, d: real) => b);
    f.MouseDown(100.0, 0);
    f.MouseMove(60.0, 16);
    f.MouseUpCleared();
    f.MouseUpCleared();
    f.StopScrolling();
  }
}
