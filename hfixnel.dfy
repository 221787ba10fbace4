/**
 * The panel of src/hfixnel.js (HFixnel): a horizontally dragged element
 * whose position `x` runs from 0 (content start at the container's left
 * edge) down to `-Right()`. A drag moves it (with a rubber band past either
 * end), releasing it starts a 60 Hz interval that coasts on the decaying
 * velocity and bounces back inside, and moveTo animates to a position.
 *
 * Every method returns the events the panel triggers, in order; the
 * interval, the stop timeout and moveTo's timeouts are flags and lists of
 * pending runs, fired by Tick, FireStopTimer and AutoTick.
 */
module HorizontalPanel {
  import opened Wrappers
  import opened JsNumber
  import opened Timing
  import opened Cursors
  import opened Motion

  /** Steps of moveTo's easeOutExpo animation. */
  const AUTO_STEPS: int := 10
  /** Milliseconds between two moveTo steps. */
  const AUTO_FRAME_MS: int := 16
  /** Milliseconds after a pointer-down before `_stop` clears the interval. */
  const STOP_DELAY_MS: int := 100

  /** One pending moveTo animation: its cursor and the position its last step writes. */
  datatype AutoRun = AutoRun(cursor: Easing, goal: real)

  /** moveTo's target: the negated request, clamped into `[-right, 0]`. */
  function MoveGoal(target: real, right: int): (g: real)
    ensures right >= 0 ==> g <= 0.0
    ensures right >= 0 ==> -right as real <= g
    ensures -right as real <= -target <= 0.0 ==> g == -target
    ensures -target > 0.0 ==> g == 0.0
    ensures -target <= 0.0 && -target < -right as real ==> g == -right as real
  {
    var goal := -target;
    if goal > 0.0 then 0.0
    else if goal < -right as real then -right as real
    else goal
  }

  class HFixnel {
    var x: real
    var vy: real
    var accX: real
    var prevX: real
    var prevT: int
    var prevAccX: real
    var dragging: bool
    var bouncing: bool
    var bounce: Easing?
    var moving: bool
    /** `timer` holds a live interval. */
    var intervalActive: bool
    /** `stopTimer` holds a pending timeout. */
    var stopTimerPending: bool
    /**
     * Stop timeouts whose handle a later pointer-down overwrote: each still
     * fires and clears the interval, and nothing can cancel it.
     */
    var orphanStopTimers: nat
    var autoMoving: bool
    /** moveTo animations whose next timeout is pending, oldest first. */
    var runs: seq<AutoRun>
    /** `el.clientWidth`. */
    var contentWidth: int
    /** `parentEl.clientWidth`. */
    var containerWidth: int
    /** The easeOutExpo curve, which is not modelled arithmetically. */
    const expo: (real, real, real, real) -> real

    /** `_getRight()`: how far the content reaches past the container. */
    function Right(): int
      reads this
    {
      contentWidth - containerWidth
    }

    ghost function RunCursors(): set<Easing>
      reads this
    {
      set i | 0 <= i < |runs| :: runs[i].cursor
    }

    ghost predicate Valid()
      reads this, bounce, RunCursors()
    {
      && accX == prevAccX
      && (bounce != null <==> bouncing)
      && (bounce != null ==> bounce.d == BOUNCE_STEPS && bounce.t >= 0)
      && (forall i :: 0 <= i < |runs| ==> runs[i].cursor.d == AUTO_STEPS)
    }

    /** The state `_stopScrolling` leaves. */
    predicate Stopped()
      reads this
    {
      vy == 0.0 && !intervalActive && !moving && !bouncing && bounce == null
    }

    /**
     * What each interval tick lowers: the bounce cursor's remaining steps
     * while bouncing, otherwise more than any of those plus the velocity's rank.
     */
    ghost function Measure(): nat
      reads this, bounce
    {
      if bounce != null then bounce.Remaining() else BOUNCE_STEPS + 2 + Rank(vy)
    }

    twostate predicate DragKept()
      reads this
    {
      && accX == old(accX) && prevX == old(prevX) && prevT == old(prevT) && prevAccX == old(prevAccX)
      && dragging == old(dragging) && stopTimerPending == old(stopTimerPending) && orphanStopTimers == old(orphanStopTimers)
    }

    twostate predicate AutoKept()
      reads this
    {
      runs == old(runs) && autoMoving == old(autoMoving)
    }

    twostate predicate SizesKept()
      reads this
    {
      contentWidth == old(contentWidth) && containerWidth == old(containerWidth)
    }

    twostate predicate MotionKept()
      reads this
    {
      && x == old(x) && vy == old(vy) && bouncing == old(bouncing) && bounce == old(bounce)
      && moving == old(moving) && intervalActive == old(intervalActive)
    }

    constructor (content: int, container: int, expoCurve: (real, real, real, real) -> real)
      ensures Valid() && Stopped() && x == 0.0 && !dragging && !autoMoving && runs == []
      ensures contentWidth == content && containerWidth == container && expo == expoCurve
      ensures accX == 0.0 && prevX == 0.0 && prevT == 0 && !stopTimerPending && orphanStopTimers == 0
    {
      x, vy, accX, prevX, prevT, prevAccX := 0.0, 0.0, 0.0, 0.0, 0, 0.0;
      dragging, bouncing, bounce, moving := false, false, null, false;
      intervalActive, stopTimerPending, autoMoving, runs := false, false, false, [];
      orphanStopTimers := 0;
      contentWidth, containerWidth := content, container;
      expo := expoCurve;
    }

    /** `_setX`: writes the position and triggers `move` with it. */
    method SetX(v: real) returns (ev: seq<PanelEvent>)
      modifies this
      ensures x == v && ev == [PanelEvent.Move(Some(v))]
      ensures vy == old(vy) && bouncing == old(bouncing) && bounce == old(bounce)
      ensures moving == old(moving) && intervalActive == old(intervalActive)
      ensures DragKept() && AutoKept() && SizesKept()
    {
      x := v;
      ev := [PanelEvent.Move(Some(v))];
    }

    /** `_stopScrolling`. */
    method StopScrolling() returns (ev: seq<PanelEvent>)
      modifies this
      ensures Stopped() && ev == [MoveEnd] && x == old(x)
      ensures DragKept() && AutoKept() && SizesKept()
    {
      vy := 0.0;
      intervalActive := false;
      moving := false;
      bouncing := false;
      bounce := null;
      ev := [MoveEnd];
    }

    /** `getVX`: answers the velocity and stores its decayed successor. */
    method GetVX() returns (cur: real)
      modifies this
      ensures cur == old(vy) && vy == Decay(old(vy), DECAY) as real
      ensures old(vy) != 0.0 ==> Abs(vy) < Abs(old(vy))
      ensures old(vy) == 0.0 ==> vy == 0.0
      ensures x == old(x) && bouncing == old(bouncing) && bounce == old(bounce)
      ensures moving == old(moving) && intervalActive == old(intervalActive)
      ensures DragKept() && AutoKept() && SizesKept()
    {
      cur := vy;
      vy := Decay(vy, DECAY) as real;
    }

    /**
     * `getValue`: the next position of the coasting panel, or null when it
     * has come to rest (after stopping it). A resting panel outside the
     * range starts a 30-step easeOutExpo bounce from its truncated position
     * back to the nearer end; a moving one is clamped at the edges, and its
     * velocity decays.
     */
    method GetValue() returns (r: Option<int>, ev: seq<PanelEvent>)
      requires Valid()
      modifies this, bounce
      ensures Valid() && x == old(x) && DragKept() && AutoKept() && SizesKept()
      ensures old(bouncing) && old(bounce.Remaining()) == 0 ==> r.None? && Stopped() && ev == [MoveEnd]
      ensures old(bouncing) && old(bounce.Remaining()) > 0 ==>
                && bounce == old(bounce) && bounce.Remaining() == old(bounce.Remaining()) - 1
                && r == Some(OrZero(Eval(bounce.curve, old(bounce.t) as real, bounce.b, bounce.c, bounce.d as real)))
                && ev == [] && vy == old(vy) && moving == old(moving) && intervalActive == old(intervalActive)
      ensures !old(bouncing) && old(vy) == 0.0 && BounceTarget(old(x), Right() as real).None? ==>
                r.None? && Stopped() && ev == [MoveEnd]
      ensures !old(bouncing) && old(vy) == 0.0 && BounceTarget(old(x), Right() as real).Some? ==>
                && bouncing && fresh(bounce) && bounce.curve.Transcendental?
                && bounce.t == 0 && bounce.b == OrZero(old(x)) as real
                && bounce.b + bounce.c == BounceTarget(old(x), Right() as real).value
                && r == Some(OrZero(old(x))) && ev == [] && vy == 0.0
                && moving == old(moving) && intervalActive == old(intervalActive)
      ensures !old(bouncing) && old(vy) != 0.0 ==>
                var v := EdgeClamp(old(x), old(vy), -Right() as real);
                && r == Some(OrZero(old(x) + v)) && vy == Decay(v, DECAY) as real
                && !bouncing && ev == [] && moving == old(moving) && intervalActive == old(intervalActive)
    {
      if bouncing {
        r, ev := BounceValue();
        return;
      }
      ev := [];
      if vy == 0.0 {
        var stopped;
        stopped, ev := Settle();
        if stopped {
          return None, ev;
        }
      }
      r := Coast();
    }

    /** The bouncing branch of `getValue`: the bounce cursor's next value, or a stop once it is spent. */
    method BounceValue() returns (r: Option<int>, ev: seq<PanelEvent>)
      requires Valid() && bouncing
      modifies this, bounce
      ensures Valid() && x == old(x) && DragKept() && AutoKept() && SizesKept()
      ensures old(bounce.Remaining()) == 0 ==> r.None? && Stopped() && ev == [MoveEnd]
      ensures old(bounce.Remaining()) > 0 ==>
                && bounce == old(bounce) && bounce.Remaining() == old(bounce.Remaining()) - 1
                && r == Some(OrZero(Eval(bounce.curve, old(bounce.t) as real, bounce.b, bounce.c, bounce.d as real)))
                && ev == [] && vy == old(vy) && moving == old(moving) && intervalActive == old(intervalActive)
    {
      var ret := bounce.Next();
      if ret.None? {
        ev := StopScrolling();
        return None, ev;
      }
      return Some(OrZero(ret.value)), [];
    }

    /**
     * The resting branch of `getValue`: a panel outside the range starts a
     * bounce from its truncated position back to the nearer end; one inside
     * it stops.
     */
    method Settle() returns (stopped: bool, ev: seq<PanelEvent>)
      requires Valid() && !bouncing && vy == 0.0
      modifies this
      ensures Valid() && x == old(x) && DragKept() && AutoKept() && SizesKept()
      ensures stopped <==> BounceTarget(old(x), Right() as real).None?
      ensures stopped ==> Stopped() && ev == [MoveEnd]
      ensures !stopped ==>
                && bouncing && fresh(bounce) && bounce.curve.Transcendental?
                && bounce.t == 0 && bounce.b == OrZero(old(x)) as real
                && bounce.b + bounce.c == BounceTarget(old(x), Right() as real).value
                && ev == [] && vy == 0.0 && moving == old(moving) && intervalActive == old(intervalActive)
    {
      var bottom := -Right() as real;
      ev := [];
      stopped := false;
      if x > 0.0 {
        var b := OrZero(x);
        bounce := new Easing(Some(Transcendental(expo)), 0, b as real, 0.0 - b as real, BOUNCE_STEPS);
        bouncing := true;
      } else if x < bottom {
        var b := OrZero(x);
        bounce := new Easing(Some(Transcendental(expo)), 0, b as real, bottom - b as real, BOUNCE_STEPS);
        bouncing := true;
      } else {
        ev := StopScrolling();
        stopped := true;
      }
    }

    /**
     * The coasting part of `getValue`: the velocity is capped near an edge,
     * the answer is the truncated next position, and the stored velocity decays.
     */
    method Coast() returns (r: Option<int>)
      modifies this
      ensures var v := EdgeClamp(old(x), old(vy), -Right() as real);
              r == Some(OrZero(old(x) + v)) && vy == Decay(v, DECAY) as real
      ensures x == old(x) && bouncing == old(bouncing) && bounce == old(bounce)
      ensures moving == old(moving) && intervalActive == old(intervalActive)
      ensures DragKept() && AutoKept() && SizesKept()
    {
      var v0 := vy;
      if x + v0 > 0.0 {
        vy := if v0 > EDGE_SPEED then EDGE_SPEED else v0;
      }
      if x - v0 < -Right() as real {
        vy := if v0 < -EDGE_SPEED then -EDGE_SPEED else v0;
      }
      var cur := GetVX();
      r := Some(OrZero(x + cur));
    }

    /**
     * One callback of the interval `_scrolling` starts: a null value stops
     * the panel (a second time, so `moveend` is triggered twice), any other
     * value is written. Each tick that keeps the interval alive lowers
     * Measure(), so the panel always comes to rest.
     */
    method Tick() returns (ev: seq<PanelEvent>)
      requires Valid() && intervalActive
      modifies this, bounce
      ensures Valid() && DragKept() && AutoKept() && SizesKept()
      ensures !intervalActive <==> Stopped()
      ensures !intervalActive ==> x == old(x) && ev == [MoveEnd, MoveEnd]
      ensures intervalActive ==> Measure() < old(Measure()) && ev == [PanelEvent.Move(Some(x))] && x == x.Floor as real
      ensures intervalActive && !old(bouncing) && old(vy) != 0.0 ==>
                x == OrZero(old(x) + EdgeClamp(old(x), old(vy), -Right() as real)) as real
      ensures intervalActive && !old(bouncing) && old(vy) == 0.0 ==> x == OrZero(old(x)) as real && bouncing
      ensures old(bouncing) && old(bounce.Remaining()) > 0 ==> intervalActive
      ensures !old(bouncing) && old(vy) != 0.0 ==> intervalActive
    {
      ghost var before := Measure();
      var value, ev0 := GetValue();
      if value.None? {
        var ev1 := StopScrolling();
        return ev0 + ev1;
      }
      if !old(bouncing) && old(vy) != 0.0 {
        MomentumStepSlows(old(x), old(vy), -Right() as real);
      }
      ev := SetX(value.value as real);
      assert x.Floor == value.value;
    }

    /** `_scrolling`: replaces the interval with a fresh one (the panel is now moving). */
    method Scrolling()
      modifies this
      ensures moving && intervalActive
      ensures x == old(x) && vy == old(vy) && bouncing == old(bouncing) && bounce == old(bounce)
      ensures DragKept() && AutoKept() && SizesKept()
    {
      moving := true;
      intervalActive := true;
    }

    /**
     * `_stop`, the second pointer-down listener: schedules the interval's
     * cancellation. The handle of a timeout still pending is overwritten
     * without being cleared, so that timeout becomes an orphan.
     */
    method Stop()
      modifies this
      ensures stopTimerPending
      ensures orphanStopTimers == old(orphanStopTimers) + (if old(stopTimerPending) then 1 else 0)
      ensures MotionKept() && AutoKept() && SizesKept()
      ensures accX == old(accX) && prevX == old(prevX) && prevT == old(prevT)
      ensures prevAccX == old(prevAccX) && dragging == old(dragging)
    {
      if stopTimerPending {
        orphanStopTimers := orphanStopTimers + 1;
      }
      stopTimerPending := true;
    }

    /**
     * The stop timeout fires: it clears the interval and nothing else, so the
     * panel keeps `moving`, its velocity and its bounce, and no `moveend` is
     * triggered.
     */
    method FireStopTimer()
      requires stopTimerPending
      modifies this
      ensures !intervalActive && !stopTimerPending && orphanStopTimers == old(orphanStopTimers)
      ensures x == old(x) && vy == old(vy) && bouncing == old(bouncing) && bounce == old(bounce) && moving == old(moving)
      ensures AutoKept() && SizesKept()
      ensures accX == old(accX) && prevX == old(prevX) && prevT == old(prevT)
      ensures prevAccX == old(prevAccX) && dragging == old(dragging)
    {
      stopTimerPending := false;
      intervalActive := false;
    }

    /**
     * An orphaned stop timeout fires: it clears whatever interval `timer`
     * holds by now, even one a later release started, and leaves the
     * current handle alone.
     */
    method FireOrphanStopTimer()
      requires orphanStopTimers > 0
      modifies this
      ensures !intervalActive && orphanStopTimers == old(orphanStopTimers) - 1
      ensures stopTimerPending == old(stopTimerPending)
      ensures x == old(x) && vy == old(vy) && bouncing == old(bouncing) && bounce == old(bounce) && moving == old(moving)
      ensures AutoKept() && SizesKept()
      ensures accX == old(accX) && prevX == old(prevX) && prevT == old(prevT)
      ensures prevAccX == old(prevAccX) && dragging == old(dragging)
    {
      orphanStopTimers := orphanStopTimers - 1;
      intervalActive := false;
    }

    /**
     * `_down`: ignored during a moveTo animation; a bouncing panel is snapped
     * to the end it was bouncing toward and stopped; then the drag starts.
     */
    method Down(pageX: real, now: int) returns (ev: seq<PanelEvent>)
      requires Valid()
      modifies this
      ensures Valid() && AutoKept() && SizesKept()
      ensures old(autoMoving) ==> ev == [] && MotionKept() && DragKept()
      ensures !old(autoMoving) && old(bouncing) ==>
                var snap := if old(x) < 0.0 then -Right() as real else 0.0;
                x == snap && Stopped() && ev == [PanelEvent.Move(Some(snap)), MoveEnd, MoveStart]
      ensures !old(autoMoving) && !old(bouncing) ==> MotionKept() && ev == [MoveStart]
      ensures !old(autoMoving) ==>
                && dragging && prevX == pageX && prevT == now
                && accX == old(accX) && prevAccX == old(prevAccX) && stopTimerPending == old(stopTimerPending) && orphanStopTimers == old(orphanStopTimers)
    {
      if autoMoving {
        return [];
      }
      ev := [];
      if bouncing {
        var snapped;
        if x < 0.0 {
          snapped := SetX(-Right() as real);
        } else {
          snapped := SetX(0.0);
        }
        var stopped := StopScrolling();
        ev := snapped + stopped;
      }
      dragging := true;
      ev := ev + [MoveStart];
      prevX := pageX;
      prevT := now;
    }

    /**
     * `_move`: while dragging, cancels the stop timeout, takes one sample of
     * the pointer and follows it; a position past either end only moves by
     * half the distance (truncated). The accumulator always equals the last
     * sample, so the velocity is the distance just moved, reversed.
     */
    method Move(pageX: real, now: int) returns (ev: seq<PanelEvent>)
      requires Valid()
      modifies this
      ensures Valid() && AutoKept() && SizesKept()
      ensures !old(dragging) ==> ev == [] && MotionKept() && DragKept()
      ensures old(dragging) ==>
                var s := DragKinematics(old(prevX), old(prevT), old(prevAccX), old(accX), pageX, now);
                var next := old(x) - s.dist;
                && x == (if next > 0.0 || next < -Right() as real then old(x) - OrZero(s.dist / 2.0) as real else next)
                && vy == pageX - old(prevX)
                && accX == s.sample && prevAccX == s.sample && prevX == pageX && prevT == now
                && !stopTimerPending && orphanStopTimers == old(orphanStopTimers)
                && dragging && ev == [PanelEvent.Move(Some(x))]
                && bouncing == old(bouncing) && bounce == old(bounce)
                && moving == old(moving) && intervalActive == old(intervalActive)
    {
      if !dragging {
        return [];
      }
      stopTimerPending := false;
      var oldX := x;
      var s := DragKinematics(prevX, prevT, prevAccX, accX, pageX, now);
      DragVelocity(prevX, prevT, accX, pageX, now);
      var nextPos := oldX - s.dist;
      accX := s.acc;
      vy := s.vy;
      if nextPos > 0.0 || nextPos < -Right() as real {
        nextPos := oldX - OrZero(s.dist / 2.0) as real;
      }
      ev := SetX(nextPos);
      prevT := now;
      prevX := pageX;
      prevAccX := s.sample;
    }

    /** `_up`: a drag's release starts the coasting interval. */
    method Up() returns (ev: seq<PanelEvent>)
      requires Valid()
      modifies this
      ensures Valid() && ev == [] && AutoKept() && SizesKept()
      ensures !old(dragging) ==> MotionKept() && DragKept()
      ensures old(dragging) ==>
                && !dragging && moving && intervalActive
                && x == old(x) && vy == old(vy) && bouncing == old(bouncing) && bounce == old(bounce)
                && accX == old(accX) && prevX == old(prevX) && prevT == old(prevT)
                && prevAccX == old(prevAccX) && stopTimerPending == old(stopTimerPending) && orphanStopTimers == old(orphanStopTimers)
    {
      ev := [];
      if !dragging {
        return;
      }
      dragging := false;
      Scrolling();
    }

    /**
     * `moveTo(target, opt)`: `target == None` stands for a falsy value other
     * than 0, which is ignored. The goal is the negated target clamped into
     * range; with `animOff` it is written at once, otherwise a 10-step
     * easeOutExpo run starts from the current position, writes its first
     * value now and is queued for its next timeout.
     */
    method MoveTo(target: Option<real>, animOff: bool) returns (ev: seq<PanelEvent>)
      requires Valid()
      modifies this
      ensures Valid() && DragKept() && SizesKept()
      ensures vy == old(vy) && bouncing == old(bouncing) && bounce == old(bounce)
      ensures moving == old(moving) && intervalActive == old(intervalActive)
      ensures target.None? ==> ev == [] && x == old(x) && AutoKept()
      ensures target.Some? && animOff ==>
                var goal := MoveGoal(target.value, Right());
                x == goal && ev == [PanelEvent.Move(Some(goal))] && AutoKept()
      ensures target.Some? && !animOff ==>
                var goal := MoveGoal(target.value, Right());
                && autoMoving && |runs| == |old(runs)| + 1 && runs[..|old(runs)|] == old(runs)
                && var run := runs[|old(runs)|];
                && fresh(run.cursor) && run.goal == goal && run.cursor.curve.Transcendental?
                && run.cursor.b == old(x) && run.cursor.b + run.cursor.c == goal
                && run.cursor.t == 1 && run.cursor.Remaining() == AUTO_STEPS
                && x == Eval(run.cursor.curve, 0.0, old(x), goal - old(x), AUTO_STEPS as real)
                && ev == [PanelEvent.Move(Some(x))]
    {
      if target.None? {
        return [];
      }
      var goal := MoveGoal(target.value, Right());
      if animOff {
        ev := SetX(goal);
        return;
      }
      var easing := new Easing(Some(Transcendental(expo)), 0, x, goal - x, AUTO_STEPS);
      autoMoving := true;
      var val := easing.Next();
      ev := SetX(val.value);
      runs := runs + [AutoRun(easing, goal)];
      assert runs[|runs| - 1].cursor == easing;
    }

    /**
     * The pending timeout of run `i` fires: it writes the cursor's next
     * value and waits again, or, once the cursor is exhausted, writes the
     * goal exactly, leaves the queue and clears `autoMoving` (even while
     * another run is still pending).
     */
    method AutoTick(i: nat) returns (ev: seq<PanelEvent>)
      requires Valid() && i < |runs|
      modifies this, runs[i].cursor
      ensures Valid() && DragKept() && SizesKept()
      ensures vy == old(vy) && bouncing == old(bouncing) && bounce == old(bounce)
      ensures moving == old(moving) && intervalActive == old(intervalActive)
      ensures ev == [PanelEvent.Move(Some(x))]
      ensures old(runs[i].cursor.Remaining()) == 0 ==>
                x == old(runs[i].goal) && !autoMoving && runs == old(runs[..i] + runs[i + 1..])
      ensures old(runs[i].cursor.Remaining()) > 0 ==>
                var c := old(runs[i].cursor);
                && runs == old(runs) && autoMoving == old(autoMoving)
                && c.Remaining() == old(c.Remaining()) - 1
                && x == Eval(c.curve, old(c.t) as real, c.b, c.c, c.d as real)
    {
      var run := runs[i];
      var val := run.cursor.Next();
      if val.None? {
        runs := runs[..i] + runs[i + 1..];
        ev := SetX(run.goal);
        autoMoving := false;
        return;
      }
      ev := SetX(val.value);
    }

    /**
     * `update` (the resize listener), with the new sizes as arguments: pulls
     * a panel that now lies past the end back to it, then triggers `update`.
     */
    method Update(content: int, container: int) returns (ev: seq<PanelEvent>)
      requires Valid()
      modifies this
      ensures Valid() && DragKept() && AutoKept()
      ensures contentWidth == content && containerWidth == container
      ensures vy == old(vy) && bouncing == old(bouncing) && bounce == old(bounce)
      ensures moving == old(moving) && intervalActive == old(intervalActive)
      ensures -Right() as real > old(x) ==> x == -Right() as real && ev == [PanelEvent.Move(Some(x)), PanelEvent.Update]
      ensures -Right() as real <= old(x) ==> x == old(x) && ev == [PanelEvent.Update]
    {
      contentWidth, containerWidth := content, container;
      ev := CheckOverflow();
      ev := ev + [PanelEvent.Update];
    }

    /** `_checkOverflow`: a panel that lies past the end is moved back to it. */
    method CheckOverflow() returns (ev: seq<PanelEvent>)
      modifies this
      ensures x == (if -Right() as real > old(x) then -Right() as real else old(x))
      ensures -Right() as real <= x
      ensures -Right() as real > old(x) ==> ev == [PanelEvent.Move(Some(x))]
      ensures -Right() as real <= old(x) ==> ev == []
      ensures vy == old(vy) && bouncing == old(bouncing) && bounce == old(bounce)
      ensures moving == old(moving) && intervalActive == old(intervalActive)
      ensures DragKept() && AutoKept() && SizesKept()
    {
      ev := [];
      if -Right() as real > x {
        ev := SetX(-(contentWidth - containerWidth) as real);
      }
    }
  }

  /**
   * Two pointer-downs less than 100 ms apart, then a drag and a release:
   * the move cancels only the second stop timeout, the first one fires
   * during the coast and clears its interval, and the panel is left
   * `moving` with its velocity but no interval and no `moveend`.
   */
  method CoastCutShort() returns (p: HFixnel)
    ensures p.moving && !p.intervalActive && p.vy == -40.0 && p.x == -40.0
    ensures !p.stopTimerPending && p.orphanStopTimers == 0
  {
    p := new HFixnel(1000, 500, (t, b, c, d) => b + c);
    p.Stop();
    var ev := p.Down(100.0, 0);
    ev := p.Up();
    p.Stop();
    ev := p.Down(100.0, 50);
    ev := p.Move(60.0, 66);
    ev := p.Up();
    p.FireOrphanStopTimer();
  }
}
