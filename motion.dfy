/**
 * The arithmetic every revision of the panel shares: the drag kinematics of
 * the pointer-move handlers, the velocity decay of getVY/getVX, the two
 * +-10 edge clamps of getValue, and the edge a settled panel bounces to.
 */
module Motion {
  import opened Wrappers
  import opened JsNumber

  /** What a panel announces through its dispatcher. */
  datatype PanelEvent = Move(value: Option<real>) | MoveStart | MoveEnd | Update

  /** Divisor of the velocity decay in src/hfixnel.js, src/fixnel.js and src/main.js. */
  const DECAY: real := 30.0
  /** Divisor of the velocity decay in the root main.js. */
  const DECAY_FIRST: real := 40.0
  /** Steps of the edge-bounce cursor (`DURATION`). */
  const BOUNCE_STEPS: int := 30
  /** Largest speed getValue lets through when the next position crosses an edge. */
  const EDGE_SPEED: real := 10.0

  function Ceil(r: real): int {
    -((-r).Floor)
  }

  /** `vy - (vy / k) << 0`: the velocity left after one getVY/getVX call. */
  function Decay(vy: real, k: real): (w: int)
    requires k >= 1.0
    ensures vy == 0.0 ==> w == 0
    ensures vy != 0.0 ==> Abs(w as real) < Abs(vy)
  {
    var left := vy - vy / k;
    assert vy != 0.0 ==> Abs(left) < Abs(vy) by {
      if vy > 0.0 {
        assert 0.0 < vy / k <= vy;
      } else if vy < 0.0 {
        assert vy <= vy / k < 0.0;
      }
    }
    OrZero(left)
  }

  /** The velocity after `n` consecutive decays. */
  function DecayN(vy: real, k: real, n: nat): real
    requires k >= 1.0
    decreases n
  {
    if n == 0 then vy else DecayN(Decay(vy, k) as real, k, n - 1)
  }

  /**
   * A well-founded rank of a velocity: it drops whenever the magnitude drops
   * to an integer, which is what every decay produces.
   */
  function Rank(v: real): nat {
    var a := Abs(v);
    2 * a.Floor + (if a == a.Floor as real then 0 else 1)
  }

  /** The magnitude of an integer, as an integer. */
  function IntAbs(w: int): (m: nat)
    ensures m as real == Abs(w as real)
  {
    if w < 0 then -w else w
  }

  /** An integer strictly below a real is at most that real's ceiling minus one. */
  lemma BelowCeil(m: int, a: real)
    requires m as real < a
    ensures m <= Ceil(a) - 1
  {
    assert (-a).Floor as real <= -a;
  }

  /** An integer velocity strictly slower than `v` has a smaller rank. */
  lemma RankDrops(w: int, v: real)
    requires Abs(w as real) < Abs(v)
    ensures Rank(w as real) < Rank(v)
  {
    var a := Abs(v);
    var m := IntAbs(w);
    assert (m as real).Floor == m;
    assert Rank(w as real) == 2 * m;
    assert a.Floor as real <= a < a.Floor as real + 1.0;
    assert m <= a.Floor;
    if a == a.Floor as real {
      assert m < a.Floor;
    }
  }

  /**
   * Momentum dies out: whatever the starting velocity, ceil(|vy|) decays
   * bring it to exactly 0, and it stays 0.
   */
  lemma {:induction false} MomentumStops(vy: real, k: real, n: nat)
    requires k >= 1.0 && n >= Ceil(Abs(vy))
    ensures DecayN(vy, k, n) == 0.0
    decreases n
  {
    if n > 0 {
      var w := Decay(vy, k);
      if vy == 0.0 {
        MomentumStops(0.0, k, n - 1);
      } else {
        var m := IntAbs(w);
        BelowCeil(m, Abs(vy));
        assert Ceil(m as real) == m by {
          assert (-(m as real)).Floor == -(m as int);
        }
        MomentumStops(w as real, k, n - 1);
      }
    } else {
      assert (-Abs(vy)).Floor as real <= -Abs(vy);
      assert Abs(vy) <= 0.0;
    }
  }

  /**
   * The two clamps of getValue: the first caps at +10 when `x + vy` passes 0,
   * the second caps at -10 when `x - vy` passes the far edge; both test the
   * velocity as it was before either clamp, so the second overwrites the first.
   */
  function EdgeClamp(x: real, vy: real, bottom: real): (r: real)
    ensures Abs(r) <= Abs(vy)
    ensures r == vy || r == EDGE_SPEED || r == -EDGE_SPEED
    ensures x - vy < bottom ==> r == (if vy < -EDGE_SPEED then -EDGE_SPEED else vy)
    ensures x - vy >= bottom && x + vy > 0.0 ==> r == (if vy > EDGE_SPEED then EDGE_SPEED else vy)
    ensures x - vy >= bottom && x + vy <= 0.0 ==> r == vy
  {
    var first := if x + vy > 0.0 then (if vy > EDGE_SPEED then EDGE_SPEED else vy) else vy;
    if x - vy < bottom then (if vy < -EDGE_SPEED then -EDGE_SPEED else vy) else first
  }

  /**
   * One momentum tick slows the panel: clamping at an edge and then decaying
   * a nonzero velocity always lowers its rank.
   */
  lemma MomentumStepSlows(x: real, vy: real, bottom: real)
    requires vy != 0.0
    ensures Rank(Decay(EdgeClamp(x, vy, bottom), DECAY) as real) < Rank(vy)
  {
    var v := EdgeClamp(x, vy, bottom);
    var w := Decay(v, DECAY);
    assert v != 0.0;
    assert Abs(w as real) < Abs(v) <= Abs(vy);
    RankDrops(w, vy);
  }

  /** The result of one pointer-move sample. */
  datatype DragStep = DragStep(dt: int, dist: real, sample: real, acc: real, vy: real)

  /**
   * The kinematics of `_move`/`mousemove`: `dt` (a zero interval counts as 1),
   * `dist = prev - page`, the sample `dist / dt`, the accumulator updated by
   * `(sample - prevAcc) / dt * dt`, and the velocity `-acc * dt`.
   */
  function DragKinematics(prevPos: real, prevT: int, prevAcc: real, acc: real, page: real, now: int): (s: DragStep)
    ensures s.dt != 0 && s.dt == (if now == prevT then 1 else now - prevT)
    ensures s.dist == prevPos - page
    ensures s.sample * (s.dt as real) == s.dist
    ensures s.acc == acc + (s.sample - prevAcc)
    ensures acc == prevAcc ==> s.acc == s.sample
    ensures s.vy == -s.acc * (s.dt as real)
  {
    var t := if now - prevT == 0 then 1 else now - prevT;
    var dist := prevPos - page;
    var sample := dist / (t as real);
    var jerk := (sample - prevAcc) / (t as real);
    var acc' := acc + jerk * (t as real);
    DragStep(t, dist, sample, acc', -acc' * (t as real))
  }

  /**
   * While the accumulator equals the previous sample, the velocity a drag
   * sample produces is exactly the distance moved, reversed: `page - prevPos`.
   */
  lemma DragVelocity(prevPos: real, prevT: int, acc: real, page: real, now: int)
    ensures DragKinematics(prevPos, prevT, acc, acc, page, now).vy == page - prevPos
  {
    var s := DragKinematics(prevPos, prevT, acc, acc, page, now);
    assert s.acc == s.sample;
    assert s.vy == -(s.sample * (s.dt as real));
  }

  /**
   * Two samples 16 ms apart, at 100 and then at 84, from rest: the sample is
   * +1 (the distance is measured previous minus current), and the velocity is
   * -16, so the next momentum tick moves the content 16 further toward the end.
   */
  lemma DragSampleScenario()
    ensures var s := DragKinematics(100.0, 0, 0.0, 0.0, 84.0, 16);
            s.dt == 16 && s.dist == 16.0 && s.sample == 1.0 && s.acc == 1.0 && s.vy == -16.0
  {
    var s := DragKinematics(100.0, 0, 0.0, 0.0, 84.0, 16);
    assert s.sample * 16.0 == 16.0;
  }

  /**
   * Where a panel resting at `pos` with no velocity goes: `Some(0)` past the
   * start, `Some(-right)` past the end, `None` when it is in bounds.
   */
  function BounceTarget(pos: real, right: real): (r: Option<real>)
    ensures r.None? <==> -right <= pos <= 0.0
    ensures pos > 0.0 ==> r == Some(0.0)
    ensures pos <= 0.0 && pos < -right ==> r == Some(-right)
  {
    if pos > 0.0 then Some(0.0) else if pos < -right then Some(-right) else None
  }
}
