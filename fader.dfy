/**
 * The Fader of src/hfixnel.js: drives the scrollbar's opacity to 1 (fadeIn)
 * or 0 (fadeOut) with an easeOutQuad cursor, one step now and one step per
 * 32 ms timeout after that, and hides the bar after a delay (delayFadeOut).
 * The two setTimeout callbacks are the methods FadeTick and FireWait; the
 * pending timeouts are the flags fadeTimerPending and waitTimerPending.
 */
module Fading {
  import opened Wrappers
  import opened Timing
  import opened Cursors

  const DEFAULT_DURATION: int := 30
  const DEFAULT_DELAY: int := 500
  /** Milliseconds between two fade steps (`Fader.FPS`). */
  const FRAME_MS: int := 32

  datatype Mode = NotFading | FadingOut | FadingIn | Waiting

  /** `easing.getValue() || b`: the in-flight cursor's next value unless it is null or 0. */
  function FadeStart(inflight: Option<real>, nominal: real): real {
    if inflight.Some? && inflight.value != 0.0 then inflight.value else nominal
  }

  /** A fade cursor as `_fade` builds it: easeOutQuad over 30 steps between two opacities. */
  ghost predicate FadeCursor(e: Easing)
    reads e
  {
    && e.Valid() && e.curve.OutQuad? && e.d == DEFAULT_DURATION && e.t >= 0
    && 0.0 <= e.b <= 1.0 && (e.b + e.c == 0.0 || e.b + e.c == 1.0)
  }

  /** Every value a fade cursor answers is an opacity. */
  lemma FadeValueIsOpacity(e: Easing)
    requires FadeCursor(e) && e.t <= e.d
    ensures 0.0 <= EaseOutQuad(e.t as real, e.b, e.c, e.d as real) <= 1.0
  {
    OutQuadBetween(e.t as real, e.b, e.c, e.d as real);
  }

  /**
   * A fade started from the in-flight value is continuous at both ends:
   * its first value is that start and its last eased value is the target.
   */
  lemma ContinuousFade(inflight: Option<real>, nominal: real, target: real)
    ensures var start := FadeStart(inflight, nominal);
            && Eval(OutQuad, 0.0, start, target - start, DEFAULT_DURATION as real) == start
            && Eval(OutQuad, DEFAULT_DURATION as real, start, target - start, DEFAULT_DURATION as real) == target
  {
  }

  class Fader {
    var fadeState: Mode
    /** The target element's `style.opacity`. */
    var opacity: real
    /** `this.easing`: the cursor of the last fade, null once a fade has finished. */
    var easing: Easing?
    /** The opacity the running `ease` closure writes when its cursor is exhausted. */
    var fadeTarget: real
    var fadeTimerPending: bool
    var waitTimerPending: bool
    var waitDelay: int

    ghost predicate Valid()
      reads this, easing
    {
      && 0.0 <= opacity <= 1.0
      && (easing != null ==> FadeCursor(easing))
      && (fadeTimerPending ==>
            && easing != null && easing.b + easing.c == fadeTarget
            && ((fadeState == FadingIn && fadeTarget == 1.0) || (fadeState == FadingOut && fadeTarget == 0.0)))
    }

    /** What the next `easing.getValue()` would answer (null when there is no cursor). */
    ghost function InflightNext(): Option<real>
      reads this, easing
      requires easing != null ==> easing.Valid()
    {
      if easing == null then None else ValueAt(easing.curve, easing.t, easing.b, easing.c, easing.d)
    }

    /**
     * A fade that can no longer finish, with no step pending: either the bar
     * sits at opacity 0 in FADE_IN (fadeIn stops at its direction check and
     * fadeOut at its opacity check, so it never becomes visible again), or
     * at opacity 1 in FADE_OUT (fadeOut stops at its direction check and
     * fadeIn at its opacity check, so it never hides again).
     */
    predicate Frozen()
      reads this
    {
      && !fadeTimerPending
      && ((fadeState == FadingIn && opacity == 0.0) || (fadeState == FadingOut && opacity == 1.0))
    }

    /** Every fade the state announces has its next step pending. */
    predicate Progressing()
      reads this
    {
      (fadeState == FadingIn || fadeState == FadingOut) ==> fadeTimerPending
    }

    constructor (initialOpacity: real)
      requires 0.0 <= initialOpacity <= 1.0
      ensures Valid() && fadeState == NotFading && opacity == initialOpacity && easing == null
      ensures !fadeTimerPending && !waitTimerPending
    {
      fadeState := NotFading;
      opacity := initialOpacity;
      easing := null;
      fadeTarget := 0.0;
      fadeTimerPending, waitTimerPending := false, false;
      waitDelay := 0;
    }

    /**
     * A call of fadeIn (target 1, nominal start 0) or fadeOut (target 0,
     * nominal start 1): both timers are cancelled; a call in the fade's own
     * direction, or at an opacity already equal to the target, stops there and
     * leaves a running fade frozen; otherwise a fresh cursor starts from the
     * in-flight cursor's next value (or the nominal start) and its first value,
     * the start itself, is written at once.
     */
    twostate predicate FadeCalled(dir: Mode, nominal: real, target: real)
      requires old(Valid())
      reads this, easing
    {
      && !waitTimerPending && waitDelay == old(waitDelay)
      && (old(fadeState) == dir || old(opacity) == target ==>
            && !fadeTimerPending && fadeState == old(fadeState) && opacity == old(opacity)
            && easing == old(easing) && (easing != null ==> easing.t == old(easing.t)))
      && (old(fadeState) != dir && old(opacity) != target ==>
            var start := FadeStart(old(InflightNext()), nominal);
            && fadeState == dir && fresh(easing) && easing.curve.OutQuad?
            && easing.b == start && easing.c == target - start && easing.t == 1
            && opacity == start && fadeTimerPending && fadeTarget == target)
    }

    method FadeIn()
      requires Valid()
      modifies this, easing
      ensures Valid() && FadeCalled(FadingIn, 0.0, 1.0)
      ensures old(Frozen()) ==> Frozen()
    {
      ClearTimers();
      if fadeState == FadingIn {
        return;
      }
      if opacity == 1.0 {
        return;
      }
      fadeState := FadingIn;
      Fade(0.0, 1.0);
    }

    method FadeOut()
      requires Valid()
      modifies this, easing
      ensures Valid() && FadeCalled(FadingOut, 1.0, 0.0)
      ensures old(Frozen()) ==> Frozen()
    {
      ClearTimers();
      if fadeState == FadingOut {
        return;
      }
      if opacity == 0.0 {
        return;
      }
      fadeState := FadingOut;
      Fade(1.0, 0.0);
    }

    /** `_clearTimer`: cancels the pending hide and the pending fade step. */
    method ClearTimers()
      requires Valid()
      modifies this
      ensures Valid() && !waitTimerPending && !fadeTimerPending
      ensures fadeState == old(fadeState) && opacity == old(opacity) && easing == old(easing)
      ensures fadeTarget == old(fadeTarget) && waitDelay == old(waitDelay)
    {
      waitTimerPending := false;
      fadeTimerPending := false;
    }

    /** `_fade(b, f)`: replaces the cursor and runs its first step at once. */
    method Fade(nominal: real, target: real)
      requires Valid() && !fadeTimerPending && 0.0 <= nominal <= 1.0
      requires (fadeState == FadingIn && target == 1.0) || (fadeState == FadingOut && target == 0.0)
      modifies this, easing
      ensures Valid()
      ensures var start := FadeStart(old(InflightNext()), nominal);
              && fresh(easing) && easing.curve.OutQuad? && easing.b == start && easing.c == target - start
              && easing.t == 1 && opacity == start && fadeTimerPending && fadeTarget == target
      ensures fadeState == old(fadeState) && waitTimerPending == old(waitTimerPending) && waitDelay == old(waitDelay)
    {
      var b := nominal;
      if easing != null {
        if easing.t <= easing.d {
          FadeValueIsOpacity(easing);
        }
        var v := easing.Next();
        b := FadeStart(v, nominal);
      }
      var c := target - b;
      easing := new Easing(Some(OutQuad), 0, b, c, DEFAULT_DURATION);
      fadeTarget := target;
      Ease();
    }

    /**
     * The `ease` closure: write the cursor's next value and schedule the next
     * step, or, once the cursor is exhausted, write exactly the target, drop
     * the cursor and return to NOT_FADE.
     */
    method Ease()
      requires Valid() && easing != null && easing.b + easing.c == fadeTarget
      requires (fadeState == FadingIn && fadeTarget == 1.0) || (fadeState == FadingOut && fadeTarget == 0.0)
      modifies this, easing
      ensures Valid()
      ensures old(easing.Remaining()) == 0 ==>
                easing == null && !fadeTimerPending && opacity == fadeTarget && fadeState == NotFading
      ensures old(easing.Remaining()) > 0 ==>
                && easing == old(easing) && easing.Remaining() == old(easing.Remaining()) - 1
                && opacity == EaseOutQuad(old(easing.t) as real, easing.b, easing.c, easing.d as real)
                && fadeTimerPending && fadeState == old(fadeState)
      ensures fadeTarget == old(fadeTarget) && waitTimerPending == old(waitTimerPending) && waitDelay == old(waitDelay)
    {
      if easing.t <= easing.d {
        FadeValueIsOpacity(easing);
      }
      var val := easing.Next();
      if val.None? {
        easing := null;
        fadeTimerPending := false;
        opacity := fadeTarget;
        fadeState := NotFading;
        return;
      }
      opacity := val.value;
      fadeTimerPending := true;
    }

    /** The pending fade step's timeout fires. */
    method FadeTick()
      requires Valid() && fadeTimerPending
      modifies this, easing
      ensures Valid()
      ensures old(easing.Remaining()) == 0 ==>
                easing == null && !fadeTimerPending && opacity == old(fadeTarget) && fadeState == NotFading
      ensures old(easing.Remaining()) > 0 ==>
                && easing == old(easing) && easing.Remaining() == old(easing.Remaining()) - 1
                && opacity == EaseOutQuad(old(easing.t) as real, easing.b, easing.c, easing.d as real)
                && fadeTimerPending && fadeState == old(fadeState)
      ensures waitTimerPending == old(waitTimerPending) && waitDelay == old(waitDelay)
    {
      fadeTimerPending := false;
      Ease();
    }

    /** `delayFadeOut(ms)`: replaces any pending hide; a missing or zero delay means 500 ms. */
    method DelayFadeOut(ms: int)
      requires Valid()
      modifies this
      ensures Valid() && waitTimerPending && waitDelay == (if ms == 0 then DEFAULT_DELAY else ms)
      ensures fadeState == old(fadeState) && opacity == old(opacity) && easing == old(easing)
      ensures fadeTimerPending == old(fadeTimerPending) && fadeTarget == old(fadeTarget)
    {
      waitDelay := if ms == 0 then DEFAULT_DELAY else ms;
      waitTimerPending := true;
    }

    /**
     * The pending hide fires. Its guard compares the style string with the
     * number 0 (`=== 0`), which never holds, so it always calls fadeOut.
     */
    method FireWait()
      requires Valid() && waitTimerPending
      modifies this, easing
      ensures Valid() && FadeCalled(FadingOut, 1.0, 0.0)
    {
      waitTimerPending := false;
      FadeOut();
    }

    /**
     * fadeIn with its checks before the cancellation, as the direction check
     * evidently intends: a call while fading in, or while resting at opacity
     * 1, only cancels the pending hide and leaves the bar as it is; a running
     * fade-out is always reversed, whatever its current opacity. Afterwards
     * the bar is never fading out: it rests at opacity 1 or fades in toward 1
     * with its next step pending.
     */
    method FadeInChecked()
      requires Valid() && Progressing()
      modifies this, easing
      ensures Valid() && Progressing() && !waitTimerPending && !Frozen()
      ensures fadeState != FadingOut
      ensures (fadeState == FadingIn && fadeTimerPending && fadeTarget == 1.0) || opacity == 1.0
      ensures old(fadeState) == FadingIn || (old(fadeState) != FadingOut && old(opacity) == 1.0) ==>
                && fadeState == old(fadeState) && opacity == old(opacity) && easing == old(easing)
                && fadeTimerPending == old(fadeTimerPending)
      ensures old(fadeState) == FadingOut || (old(fadeState) != FadingIn && old(opacity) != 1.0) ==>
                var start := FadeStart(old(InflightNext()), 0.0);
                && fadeState == FadingIn && fresh(easing) && easing.b == start && easing.c == 1.0 - start
                && opacity == start && fadeTarget == 1.0 && fadeTimerPending
    {
      waitTimerPending := false;
      if fadeState == FadingIn || (fadeState != FadingOut && opacity == 1.0) {
        return;
      }
      fadeTimerPending := false;
      fadeState := FadingIn;
      Fade(0.0, 1.0);
    }

    /**
     * fadeOut with the same correction: a running fade-in is always
     * reversed. Afterwards the bar is never fading in: it rests at opacity 0
     * or fades out toward 0 with its next step pending.
     */
    method FadeOutChecked()
      requires Valid() && Progressing()
      modifies this, easing
      ensures Valid() && Progressing() && !waitTimerPending && !Frozen()
      ensures fadeState != FadingIn
      ensures (fadeState == FadingOut && fadeTimerPending && fadeTarget == 0.0) || opacity == 0.0
      ensures old(fadeState) == FadingOut || (old(fadeState) != FadingIn && old(opacity) == 0.0) ==>
                && fadeState == old(fadeState) && opacity == old(opacity) && easing == old(easing)
                && fadeTimerPending == old(fadeTimerPending)
      ensures old(fadeState) == FadingIn || (old(fadeState) != FadingOut && old(opacity) != 0.0) ==>
                var start := FadeStart(old(InflightNext()), 1.0);
                && fadeState == FadingOut && fresh(easing) && easing.b == start && easing.c == 0.0 - start
                && opacity == start && fadeTarget == 0.0 && fadeTimerPending
    {
      waitTimerPending := false;
      if fadeState == FadingOut || (fadeState != FadingIn && opacity == 0.0) {
        return;
      }
      fadeTimerPending := false;
      fadeState := FadingOut;
      Fade(1.0, 0.0);
    }
  }

  /**
   * Two fadeIn calls from opacity 0 within one frame (the first shows the
   * bar, the second arrives before its next step): the second cancels that
   * step, and neither a delayed hide nor further fadeIn calls get the
   * fader out again.
   */
  method FrozenFadeIn() returns (f: Fader)
    ensures f.Valid() && f.Frozen() && !f.waitTimerPending
  {
    f := new Fader(0.0);
    f.FadeIn();
    f.FadeIn();
    f.DelayFadeOut(300);
    f.FireWait();
    f.FadeIn();
  }

  /**
   * fadeOut and then fadeIn within one frame from a visible bar (a delayed
   * hide firing just before a new drag shows the bar): the fadeIn cancels
   * the fade-out's next step and stops at its opacity check, so the bar
   * stays at opacity 1 in FADE_OUT, and neither a delayed hide nor a further
   * fadeIn gets it out again.
   */
  method FrozenFadeOut() returns (f: Fader)
    ensures f.Valid() && f.Frozen() && f.fadeState == FadingOut && f.opacity == 1.0 && !f.waitTimerPending
  {
    f := new Fader(1.0);
    f.FadeOut();
    f.FadeIn();
    f.DelayFadeOut(300);
    f.FireWait();
    f.FadeIn();
  }

  /**
   * The same fadeOut and fadeIn through the corrected pair: the fade-out is
   * reversed and the bar fades in toward 1 with its next step pending.
   */
  method ReversedFadeOut() returns (f: Fader)
    ensures f.Valid() && !f.Frozen() && f.fadeState == FadingIn && f.fadeTimerPending && f.fadeTarget == 1.0
  {
    f := new Fader(1.0);
    f.FadeOutChecked();
    f.FadeInChecked();
  }

  /**
   * The same two calls through the corrected fadeIn: the fade-in keeps its
   * pending step, and a fader that starts out progressing can never freeze.
   */
  method ProgressingFadeIn() returns (f: Fader)
    ensures f.Valid() && !f.Frozen() && f.fadeState == FadingIn && f.fadeTimerPending && f.opacity == 0.0
  {
    f := new Fader(0.0);
    f.FadeInChecked();
    f.FadeInChecked();
  }
}
