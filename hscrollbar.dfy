/**
 * The horizontal scrollbar of src/hfixnel.js (HScrollbar): a thumb whose
 * length is the visible fraction of the content, moved by the panel's
 * `move` events, shrunk while the panel is dragged past either end, and
 * shown and hidden through a Fader. Style writes are field writes.
 */
module HorizontalScrollbar {
  import opened Wrappers
  import opened JsNumber
  import opened Fading

  /** The bar's minimum thumb length: its own height, `6px`. */
  const MIN_THUMB: int := 6
  /** The hide delay after the panel stops moving (`_moveEnd`). */
  const MOVE_END_DELAY: int := 300
  /** The hide delay after the bar is first shown or updated (`_renderShow`). */
  const RENDER_DELAY: int := 2000

  /** Which end the thumb is anchored to (`left: 0` or `right: 0`). */
  datatype Anchor = AtStart | AtEnd

  /** `(containerWidth * ratio) | 0`: the thumb length with no overscroll. */
  function BaseSize(container: int, ratio: real): int {
    OrZero(container as real * ratio)
  }

  /** The thumb offset `_setPos` writes for a panel position: `-((pos * ratio) | 0)`. */
  function Offset(pos: real, ratio: real): int {
    -OrZero(pos * ratio)
  }

  /**
   * `_setSize`'s rule for a requested length: a zero length is not written
   * at all; anything shorter than the minimum is raised to it.
   */
  function Clamped(val: real): (r: Option<real>)
    ensures r.None? <==> val == 0.0
    ensures r.Some? ==> r.value >= MIN_THUMB as real && r.value >= val
    ensures r.Some? ==> r.value == val || r.value == MIN_THUMB as real
  {
    if val == 0.0 then None
    else if val < MIN_THUMB as real then Some(MIN_THUMB as real)
    else Some(val)
  }

  /** The length `_setSizeStart` asks for when the panel is `value > 0` past its start. */
  function StartLength(base: int, value: real): real {
    base as real - value / 2.0
  }

  /** The length `_setSizeEnd` asks for when the panel is `value < -scrollWidth` past its end. */
  function EndLength(base: int, value: real, scrollWidth: int): real {
    base as real + (value + scrollWidth as real) / 2.0
  }

  /**
   * Overscroll shrinks the thumb by half the overshoot, and more overshoot
   * never makes it longer.
   */
  lemma OverscrollShrinks(base: int, v: real, w: real, scrollWidth: int)
    ensures v > 0.0 ==> StartLength(base, v) == base as real - v / 2.0 < base as real
    ensures 0.0 < v <= w ==> StartLength(base, w) <= StartLength(base, v)
    ensures v < -scrollWidth as real ==> EndLength(base, v, scrollWidth) < base as real
    ensures w <= v < -scrollWidth as real ==> EndLength(base, w, scrollWidth) <= EndLength(base, v, scrollWidth)
  {
  }

  /** Multiplying by a non-negative factor keeps an inequality. */
  lemma MulLe(x: real, y: real, k: real)
    requires x <= y && 0.0 <= k
    ensures x * k <= y * k
  {
  }

  /** The real-number facts behind ThumbWithinTrack. */
  lemma ScaledRange(c: real, n: real, pos: real, ratio: real)
    requires 0.0 < n && 0.0 <= c <= n && ratio == c / n && -(n - c) <= pos <= 0.0
    ensures pos * ratio <= 0.0 <= c * ratio
    ensures -(pos * ratio) + c * ratio <= c
  {
    var s := n - c;
    assert ratio * n == c;
    assert (ratio - 1.0) * n == c - n;
    assert 0.0 <= ratio <= 1.0;
    MulLe(-s, pos, ratio);
    MulLe(pos, 0.0, ratio);
    assert (-s) * ratio == -(s * ratio);
    assert s * ratio + c * ratio == n * ratio;
    MulLe(ratio, 1.0, c);
  }

  /** Truncating a non-positive offset and a non-negative length keeps them within their real sum. */
  lemma TruncatedSum(pos: real, container: int, ratio: real)
    requires container < TWO_31
    requires pos * ratio <= 0.0 <= container as real * ratio
    requires -(pos * ratio) + container as real * ratio <= container as real
    ensures 0 <= Offset(pos, ratio) && Offset(pos, ratio) + BaseSize(container, ratio) <= container
  {
    var a, m := pos * ratio, container as real * ratio;
    assert OrZero(a) == Trunc(a);
    assert OrZero(m) == Trunc(m);
  }

  /**
   * Inside the scroll range the thumb stays on the track: its offset is
   * never negative and offset plus base length never exceeds the container.
   * The length actually written is the base raised to MIN_THUMB: it fits
   * too when the base is at least MIN_THUMB, and otherwise overhangs the
   * track by at most MIN_THUMB - 1.
   */
  lemma ThumbWithinTrack(content: int, container: int, pos: real)
    requires 0 < content < TWO_31 && 0 <= container <= content
    requires -(content - container) as real <= pos <= 0.0
    ensures var ratio := container as real / content as real;
            0 <= Offset(pos, ratio) && Offset(pos, ratio) + BaseSize(container, ratio) <= container
    ensures var ratio := container as real / content as real;
            var w := Clamped(BaseSize(container, ratio) as real);
            && (w.Some? && BaseSize(container, ratio) >= MIN_THUMB ==> Offset(pos, ratio) as real + w.value <= container as real)
            && (w.Some? ==> Offset(pos, ratio) as real + w.value <= (container + MIN_THUMB - 1) as real)
  {
    var ratio := container as real / content as real;
    ScaledRange(container as real, content as real, pos, ratio);
    TruncatedSum(pos, container, ratio);
    assert 0 <= BaseSize(container, ratio) by {
      assert 0.0 <= container as real * ratio;
    }
  }

  /**
   * A long content scrolled to its end: the base length 5 is raised to 6
   * and the written thumb ends one pixel past the 500-wide track.
   */
  lemma ThumbOverhangs()
    ensures var ratio := 500.0 / 50000.0;
            && BaseSize(500, ratio) == 5 && Clamped(5.0) == Some(6.0) && Offset(-49500.0, ratio) == 495
            && Offset(-49500.0, ratio) + 6 > 500
  {
    var ratio := 500.0 / 50000.0;
    assert 500.0 * ratio == 5.0;
    assert Trunc(5.0) == 5;
    assert -49500.0 * ratio == -495.0;
    assert Trunc(-495.0) == -495;
  }

  /** The scenario of a 1200-wide content in a 500-wide container dragged 700 to the left. */
  lemma ScrolledToEnd()
    ensures var ratio := 500.0 / 1200.0;
            BaseSize(500, ratio) == 208 && Offset(-700.0, ratio) == 291
            && Offset(-700.0, ratio) + BaseSize(500, ratio) <= 500
  {
    var ratio := 500.0 / 1200.0;
    assert 500.0 * ratio == 208.0 + 1.0 / 3.0;
    assert Trunc(500.0 * ratio) == 208;
    assert -700.0 * ratio == -291.0 - 2.0 / 3.0;
    assert Trunc(-700.0 * ratio) == -291;
  }

  class HScrollbar {
    var contentWidth: int
    var containerWidth: int
    var scrollWidth: int
    var ratio: real
    /** `_pos`: the last position written; 0 stands for both 0 and never set (each is falsy). */
    var pos: real
    /** The thumb's translation. */
    var offset: int
    /** `size`: the base length last written to the bar (0 while none was). */
    var size: int
    /** The inner thumb's width (0 while none was written). */
    var thumbWidth: real
    var anchor: Anchor
    var moving: bool
    const fader: Fader

    ghost predicate Valid()
      reads this, fader, fader.easing
    {
      && fader.Valid()
      && contentWidth > 0
      && scrollWidth == contentWidth - containerWidth
      && ratio == containerWidth as real / contentWidth as real
    }

    /**
     * `init`: reads the sizes, sets the initial length, then shows the bar
     * and schedules its hide after 2000 ms.
     */
    constructor (content: int, container: int)
      requires content > 0
      ensures Valid() && fresh(fader) && !moving && anchor == AtStart
      ensures contentWidth == content && containerWidth == container
      ensures var base := BaseSize(container, ratio);
              (base == 0 ==> size == 0 && thumbWidth == 0.0)
              && (base != 0 ==> size as real == thumbWidth == Clamped(base as real).value)
      ensures fader.fadeState == FadingIn && fader.fadeTimerPending && fader.opacity == 0.0
      ensures fader.waitTimerPending && fader.waitDelay == RENDER_DELAY
    {
      contentWidth := content;
      containerWidth := container;
      scrollWidth := content - container;
      ratio := container as real / content as real;
      pos := 0.0;
      offset := 0;
      size := 0;
      thumbWidth := 0.0;
      anchor := AtStart;
      moving := false;
      fader := new Fader(0.0);
      new;
      SetInitSize();
      RenderShow();
    }

    /** `_getContentInfo`. */
    method ContentInfo(content: int, container: int)
      requires content > 0
      modifies this
      ensures contentWidth == content && containerWidth == container
      ensures scrollWidth == content - container && ratio == container as real / content as real
      ensures pos == old(pos) && offset == old(offset) && size == old(size)
      ensures thumbWidth == old(thumbWidth) && anchor == old(anchor) && moving == old(moving)
    {
      contentWidth := content;
      containerWidth := container;
      scrollWidth := content - container;
      ratio := container as real / content as real;
    }

    /** `_setPos`: a falsy position writes nothing. */
    method SetPos(p: real)
      modifies this
      ensures p == 0.0 ==> pos == old(pos) && offset == old(offset)
      ensures p != 0.0 ==> pos == p && offset == Offset(p, ratio)
      ensures contentWidth == old(contentWidth) && containerWidth == old(containerWidth)
      ensures scrollWidth == old(scrollWidth) && ratio == old(ratio) && size == old(size)
      ensures thumbWidth == old(thumbWidth) && anchor == old(anchor) && moving == old(moving)
    {
      if p == 0.0 {
        return;
      }
      pos := p;
      offset := Offset(p, ratio);
    }

    /** `_setSize`. */
    method SetSize(val: real)
      modifies this
      ensures thumbWidth == Clamped(val).GetOr(old(thumbWidth))
      ensures contentWidth == old(contentWidth) && containerWidth == old(containerWidth)
      ensures scrollWidth == old(scrollWidth) && ratio == old(ratio) && size == old(size)
      ensures pos == old(pos) && offset == old(offset) && anchor == old(anchor) && moving == old(moving)
    {
      if val == 0.0 {
        return;
      }
      var v := val;
      if v < MIN_THUMB as real {
        v := MIN_THUMB as real;
      }
      thumbWidth := v;
    }

    /** `_setInitSize`: writes the base length to the bar and the thumb, unless it is 0. */
    method SetInitSize()
      modifies this
      ensures var base := BaseSize(containerWidth, ratio);
              (base == 0 ==> size == old(size) && thumbWidth == old(thumbWidth))
              && (base != 0 ==> size as real == thumbWidth == Clamped(base as real).value)
      ensures size >= MIN_THUMB || size == old(size)
      ensures contentWidth == old(contentWidth) && containerWidth == old(containerWidth)
      ensures scrollWidth == old(scrollWidth) && ratio == old(ratio)
      ensures pos == old(pos) && offset == old(offset) && anchor == old(anchor) && moving == old(moving)
    {
      var val := BaseSize(containerWidth, ratio);
      if val == 0 {
        return;
      }
      if val < MIN_THUMB {
        val := MIN_THUMB;
      }
      size := val;
      thumbWidth := val as real;
    }

    /** `_setSizeStart`: anchors the thumb at the start and shrinks it by half the overshoot. */
    method SizeStart(value: real)
      modifies this
      ensures anchor == AtStart
      ensures thumbWidth == Clamped(StartLength(BaseSize(containerWidth, ratio), value)).GetOr(old(thumbWidth))
      ensures contentWidth == old(contentWidth) && containerWidth == old(containerWidth)
      ensures scrollWidth == old(scrollWidth) && ratio == old(ratio) && size == old(size)
      ensures pos == old(pos) && offset == old(offset) && moving == old(moving)
    {
      var val := StartLength(BaseSize(containerWidth, ratio), value);
      anchor := AtStart;
      SetPos(0.0);
      SetSize(val);
    }

    /** `_setSizeEnd`: anchors the thumb at the end, moves it to the last position and shrinks it. */
    method SizeEnd(value: real)
      modifies this
      ensures anchor == AtEnd
      ensures thumbWidth == Clamped(EndLength(BaseSize(containerWidth, ratio), value, scrollWidth)).GetOr(old(thumbWidth))
      ensures scrollWidth == 0 ==> pos == old(pos) && offset == old(offset)
      ensures scrollWidth != 0 ==> pos == -scrollWidth as real && offset == Offset(-scrollWidth as real, ratio)
      ensures contentWidth == old(contentWidth) && containerWidth == old(containerWidth)
      ensures scrollWidth == old(scrollWidth) && ratio == old(ratio) && size == old(size) && moving == old(moving)
    {
      var val := EndLength(BaseSize(containerWidth, ratio), value, scrollWidth);
      anchor := AtEnd;
      SetPos(-scrollWidth as real);
      SetSize(val);
    }

    /**
     * `_move`, the panel's `move` handler. A null value compares as 0 in the
     * two overscroll tests; when it reaches the third test the bar triggers
     * `moveend` on its own dispatcher (answered by `ownMoveEnd`) and changes
     * nothing.
     */
    method Move(value: Option<real>) returns (ownMoveEnd: bool)
      modifies this
      ensures var v := value.GetOr(0.0);
              var base := BaseSize(containerWidth, ratio);
              && (v > 0.0 ==>
                    && anchor == AtStart && thumbWidth == Clamped(StartLength(base, v)).GetOr(old(thumbWidth))
                    && pos == old(pos) && offset == old(offset))
              && (v <= 0.0 && v < -scrollWidth as real ==>
                    && anchor == AtEnd && thumbWidth == Clamped(EndLength(base, v, scrollWidth)).GetOr(old(thumbWidth))
                    && (scrollWidth != 0 ==> pos == -scrollWidth as real && offset == Offset(pos, ratio))
                    && (scrollWidth == 0 ==> pos == old(pos) && offset == old(offset)))
              && (-scrollWidth as real <= v <= 0.0 ==>
                    && anchor == old(anchor) && thumbWidth == old(thumbWidth)
                    && (value.None? || v == 0.0 ==> pos == old(pos) && offset == old(offset))
                    && (value.Some? && v != 0.0 ==> pos == v && offset == Offset(v, ratio)))
              && (ownMoveEnd <==> value.None? && -scrollWidth <= 0)
      ensures contentWidth == old(contentWidth) && containerWidth == old(containerWidth)
      ensures scrollWidth == old(scrollWidth) && ratio == old(ratio) && size == old(size) && moving == old(moving)
    {
      var v := value.GetOr(0.0);
      if v > 0.0 {
        SizeStart(v);
      } else if v < -scrollWidth as real {
        SizeEnd(v);
      } else if value.None? {
        return true;
      } else {
        SetPos(value.value);
      }
      ownMoveEnd := false;
    }

    /** `_moveStart`: shows the bar once per movement. */
    method MoveStart()
      requires Valid()
      modifies this, fader, fader.easing
      ensures Valid() && moving
      ensures old(moving) ==> fader.fadeState == old(fader.fadeState) && fader.opacity == old(fader.opacity)
                              && fader.waitTimerPending == old(fader.waitTimerPending)
                              && fader.fadeTimerPending == old(fader.fadeTimerPending)
      ensures !old(moving) ==> fader.FadeCalled(FadingIn, 0.0, 1.0)
      ensures contentWidth == old(contentWidth) && containerWidth == old(containerWidth) && size == old(size)
      ensures pos == old(pos) && offset == old(offset) && thumbWidth == old(thumbWidth) && anchor == old(anchor)
    {
      if moving {
        return;
      }
      moving := true;
      fader.FadeIn();
    }

    /** `_moveEnd`: schedules the hide in 300 ms and ends the movement. */
    method MoveEnd()
      requires Valid()
      modifies this, fader
      ensures Valid() && !moving
      ensures fader.waitTimerPending && fader.waitDelay == MOVE_END_DELAY
      ensures fader.fadeState == old(fader.fadeState) && fader.opacity == old(fader.opacity)
      ensures fader.easing == old(fader.easing) && fader.fadeTimerPending == old(fader.fadeTimerPending)
      ensures contentWidth == old(contentWidth) && containerWidth == old(containerWidth) && size == old(size)
      ensures pos == old(pos) && offset == old(offset) && thumbWidth == old(thumbWidth) && anchor == old(anchor)
    {
      fader.DelayFadeOut(MOVE_END_DELAY);
      moving := false;
    }

    /** `_renderShow`: fade in, then hide after 2000 ms. */
    method RenderShow()
      requires Valid()
      modifies fader, fader.easing
      ensures Valid()
      ensures fader.waitTimerPending && fader.waitDelay == RENDER_DELAY
      ensures old(fader.fadeState) == FadingIn || old(fader.opacity) == 1.0 ==>
                fader.fadeState == old(fader.fadeState) && fader.opacity == old(fader.opacity) && !fader.fadeTimerPending
      ensures old(fader.fadeState) != FadingIn && old(fader.opacity) != 1.0 ==>
                var start := FadeStart(old(fader.InflightNext()), 0.0);
                fader.fadeState == FadingIn && fader.opacity == start && fader.fadeTimerPending
    {
      fader.FadeIn();
      fader.DelayFadeOut(RENDER_DELAY);
    }

    /**
     * `_update`, the panel's `update` handler: re-reads the sizes, rewrites
     * the base length and the last position, then shows the bar again.
     */
    method Update(content: int, container: int)
      requires Valid() && content > 0
      modifies this, fader, fader.easing
      ensures Valid() && contentWidth == content && containerWidth == container
      ensures var base := BaseSize(container, ratio);
              (base == 0 ==> size == old(size)) && (base != 0 ==> size as real == Clamped(base as real).value)
      ensures pos == old(pos) && (pos != 0.0 ==> offset == Offset(pos, ratio))
      ensures fader.waitTimerPending && fader.waitDelay == RENDER_DELAY
      ensures moving == old(moving) && anchor == old(anchor)
    {
      ContentInfo(content, container);
      SetInitSize();
      SetPos(pos);
      RenderShow();
    }
  }
}
