# fixnel.js in Dafny

fixnel.js turns a DOM element into a panel that can be dragged with the
mouse or a finger. The panel keeps moving after release with decaying
momentum and bounces back when it is left past either end. A thin
scrollbar fades in while the panel moves and fades out after it stops. The
repository holds four revisions of this widget. This project models all of
them, built from shared pieces:

- **src/hfixnel.js**, the current horizontal widget:
  - the timing-function table;
  - the `Easing` cursor;
  - the `EventDispatcher` mixin;
  - the `Fader` (opacity animation and delayed hide);
  - `HScrollbar`;
  - the `HFixnel` panel.
- **src/fixnel.js**, the vertical revision before it. Its panel has no
  rubber band while dragging and does not truncate positions. It triggers
  `move` with a null value when it stops. Its scrollbar has its fade built in.
- **src/main.js**, an earlier prototype. It has no events and no scrollbar.
  A release while coasting leaves an interval running that nothing can clear.
- **main.js** (lines 33-243), the first prototype. It decays velocity by 1/40
  instead of 1/30 and stops at either end instead of bouncing. At the bottom
  it throws. Its `Bounce` mirrors easeOutQuad back down past half the change.

Modules, one file each:

| module | file | flavour |
|---|---|---|
| `JsNumber` | `numeric.dfy` | pure |
| `Timing` | `timing.dfy` | pure |
| `Cursors` | `cursor.dfy` | imperative |
| `Events` | `dispatcher.dfy` | imperative |
| `Motion` | `motion.dfy` | pure |
| `Fading` | `fader.dfy` | imperative |
| `HorizontalScrollbar` | `hscrollbar.dfy` | imperative |
| `HorizontalPanel` | `hfixnel.dfy` | imperative |
| `VerticalFixnel` | `fixnel.dfy` | imperative |
| `PrototypeFixnel` | `srcmain.dfy` | imperative |
| `FirstFixnel` | `rootmain.dfy` | imperative |

- `JsNumber`: `v | 0` and `v << 0` as ECMAScript ToInt32 of the truncation, wrap-around included.
- `Timing`: the Penner curves.
- `Cursors`: the `Easing`/`Bounce` cursor class.
- `Events`: the dispatcher.
- `Motion`: the arithmetic every panel shares.
- `Fading`, `HorizontalScrollbar`, `HorizontalPanel`: src/hfixnel.js.
- `VerticalFixnel`: src/fixnel.js.
- `PrototypeFixnel`: src/main.js.
- `FirstFixnel`: main.js.

How the model stands in for the browser:

- Numbers are exact reals and timestamps are integers.
- Every `setTimeout`/`setInterval` that a method schedules becomes a flag or
  a queue entry. The method that fires it is separate: `Tick`, `FadeTick`,
  `FireWait`, `FireStopTimer`, `AutoTick`. Each method can be called in any
  order the browser could choose, with one qualification. A pointer-down
  stores a new stop timeout in `stopTimer` without clearing the pending one
  (src/hfixnel.js:898, src/fixnel.js:612, src/main.js:227, main.js:115). The
  overwritten timeout can no longer be cancelled by a move. The model
  counts such timeouts in `orphanStopTimers`, and `FireOrphanStopTimer`
  fires one at any later point, for example in the middle of the next
  coast (`HorizontalPanel.CoastCutShort`).
- A panel method returns the events it triggers, in order, as a sequence of
  `PanelEvent`. Wiring them to the scrollbar's handlers is left to the caller.

How the revisions differ, as the model states them:

| | src/hfixnel.js | src/fixnel.js | src/main.js | main.js |
|---|---|---|---|---|
| decay divisor | 30 (`Motion.DECAY`) | 30 | 30 | 40 (`Motion.DECAY_FIRST`) |
| positions truncated by `\| 0` | yes (`HFixnel.GetValue`, `HFixnel.Move`) | no | no | no |
| rubber band while dragging | half the distance past an end (`HFixnel.Move`) | none | none | none |
| who triggers `moveend` | the panel, in `_stopScrolling`, twice per stop (`HFixnel.Tick`) | the scrollbar, on the panel's `move` with a null value (`VerticalFixnel.Scrollbar.Move`) | nobody | nobody |
| interval replaced on release | cleared first | cleared first | leaked (`PrototypeFixnel.Fixnel.Scrolling`) | leaked (`FirstFixnel.Fixnel.Scrolling`) |
| at an end after coasting | easeOutExpo bounce | easeOutExpo bounce | easeOutExpo bounce | stops; throws at the bottom |

Notes on what the code does, where it is easy to misread:

- **Hide timer guard.** The `delayFadeOut` callback compares the style
  string with the number 0 (`=== 0`). That never holds, so the callback
  always calls `fadeOut` (`Fading.Fader.FireWait`).
- **fadeIn/fadeOut order.** Both cancel the fade and hide timers *before*
  their "already going this way" check, so they are not no-ops when they
  return early (see Findings). fadeOut and then fadeIn from a visible bar
  leave it at opacity 1 in FADE_OUT with no step pending
  (`Fading.FrozenFadeOut`).
- **Drag sample sign.** For samples at 100 and then 84, 16 ms apart, the
  sample is +1 and the velocity is -16 (`Motion.DragSampleScenario`). The
  distance is measured previous minus current.

## Model

| member | source | states |
|---|---|---|
| JsNumber.Trunc | src/hfixnel.js:787 | truncation toward zero: the integer lies within 1 of the input on the side of 0 and is never larger in magnitude |
| JsNumber.ToInt32 | src/hfixnel.js:926 | ToInt32 of an integer lies in [-2^31, 2^31), is congruent to the input modulo 2^32, is the input itself when that is in range, and never grows the magnitude |
| JsNumber.OrZero | src/hfixnel.js:818 | `v \| 0` lies in the signed 32-bit range, never exceeds `\|v\|` in magnitude, equals the truncation for in-range inputs and is the identity on in-range integers |
| Timing.EaseInCubic | src/hfixnel.js:65-67 | `easeInCubic` answers `b` at t = 0 and `b + c` at t = d, for any non-zero duration (copies in src/fixnel.js and src/main.js) |
| Timing.EaseOutCubic | src/hfixnel.js:68-70 | `easeOutCubic` answers `b` at t = 0 and `b + c` at t = d, for any non-zero duration (copies in src/fixnel.js and src/main.js) |
| Timing.EaseInOutCubic | src/hfixnel.js:71-76 | `easeInOutCubic` answers `b` at t = 0, the midpoint `b + c/2` at t = d/2 and `b + c` at t = d, for any non-zero duration (copies in src/fixnel.js and src/main.js) |
| Timing.EaseInQuart | src/hfixnel.js:77-79 | `easeInQuart` answers `b` at t = 0 and `b + c` at t = d, for any non-zero duration (copies in src/fixnel.js and src/main.js) |
| Timing.EaseOutQuart | src/hfixnel.js:80-82 | `easeOutQuart` answers `b` at t = 0 and `b + c` at t = d, for any non-zero duration (copies in src/fixnel.js and src/main.js) |
| Timing.EaseInOutQuart | src/hfixnel.js:83-88 | `easeInOutQuart` answers `b` at t = 0, the midpoint `b + c/2` at t = d/2 and `b + c` at t = d, for any non-zero duration (copies in src/fixnel.js and src/main.js) |
| Timing.EaseInQuint | src/hfixnel.js:89-90 | `easeInQuint` answers `b` at t = 0 and `b + c` at t = d, for any non-zero duration (copies in src/fixnel.js and src/main.js) |
| Timing.EaseOutQuint | src/hfixnel.js:91-93 | `easeOutQuint` answers `b` at t = 0 and `b + c` at t = d, for any non-zero duration (copies in src/fixnel.js and src/main.js) |
| Timing.EaseInOutQuint | src/hfixnel.js:94-99 | `easeInOutQuint` answers `b` at t = 0, the midpoint `b + c/2` at t = d/2 and `b + c` at t = d, for any non-zero duration (copies in src/fixnel.js and src/main.js) |
| Timing.EaseInQuad | src/hfixnel.js:133-135 | `easeInQuad` answers `b` at t = 0 and `b + c` at t = d, for any non-zero duration (copies in src/fixnel.js and src/main.js) |
| Timing.EaseOutQuad | src/hfixnel.js:136-138 | `easeOutQuad` answers `b` at t = 0 and `b + c` at t = d, for any non-zero duration (copies in src/fixnel.js and src/main.js) |
| Timing.EaseInOutQuad | src/hfixnel.js:139-144 | `easeInOutQuad` answers `b` at t = 0, the midpoint `b + c/2` at t = d/2 and `b + c` at t = d, for any non-zero duration (copies in src/fixnel.js and src/main.js) |
| Timing.Eval | src/hfixnel.js:64-145 | `timingFunction[name]`: every polynomial curve starts at `b` and ends at `b + c`; a transcendental entry answers its own function (the table is copied at src/fixnel.js:53-134 and src/main.js:53-135) |
| Timing.OutQuadMirrorsIn | src/hfixnel.js:133-138 | easeOutQuad at elapsed t has covered exactly what easeInQuad still has to cover at elapsed d - t |
| Timing.OutCubicMirrorsIn | src/hfixnel.js:65-70 | easeOutCubic at elapsed t has covered exactly what easeInCubic still has to cover at elapsed d - t |
| Timing.OutQuartMirrorsIn | src/hfixnel.js:77-82 | easeOutQuart at elapsed t has covered exactly what easeInQuart still has to cover at elapsed d - t |
| Timing.OutQuintMirrorsIn | src/hfixnel.js:89-93 | easeOutQuint at elapsed t has covered exactly what easeInQuint still has to cover at elapsed d - t |
| Timing.OutQuadBetween | src/hfixnel.js:136-138 | for 0 <= t <= d, easeOutQuad stays between `b` and `b + c`, for either sign of `c` |
| Cursors.ValueAt | src/hfixnel.js:656-668 | a call answers null exactly when the step is past the duration |
| Cursors.Outputs | src/hfixnel.js:656-668 | n consecutive calls give n answers; the i-th is the curve at step t + i while t + i <= d, and null after |
| Cursors.OutputsShape | src/hfixnel.js:656-668 | the i-th of consecutive calls answers a value iff t + i <= d, and that value is the curve at step t + i; afterwards every call answers null, so a cursor from t = 0 yields exactly d + 1 values |
| Cursors.Easing.constructor | src/hfixnel.js:642-649 | the cursor holds t, b, c and d as given; a missing type selects easeInQuad |
| Cursors.Easing.Next | src/hfixnel.js:656-668 | answers the curve at the old step and advances the step while it is within the duration; the number of values still to come drops by one per value, and a spent cursor answers null and stays put |
| Events.Calls | src/hfixnel.js:170-173 | one pass over a handler list makes at most one call per registration |
| Events.CallOf | src/hfixnel.js:172 | a registration without a function makes no call |
| Events.Without | src/hfixnel.js:210-213 | removal never lengthens a list |
| Events.Stamped | src/hfixnel.js:165-168 | the event object is the payload, with `type` filled in only when missing; without a payload it is `{type}` |
| Events.CallsAppend | src/hfixnel.js:170-173 | the calls of a concatenation are the calls of each part, in order |
| Events.CallsSnoc | src/hfixnel.js:196 | a registration pushed at the end adds its call at the end |
| Events.WithoutAppend | src/hfixnel.js:210-213 | removal distributes over concatenation |
| Events.WithoutMembers | src/hfixnel.js:202-214 | after removal a registration is present iff it was present before and its function differs from the removed one |
| Events.RemovedNeverCalled | src/hfixnel.js:157-214 | after removing a function from a type, dispatching that type never calls it |
| Events.RegistrationOrder | src/hfixnel.js:188-197 | two registrations on a type are called after all earlier ones, in registration order |
| Events.RemoveStep | src/hfixnel.js:211-213 | one backward step of the splice loop keeps "prefix untouched, suffix filtered" |
| Events.Dispatcher.constructor | src/hfixnel.js:150 | a dispatcher starts with no handlers (the table is created on first use) |
| Events.Dispatcher.Add | src/hfixnel.js:188-197 | an empty type is an error and changes nothing; otherwise the registration is appended to the type's list |
| Events.Dispatcher.Remove | src/hfixnel.js:202-214 | an empty type is an error (a ReferenceError: the message names an undeclared `fn`); otherwise exactly the registrations with that function leave the type's list, the others keep their order |
| Events.Dispatcher.CollectCalls | src/hfixnel.js:170-173 | the loop makes exactly the calls of the list, in order |
| Events.Dispatcher.Dispatch | src/hfixnel.js:157-180 | an empty type throws; otherwise the type's handlers and then the `*` handlers are called in registration order, each with its context, on the stamped event object |
| Motion.Decay | src/hfixnel.js:922-928 | `vy - (vy / k) << 0` is 0 for 0 and strictly smaller in magnitude for any other velocity |
| Motion.RankDrops | src/hfixnel.js:926 | an integer velocity slower than another velocity has a smaller rank |
| Motion.MomentumStops | src/hfixnel.js:922-928 | ceil(\|vy\|) decays bring any velocity to exactly 0 |
| Motion.EdgeClamp | src/hfixnel.js:811-816 | the two edge clamps never speed the panel up and leave the velocity or ±10; the end test overrides the start test |
| Motion.MomentumStepSlows | src/hfixnel.js:811-818 | a clamp followed by a decay lowers the rank of every nonzero velocity |
| Motion.DragKinematics | src/hfixnel.js:1052-1071 | a zero interval counts as 1; distance is previous minus current; the sample times the interval is the distance; the accumulator moves by the sample's change; the velocity is minus the accumulator times the interval |
| Motion.DragVelocity | src/hfixnel.js:1062-1071 | while the accumulator equals the previous sample, the velocity is the pointer's movement `page - prevPos` |
| Motion.DragSampleScenario | src/hfixnel.js:1052-1071 | samples at 100 then 84, 16 ms apart, give sample +1 and velocity -16 |
| Motion.BounceTarget | src/hfixnel.js:792-809 | a resting panel bounces to 0 when past the start, to `-right` when past the end, and not at all when within range |
| Fading.FadeValueIsOpacity | src/hfixnel.js:369-384 | every value a fade cursor answers is an opacity in [0, 1] |
| Fading.ContinuousFade | src/hfixnel.js:360-366 | a fade started from the in-flight value begins exactly at that value and its last eased value is the target |
| Fading.Fader.constructor | src/hfixnel.js:295-300 | a new fader is NOT_FADE with nothing pending |
| Fading.Fader.FadeIn | src/hfixnel.js:301-316 | both timers are cancelled; while fading in or at opacity 1 nothing else changes (a running fade is frozen); otherwise FADE_IN starts from the in-flight value, or 0, toward 1 with its first value written; a frozen fader stays frozen |
| Fading.Fader.FadeOut | src/hfixnel.js:317-332 | the same toward 0 from the in-flight value, or 1 |
| Fading.Fader.ClearTimers | src/hfixnel.js:337-340 | no hide and no fade step is pending afterwards; nothing else changes |
| Fading.Fader.Fade | src/hfixnel.js:347-386 | a fresh easeOutQuad cursor starts at the in-flight value (or the nominal start when that is null or 0) and ends at the target; its first value is written and the next step is pending |
| Fading.Fader.Ease | src/hfixnel.js:369-385 | a live cursor's value becomes the opacity and the next step is pending; a spent cursor writes exactly the target, is dropped and the state returns to NOT_FADE |
| Fading.Fader.FadeTick | src/hfixnel.js:384 | the pending step runs Ease |
| Fading.Fader.DelayFadeOut | src/hfixnel.js:390-405 | replaces the pending hide; a zero delay means 500 ms |
| Fading.Fader.FireWait | src/hfixnel.js:397-403 | the hide always calls fadeOut |
| Fading.Fader.FadeInChecked | src/hfixnel.js:301-316 | corrected fadeIn: only a running fade-in or a bar resting at opacity 1 is left alone; a running fade-out is always reversed. Afterwards the bar is never fading out: it is at opacity 1 or fading in toward 1 with its step pending, and a progressing fader never freezes |
| Fading.Fader.FadeOutChecked | src/hfixnel.js:317-332 | corrected fadeOut: only a running fade-out or a bar resting at opacity 0 is left alone; a running fade-in is always reversed. Afterwards the bar is never fading in: it is at opacity 0 or fading out toward 0 with its step pending, and a progressing fader never freezes |
| Fading.FrozenFadeIn | src/hfixnel.js:301-316 | two fadeIn calls from opacity 0 within one frame leave the fader frozen at 0, and a delayed hide and a further fadeIn do not release it |
| Fading.ProgressingFadeIn | src/hfixnel.js:301-316 | the same two calls through the corrected fadeIn leave the fade-in running |
| Fading.FrozenFadeOut | src/hfixnel.js:301-332 | fadeOut and then fadeIn from opacity 1 within one frame leave the fader frozen at 1 in FADE_OUT, and a delayed hide and a further fadeIn do not release it |
| Fading.ReversedFadeOut | src/hfixnel.js:301-332 | the same two calls through the corrected pair leave the bar fading in toward 1 with its step pending |
| HorizontalScrollbar.Clamped | src/hfixnel.js:488-498 | a zero length is not written; any other length is raised to at least 6 |
| HorizontalScrollbar.OverscrollShrinks | src/hfixnel.js:517-534 | overscroll past either end shortens the thumb, and more overscroll never lengthens it |
| HorizontalScrollbar.ScaledRange | src/hfixnel.js:469-481 | within the scroll range the scaled position and length are non-negative and sum to at most the container |
| HorizontalScrollbar.TruncatedSum | src/hfixnel.js:481 | truncating both keeps that bound |
| HorizontalScrollbar.ThumbWithinTrack | src/hfixnel.js:472-512 | for every position within range the thumb's offset is non-negative and offset plus base length fits in the container; the written length (the base raised to 6) fits too when the base is at least 6, and otherwise overhangs by at most 5 |
| HorizontalScrollbar.ThumbOverhangs | src/hfixnel.js:488-512 | content 50000 in a 500-wide container scrolled to its end: the base length 5 is raised to 6 at offset 495, one pixel past the track |
| HorizontalScrollbar.ScrolledToEnd | src/hfixnel.js:472-512 | a 1200-wide content in a 500-wide container scrolled to its end gives a 208 thumb at 291, within 500 |
| HorizontalScrollbar.HScrollbar.constructor | src/hfixnel.js:431-459 | sizes from the panel, the initial length, anchored at the start, fading in from 0 with the hide due in 2000 ms |
| HorizontalScrollbar.HScrollbar.ContentInfo | src/hfixnel.js:463-471 | sizes, scroll width and ratio are re-read; nothing else changes |
| HorizontalScrollbar.HScrollbar.SetPos | src/hfixnel.js:472-483 | a falsy position writes nothing; any other is remembered and the offset is `-((pos * ratio) \| 0)` |
| HorizontalScrollbar.HScrollbar.SetSize | src/hfixnel.js:488-498 | the thumb's width follows Clamped and is kept when the length is 0 |
| HorizontalScrollbar.HScrollbar.SetInitSize | src/hfixnel.js:499-512 | the truncated base length, raised to 6, is written to bar and thumb unless it is 0 |
| HorizontalScrollbar.HScrollbar.SizeStart | src/hfixnel.js:517-522 | anchors at the start and shrinks the thumb by half the overshoot |
| HorizontalScrollbar.HScrollbar.SizeEnd | src/hfixnel.js:527-534 | anchors at the end, moves to the last position and shrinks the thumb by half the overshoot |
| HorizontalScrollbar.HScrollbar.Move | src/hfixnel.js:553-570 | past the start shrinks at the start, past the end shrinks at the end, otherwise moves; a null value counts as 0 in the two range tests and otherwise triggers the bar's own `moveend` |
| HorizontalScrollbar.HScrollbar.MoveStart | src/hfixnel.js:571-580 | the first call of a movement fades in; later ones change nothing |
| HorizontalScrollbar.HScrollbar.MoveEnd | src/hfixnel.js:581-585 | ends the movement and schedules the hide in 300 ms |
| HorizontalScrollbar.HScrollbar.RenderShow | src/hfixnel.js:456-459 | fades in and schedules the hide in 2000 ms |
| HorizontalScrollbar.HScrollbar.Update | src/hfixnel.js:629-635 | re-reads the sizes, rewrites the length and the offset of the remembered position, shows again |
| HorizontalPanel.MoveGoal | src/hfixnel.js:725-732 | moveTo's goal is the negated target when that is in range, 0 past the start, `-right` past the end |
| HorizontalPanel.HFixnel.constructor | src/hfixnel.js:678-709 | a new panel is at rest at 0 with no drag, no bounce and no animation |
| HorizontalPanel.HFixnel.SetX | src/hfixnel.js:962-971 | writes the position and triggers `move` with it |
| HorizontalPanel.HFixnel.StopScrolling | src/hfixnel.js:881-889 | velocity 0, no interval, not moving, no bounce; triggers `moveend` |
| HorizontalPanel.HFixnel.GetVX | src/hfixnel.js:922-928 | answers the velocity and stores its strictly slower decay |
| HorizontalPanel.HFixnel.GetValue | src/hfixnel.js:768-820 | bouncing: the cursor's truncated value, or a stop when spent; at rest: a bounce from the truncated position to the nearer end, or a stop when within range; coasting: the truncated clamped step, velocity decayed |
| HorizontalPanel.HFixnel.BounceValue | src/hfixnel.js:779-788 | the bouncing branch of getValue |
| HorizontalPanel.HFixnel.Settle | src/hfixnel.js:792-809 | the resting branch: stops iff within range, otherwise starts a 30-step easeOutExpo bounce from the truncated position to BounceTarget |
| HorizontalPanel.HFixnel.Coast | src/hfixnel.js:811-818 | the coasting branch: answers the truncated clamped step and stores the decayed clamped velocity |
| HorizontalPanel.HFixnel.Tick | src/hfixnel.js:865-875 | a null value stops the panel and triggers `moveend` twice; every tick that keeps the interval lowers a well-founded measure, so coasting and bouncing always end; coasting writes the truncated clamped step |
| HorizontalPanel.HFixnel.Scrolling | src/hfixnel.js:858-876 | one interval, marked moving |
| HorizontalPanel.HFixnel.Stop | src/hfixnel.js:894-903 | schedules the stop timeout; a timeout still pending loses its handle and is counted as an orphan; nothing else changes |
| HorizontalPanel.HFixnel.FireOrphanStopTimer | src/hfixnel.js:898-902 | an orphaned stop timeout fires: it clears whatever interval `timer` holds by then, and nothing cancels it first |
| HorizontalPanel.CoastCutShort | src/hfixnel.js:894-903 | a tap, then a drag that moves and is released: the tap's orphaned stop timeout kills the new coast's interval while the panel still counts as moving with velocity -40 |
| HorizontalPanel.HFixnel.FireStopTimer | src/hfixnel.js:898-902 | clears the interval only; velocity, bounce and `moving` stay, and no `moveend` is triggered |
| HorizontalPanel.HFixnel.Down | src/hfixnel.js:1023-1045 | ignored during moveTo; a bounce snaps to its end and stops; then the drag starts from the pointer and `movestart` is triggered |
| HorizontalPanel.HFixnel.Move | src/hfixnel.js:1052-1086 | while dragging: cancels the latest stop timeout (orphans stay pending), follows the pointer, moving half the distance (truncated) past either end; velocity is the pointer's movement |
| HorizontalPanel.HFixnel.Up | src/hfixnel.js:1092-1099 | a drag's release starts coasting; otherwise nothing |
| HorizontalPanel.HFixnel.MoveTo | src/hfixnel.js:711-762 | a falsy non-zero target is ignored; `animOff` jumps to the clamped goal; otherwise a 10-step easeOutExpo run from the current position to the goal writes its first value and is queued |
| HorizontalPanel.HFixnel.AutoTick | src/hfixnel.js:746-761 | a run writes its next value, or writes exactly its goal, leaves the queue and clears `_autoMoving` |
| HorizontalPanel.HFixnel.CheckOverflow | src/hfixnel.js:849-853 | afterwards the panel is never past the end: one that was is moved exactly to it and `move` is triggered, any other stays put |
| HorizontalPanel.HFixnel.Update | src/hfixnel.js:1100-1105 | with the new sizes, a panel left past the new end is pulled back to it; `update` is triggered last |
| VerticalFixnel.BarValueIsOpacity | src/fixnel.js:374-388 | each value of the bar's fade cursor is an opacity |
| VerticalFixnel.InterruptedHideJumps | src/fixnel.js:366-371 | a show from 0 answers 0.75 at step 15; a hide interrupting it there starts its cursor at 1 and ends its eased part at 0.25 |
| VerticalFixnel.FadeStartValue | src/fixnel.js:366-368 | the in-flight value unless it is null or 0, else the nominal start |
| VerticalFixnel.Scrollbar.constructor | src/fixnel.js:276-304 | ratio and truncated size from the panel; shown, with the hide due in 2000 ms |
| VerticalFixnel.Scrollbar.SetY | src/fixnel.js:309-313 | the offset is `-(y * ratio)`, untruncated |
| VerticalFixnel.Scrollbar.Move | src/fixnel.js:314-323 | a null value runs `moveend` (hide in 1000 ms, not moving); any other moves the bar |
| VerticalFixnel.Scrollbar.MoveStart | src/fixnel.js:324-333 | cancels a pending hide; shows the bar only when neither moving nor holding a timer handle |
| VerticalFixnel.Scrollbar.MoveEnd | src/fixnel.js:334-338 | schedules the hide in 1000 ms and ends the movement |
| VerticalFixnel.Scrollbar.Wait | src/fixnel.js:339-354 | replaces the pending hide; 0 means 500 ms |
| VerticalFixnel.Scrollbar.FireWait | src/fixnel.js:346-353 | clears the handle and hides unless moving |
| VerticalFixnel.Scrollbar.Show | src/fixnel.js:397-403 | fades from 0 toward 1 |
| VerticalFixnel.Scrollbar.Hide | src/fixnel.js:390-396 | fades from 1 toward 0 |
| VerticalFixnel.Scrollbar.Fade | src/fixnel.js:355-389 | as written: the change is measured from the in-flight value but the cursor starts at the nominal `b` |
| VerticalFixnel.Scrollbar.Ease | src/fixnel.js:374-388 | a live cursor's value becomes the opacity; a spent one writes exactly the target |
| VerticalFixnel.Scrollbar.FadeTick | src/fixnel.js:387 | the pending step runs Ease |
| VerticalFixnel.Fixnel.constructor | src/fixnel.js:467-494 | a new panel is at rest at 0 |
| VerticalFixnel.Fixnel.StopScrolling | src/fixnel.js:596-603 | the panel stops; nothing is triggered |
| VerticalFixnel.Fixnel.GetVY | src/fixnel.js:705-712 | answers the velocity and stores its strictly slower decay by 1/30 |
| VerticalFixnel.Fixnel.GetValue | src/fixnel.js:516-568 | as HFixnel.GetValue, without truncation |
| VerticalFixnel.Fixnel.BounceValue | src/fixnel.js:527-535 | the bouncing branch |
| VerticalFixnel.Fixnel.Settle | src/fixnel.js:540-557 | the resting branch, from the exact position |
| VerticalFixnel.Fixnel.Coast | src/fixnel.js:559-566 | the coasting branch, untruncated |
| VerticalFixnel.Fixnel.Tick | src/fixnel.js:576-590 | `move` is triggered with the value first, null included; a null stops; every tick that keeps the interval lowers the measure |
| VerticalFixnel.Fixnel.Scrolling | src/fixnel.js:569-591 | one interval, marked moving |
| VerticalFixnel.Fixnel.Stop | src/fixnel.js:608-617 | schedules the stop timeout; a pending one becomes an orphan |
| VerticalFixnel.Fixnel.FireOrphanStopTimer | src/fixnel.js:612-616 | an orphaned stop timeout fires and clears the interval in `timer` |
| VerticalFixnel.Fixnel.FireStopTimer | src/fixnel.js:612-616 | clears the interval only |
| VerticalFixnel.Fixnel.Down | src/fixnel.js:623-632 | starts a drag even during a bounce; triggers `movestart` |
| VerticalFixnel.Fixnel.Move | src/fixnel.js:639-672 | while dragging the panel follows the pointer exactly (no rubber band); velocity is the pointer's movement |
| VerticalFixnel.Fixnel.Up | src/fixnel.js:678-682 | always ends the drag and starts coasting |
| PrototypeFixnel.Fixnel.constructor | src/main.js:187-210 | a new panel is at rest with no intervals |
| PrototypeFixnel.Fixnel.StopScrolling | src/main.js:314-321 | stops and clears only the interval in `timer`; orphans stay |
| PrototypeFixnel.Fixnel.GetVY | src/main.js:405-412 | the strictly slower decay by 1/30 |
| PrototypeFixnel.Fixnel.GetValue | src/main.js:238-290 | as VerticalFixnel's, untruncated |
| PrototypeFixnel.Fixnel.BounceValue | src/main.js:249-257 | the bouncing branch |
| PrototypeFixnel.Fixnel.Settle | src/main.js:262-279 | the resting branch |
| PrototypeFixnel.Fixnel.Coast | src/main.js:281-289 | the coasting branch |
| PrototypeFixnel.Fixnel.Tick | src/main.js:298-307 | any live interval, orphan included, either stops the panel in place or lowers the measure |
| PrototypeFixnel.Fixnel.Scrolling | src/main.js:291-309 | starts a new interval; a live one becomes an orphan |
| PrototypeFixnel.Fixnel.StopScroll | src/main.js:223-232 | schedules the stop timeout; a pending one becomes an orphan |
| PrototypeFixnel.Fixnel.FireOrphanStopTimer | src/main.js:227-231 | an orphaned stop timeout fires and clears the interval in `timer`; orphaned intervals keep running |
| PrototypeFixnel.Fixnel.FireStopTimer | src/main.js:227-231 | clears the interval in `timer`, and no orphan |
| PrototypeFixnel.Fixnel.MouseDown | src/main.js:365-373 | starts a drag at the pointer |
| PrototypeFixnel.Fixnel.MouseMove | src/main.js:327-351 | cancels the latest stop timeout (orphans stay pending); while dragging follows the pointer exactly |
| PrototypeFixnel.Fixnel.MouseUp | src/main.js:357-359 | starts scrolling unconditionally, orphaning a live interval |
| PrototypeFixnel.LeakAfterTwoReleases | src/main.js:291-321 | a drag released into a coast, a second release before any tick and a stop leave one interval running that nothing can clear |
| PrototypeFixnel.Fixnel.ScrollingCleared | src/main.js:291-309 | corrected `_scrolling`, clearing `timer` first as src/hfixnel.js:864 does: starts a new interval and orphans none |
| PrototypeFixnel.Fixnel.MouseUpCleared | src/main.js:357-359 | `mouseup` through the corrected `_scrolling`: no interval is orphaned |
| PrototypeFixnel.NoLeakAfterTwoReleases | src/main.js:291-321 | the same two releases and stop through the corrected `_scrolling` leave no interval running |
| FirstFixnel.Mirror | main.js:59-61 | a value past half the change is reflected below half |
| FirstFixnel.MirrorStaysInLowerHalf | main.js:50-76 | from 0 with a non-negative change every mirrored value lies in [0, c/2] |
| FirstFixnel.Bounce.constructor | main.js:38-45 | a missing or empty type is "easeIn" (`type \|\| 'easeIn'`); any other type is kept as given |
| FirstFixnel.Bounce.Next | main.js:50-65 | null once spent; otherwise t advances, easeOutQuad gives the mirrored value, and any other type throws "not a function" |
| FirstFixnel.Fixnel.constructor | main.js:86-105 | a new panel is at rest |
| FirstFixnel.Fixnel.StopScrolling | main.js:200-205 | clears the interval and `moving`, keeps the velocity |
| FirstFixnel.Fixnel.GetVY | main.js:222-229 | the strictly slower decay by 1/40 |
| FirstFixnel.Fixnel.Tick | main.js:128-148 | zero velocity or past the top stops; past the bottom stops and throws (`_boundUp` is undefined); otherwise moves by the old velocity and the velocity's rank drops |
| FirstFixnel.Fixnel.Scrolling | main.js:121-149 | ends the drag and starts a new interval, orphaning a live one |
| FirstFixnel.Fixnel.StopScroll | main.js:111-120 | schedules the stop timeout; a pending one becomes an orphan |
| FirstFixnel.Fixnel.FireOrphanStopTimer | main.js:115-119 | an orphaned stop timeout fires and clears the interval in `timer` |
| FirstFixnel.Fixnel.FireStopTimer | main.js:115-119 | clears the interval in `timer` |
| FirstFixnel.Fixnel.MouseDown | main.js:179-187 | starts a drag at the pointer |
| FirstFixnel.Fixnel.MouseMove | main.js:150-174 | cancels the latest stop timeout (orphans stay pending); while dragging follows the pointer exactly |
| FirstFixnel.Fixnel.MouseUp | main.js:175-178 | starts scrolling unconditionally |

## Left out

- Layout, listener wiring and touch selection are left out because the
  model has no DOM:
  - DOM creation and styles, including `_createElement` and the class names;
  - `_initSettings`, `_checkWidth`, `_setWidth` and `getOriginalWidth`;
  - the touch-versus-mouse choice of `pageX`;
  - `addEventListener` wiring of the handlers.
  - The sizes that `update` and the scrollbar read from the DOM are
    parameters.
- `getY`/`getX` read the position back from the computed transform
  (WebKitCSSMatrix). The model keeps the last written position instead.
- Scheduling is left out. Timers are flags, fired by explicit methods, and
  the clock is the `now` argument.
- `EventDispatcher.one` is left out. Its wrapper removes itself while a
  dispatch runs, and handlers are opaque ids here. Re-entrant dispatch (a
  handler that adds or removes handlers) is left out for the same reason.
- Handler dispatch between components is left out. A panel returns its
  events; whoever connects them to the scrollbar does so outside the model.
- `HScrollbar.timer` is never assigned in src/hfixnel.js, so
  `_moveStart`'s `this.timer` test is always false and is not modelled.
- NaN and the infinities are left out; numbers are exact reals.
- The sine, exponential and circular curves are arbitrary functions, not
  their formulas. This includes the easeOutExpo of the bounce and of moveTo.
- Cursors.Easing.constructor requires a positive duration; a zero duration
  gives NaN in the source.
- HorizontalScrollbar.HScrollbar.constructor, ContentInfo and Update
  require a positive content size; 0 gives an infinite ratio.
- VerticalFixnel.Scrollbar.constructor requires a positive content size,
  for the same reason.
- HorizontalPanel.MoveGoal: `g <= 0` is stated only when the content is at
  least as wide as its container. Otherwise the range `[-right, 0]` is empty
  and the second clamp yields `-right > 0`.
- HorizontalScrollbar.ThumbWithinTrack: the written thumb is not promised
  to fit the track. `_setSize` raises a base length under 6 to 6, so the
  thumb can overhang the track's end by up to 5 px (`ThumbOverhangs`).
- HorizontalScrollbar.HScrollbar: a `_pos` of 0 stands both for 0 and for
  never set, as both are falsy in `_setPos`.
- HorizontalScrollbar.HScrollbar.Move: the `moveend` the bar triggers on
  its own dispatcher is returned as a flag. No handler is registered for
  it in src/hfixnel.js.
- FirstFixnel.Bounce: a type that names another member of the prototype
  (`init`, `getValue`) would call that member. The model treats every name
  other than `easeOutQuad` as missing.
- The demo driver in main.js lines 244-277 is left out.
- Combined-axis operation (a vertical and a horizontal core side by side)
  is not part of this model.

## Findings

| source | as written | input that shows it | evidently intended | confidence | as-written member | corrected member |
|---|---|---|---|---|---|---|
| src/fixnel.js:371 | `_fade` measures the change `c` from the in-flight value `_b` but starts the cursor at the nominal `b`, so an interrupted fade jumps to `b` and its eased part ends at `b + f - _b` instead of `f` | a hide (b = 1, f = 0) while a show from 0 answers 0.75 (its step 15): the cursor starts at 1 and its last eased value is 0.25, then the bar jumps to 0 | start the cursor at `_b`, as src/hfixnel.js:366 does | high, not executed | VerticalFixnel.Scrollbar.Fade, VerticalFixnel.InterruptedHideJumps | Fading.Fader.Fade, Fading.ContinuousFade |
| src/main.js:298 | `_scrolling` stores a new interval in `timer` without clearing the old one; a release while coasting leaves an interval nothing can clear | a drag released into a coast, a second release before any tick, then a stop: one interval keeps running | clear the old interval first, as src/hfixnel.js:864 does | high, not executed | PrototypeFixnel.LeakAfterTwoReleases | PrototypeFixnel.Fixnel.ScrollingCleared, PrototypeFixnel.NoLeakAfterTwoReleases |
| src/hfixnel.js:306 | `fadeIn` (and `fadeOut`) cancel the running fade's next step before their direction and opacity checks, so a call that then returns early freezes the fade | (1) a new Fader at opacity 0, then `fadeIn()` twice within one 32 ms frame (for example `_renderShow` and a pointer-down at once): opacity 0 in FADE_IN with no step pending; later fadeIn calls stop at the direction check, fadeOut stops at the opacity check, and the bar stays hidden. (2) a new Fader at opacity 1, then `fadeOut()` and `fadeIn()` within one frame: opacity 1 in FADE_OUT with no step pending; fadeOut stops at the direction check, fadeIn at the opacity check, and the bar never hides again | a same-direction call, or a call at the resting end, only cancels the pending hide and the fade keeps running; an opposite call always reverses a running fade | medium, not executed | Fading.FrozenFadeIn, Fading.FrozenFadeOut | Fading.Fader.FadeInChecked, Fading.Fader.FadeOutChecked, Fading.ProgressingFadeIn, Fading.ReversedFadeOut |

The horizontal panel's interval is cleared before it is replaced and on
every stop. HorizontalPanel.HFixnel.Tick proves that each tick that keeps
the interval lowers a well-founded measure, so a stopped panel has no live
interval. The scrollbar model (`HorizontalScrollbar.HScrollbar`) keeps
calling the as-written `fadeIn`/`fadeOut`, because it models the code.
