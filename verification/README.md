# Message card: opening animation and reveal state machine

This project models the `MessageCard` component of a birthday-message web page,
written in Dafny. The card shows a message behind a pair of curtains. A click,
or Enter or Space on the curtain wrapper, opens the curtains with a GSAP
animation. The animation's timings and angle depend on the viewport width.
When the card's page becomes active, a confetti overlay is pulsed on for
5 seconds. When the page is left, the curtains are reset after 300 ms.

The model has two parts.

- **Animation parameters and tween batches** (`viewport.dfy`, `tweens.dfy`,
  `sequences.dfy`). The open handler turns the viewport width into seven
  parameters. There are three width classes: at most 480 px, at most 768 px,
  and wider. The parameters are the curtain duration, the swing angle, the
  curtain-fade delay and duration, the message-reveal delay and duration, and
  the hint fade. `ParamsFor` computes them flag by flag, as the handler does.
  `ClassParams` is an independent per-class table, and the two are proved
  equal. The GSAP calls are modelled as declarative `Tween` records:
  - the targets;
  - the placement, either stand-alone or at a timeline position;
  - the delay and the duration;
  - the end values.

  `LatestEnd` gives when a batch completes. `FinalValue` gives the value a
  batch leaves on each element's property.
- **Reveal/confetti state machine** (`message_card.dfy`, `view.dfy`). The
  state holds:
  - `curtainsOpened` and `showConfetti`;
  - the `isActive` prop of the last render;
  - the `prevIsActive` ref;
  - the pending `setTimeout` callbacks, as timers with fresh ids;
  - the timer the effect's cleanup will clear.

  Events are clicks, key presses, touches, `isActive` changes and the firing
  of a pending timer. A pending timer may fire in any order, so every property
  holds for every interleaving of timer callbacks. `Step` is the pure
  transition function. `Run` and `Emitted` fold it over a sequence of events.
  `Inv` is proved for every state reachable from `Mount`. It says:
  - the ref equals the prop;
  - timer ids are distinct and below the id counter;
  - the only pending confetti-hide timer is the one the cleanup will clear.

Units: times are whole milliseconds. Opacity and scale are in hundredths, so
0.95 is 95. `x` is a percentage of the element's width and `rotationY` is in
degrees.

Some behaviour follows from the code as written, and the model keeps it:

- The 10 ms confetti-show timer and the 300 ms reset timer are never cleared.
- The effect's cleanup clears only the 5000 ms hide timer. Leaving the page
  after the confetti came on, but before it went off, therefore leaves it on
  until the page is entered again (`Scenarios.LeavingEarlyLeavesConfettiOn`).
  Leaving within the first 10 ms turns it on while the page is inactive
  (`Scenarios.ShowTimerOutlivesLeaving`).
- Coming back before the 300 ms reset fires does not stop it
  (`Scenarios.ResetOutlivesReturn`).
- Some behaviour one might expect of such a card is absent from the code, and
  the model follows the code:
  - There is no transient "opening" state and no sequence-generation counter.
  - No pending animation is cancelled when the page is left.
  - The confetti is not hidden at once on leaving.
  - `curtainsOpened` becomes false when the reset timer fires, before the
    reset tweens run, not after they complete.
- On a 481–768 px viewport the message is fully revealed 1.4 s after the
  click (600 ms delay plus 800 ms).

## Model

| member | source | states |
|---|---|---|
| Viewport.ParamsFor | src/components/MessageCard.jsx:96-158 | The parameters the handler derives from the `isMobile`/`isSmallMobile` flags equal the per-width-class table: 1200 ms/10°, 1400 ms/12° or 1500 ms/15°, fade delay 800 or 1000 ms, reveal 600+800 or 800+1000 ms, and fixed 500 ms fade and 400 ms hint fade |
| Viewport.WidthClassParameters | src/components/MessageCard.jsx:96-101 | Width ≤ 480 gives 1200 ms and 10°, 481–768 gives 1400 ms and 12°, wider gives 1500 ms and 15°; the boundary widths 480 and 768 fall into the smaller class |
| Viewport.SecondaryTimingsFollowMobile | src/components/MessageCard.jsx:104-158 | Two widths on the same side of 768 px get the same fade delay, reveal delay and reveal duration; the curtain fade is always 500 ms and the hint fade always 400 ms |
| Viewport.SecondaryTimingValues | src/components/MessageCard.jsx:137-158 | Mobile widths get fade delay 800, reveal delay 600 and reveal 800 ms; wider ones get 1000, 800 and 1000 ms |
| Viewport.WiderIsNeverFaster | src/components/MessageCard.jsx:96-158 | A wider viewport never gets a shorter curtain slide, a smaller angle or an earlier or shorter fade and reveal |
| Sequences.OpenTimelineAtZero | src/components/MessageCard.jsx:103-158 | The opening issues five tweens; the 400 ms hint fade is the only stand-alone one and every timeline entry sits at position 0 |
| Sequences.CurtainsMirror | src/components/MessageCard.jsx:114-134 | The left and right curtain slides have the same placement, delay and duration; the left ends at x -100% and rotation -angle, the right at +100% and +angle |
| Sequences.OpenEndValues | src/components/MessageCard.jsx:103-158 | The opening's tweens end with both curtains at opacity 0, the hint tween at opacity 0 and scale 0.8, and the message at opacity 1 and scale 1; the hint element itself is unmounted by the same state change that starts its fade (see `View.HintRendered`) |
| Sequences.OpenEnds | src/components/MessageCard.jsx:103-158 | Each opening tween ends after the hint-fade, curtain, fade-delay-plus-fade or reveal-delay-plus-reveal time of the width's parameters |
| Sequences.OpenSequenceTiming | src/components/MessageCard.jsx:112-158 | The opening completes when the message reveal ends, at 1400 ms (mobile) or 1800 ms; the curtains finish fading at 1300 or 1500 ms and finish sliding after the curtain duration |
| Sequences.ResetSequenceTiming | src/components/MessageCard.jsx:56-84 | The reset restores curtain opacity during 0–300 ms, swings the curtains back during 300–800 ms and fades the message by 300 ms; it completes at 800 ms |
| Sequences.ResetEndValues | src/components/MessageCard.jsx:56-84 | After the reset both curtains are at opacity 1, x 0% and rotation 0, and the message at opacity 0 and scale 0.9 |
| Sequences.SequencesUnambiguous | src/components/MessageCard.jsx:56-158 | Neither the opening nor the reset drives one property of one element twice |
| Sequences.ResetCoversOpen | src/components/MessageCard.jsx:56-158 | For the curtains and the message, the reset drives exactly the properties the opening drove |
| MessageCard.Cancel | src/components/MessageCard.jsx:48 | `clearTimeout` removes exactly the timers with the given id and keeps every other one; distinct ids stay distinct |
| MessageCard.OpenCurtains | src/components/MessageCard.jsx:91-93 | The open handler leaves the curtains open and changes nothing else; when they were already open it changes nothing and issues no tween, otherwise it issues the opening sequence for the current width |
| MessageCard.KeyDown | src/components/MessageCard.jsx:199-204 | The default action is suppressed exactly for Enter or Space on closed curtains, which then open with the opening sequence; any other key, or any key once open, changes nothing |
| MessageCard.Touch | src/components/MessageCard.jsx:162-180 | Touches never change the state; while the curtains are closed they issue one stand-alone 100 ms tween that drives only the hint's scale, to 0.95 on touch start and to 1 on touch end, and once open they issue none |
| MessageCard.ChangeActive | src/components/MessageCard.jsx:42-89 | The effect re-runs only when `isActive` changes; the ref then records the new value, the curtains and confetti are untouched, and each new timer is a curtain reset exactly when the page was left |
| MessageCard.FireTimer | src/components/MessageCard.jsx:44-84 | A pending timer fires once and is removed: the show timer turns the confetti on, the hide timer turns it off, and neither issues a tween; the reset timer closes the curtains and issues the reset sequence; an id no longer pending does nothing |
| MessageCard.Mount | src/components/MessageCard.jsx:7-9 | The card mounts closed, without confetti and with no pending timers, whatever the initial `isActive`, so mounting on an active page pulses nothing |
| MessageCard.Step | src/components/MessageCard.jsx:42-204 | Curtains open only by click or Enter/Space and close only by the reset timer; the confetti goes on only by the show timer and off only by the hide timer; only an `isActive` change schedules timers, a reset exactly when leaving; only key presses suppress defaults |
| MessageCard.ChangeActivePreservesInv | src/components/MessageCard.jsx:42-89 | An `isActive` change keeps the ref equal to the prop, ids distinct and fresh, and the hide timer tied to the cleanup |
| MessageCard.StepPreservesInv | src/components/MessageCard.jsx:42-204 | Every event keeps the invariant |
| MessageCard.RunPreservesInv | src/components/MessageCard.jsx:42-204 | Every sequence of events keeps the invariant |
| MessageCard.ReachableInv | src/components/MessageCard.jsx:7-89 | The invariant holds in every state reachable from mounting |
| MessageCard.HideTimerOnlyWhileActive | src/components/MessageCard.jsx:44-49 | At most one confetti-hide timer is pending, and none while the page is inactive |
| MessageCard.EnteringSchedulesPulse | src/components/MessageCard.jsx:44-49 | Entering appends a 10 ms confetti-on and a 5000 ms confetti-off timer to the pending ones, sets the ref, and leaves curtains and confetti as they were |
| MessageCard.LeavingSchedulesReset | src/components/MessageCard.jsx:48-87 | Leaving clears the pending hide timer, keeps every other timer, adds one 300 ms curtain reset, clears the ref, and leaves curtains and confetti as they were |
| MessageCard.ConfettiOutlivesLeaving | src/components/MessageCard.jsx:44-52 | Once the page is inactive with the confetti on, no sequence of events short of entering again turns it off |
| MessageCard.OnlyLeavingCloses | src/components/MessageCard.jsx:52-54 | Open curtains with no reset pending stay open under any events that do not leave the page |
| MessageCard.OnlyEnteringShowsConfetti | src/components/MessageCard.jsx:44-45 | Hidden confetti with no show timer pending stays hidden under any events that do not enter the page |
| MessageCard.RepeatedActivationOpensOnce | src/components/MessageCard.jsx:91-93 | Any run of clicks and Enter/Space presses only opens the curtains, and issues the opening sequence once, for the first activation's width, or nothing when already open |
| MessageCard.KeyActsLikeClick | src/components/MessageCard.jsx:199-204 | Enter and Space reach the same state and issue the same tweens as a click; any other key changes nothing and suppresses nothing |
| View.FocusableIffKeyboardOpens | src/components/MessageCard.jsx:197-204 | `tabIndex` is -1 exactly when open, and the wrapper is focusable exactly when Enter or Space would change the state |
| View.HintRenderedIffTouchFeedback | src/components/MessageCard.jsx:163-209 | The hint is rendered exactly when touch start and touch end give feedback on it |
| View.InertOnceOpen | src/components/MessageCard.jsx:189-209 | Once open, the wrapper is out of the focus order, the hint is gone, and clicks and key presses change nothing |
| View.HintLabelFollowsMobile | src/components/MessageCard.jsx:210 | The hint says "Tap" exactly for the widths that get the mobile timings (the two smaller classes) and "Click" otherwise |
| View.ConfettiMountsOnlyByTimers | src/components/MessageCard.jsx:225 | The confetti overlay is mounted only when a show timer fires and unmounted only when a hide timer fires |
| Scenarios.EnteredTimers | src/components/MessageCard.jsx:44-46 | After entering, the ids just handed out find the confetti-on and confetti-off timers |
| Scenarios.ShowFiredTimers | src/components/MessageCard.jsx:44-48 | Once the 10 ms timer has fired, the 5000 ms timer is the only addition to the timers pending before entering |
| Scenarios.ShowFired | src/components/MessageCard.jsx:45 | Firing the 10 ms timer turns the confetti on without touching the curtains or issuing tweens |
| Scenarios.EnteringPulse | src/components/MessageCard.jsx:44-49 | Entering then firing both timers turns the confetti on and off again, restores the pending timers, and leaves the curtains alone |
| Scenarios.LeavingEarlyLeavesConfettiOn | src/components/MessageCard.jsx:44-52 | Entering, showing the confetti and leaving leaves it on under any later events that do not enter again |
| Scenarios.EnterLeaveKeepsShowTimer | src/components/MessageCard.jsx:45-48 | Entering and leaving before 10 ms leaves the show timer pending |
| Scenarios.ShowTimerOutlivesLeaving | src/components/MessageCard.jsx:45-48 | The show timer still fires after leaving and turns the confetti on while the page is inactive |
| Scenarios.OpenLeaveSchedulesReset | src/components/MessageCard.jsx:52-84 | Opening then leaving leaves a curtain reset pending under the next timer id |
| Scenarios.OpenThenLeave | src/components/MessageCard.jsx:52-84 | Opening, leaving and firing the reset closes the curtains, and the tweens issued are the opening sequence followed by the reset sequence |
| Scenarios.ReturnKeepsReset | src/components/MessageCard.jsx:52-84 | Coming back before the reset fires leaves it pending |
| Scenarios.ResetOutlivesReturn | src/components/MessageCard.jsx:52-84 | The reset still closes the curtains after the page was re-entered |

## Left out

- GSAP interpolation and easing (`power3.inOut`, `back.out(1.2)` and so on): tweens are modelled only by their targets, timing and end values, since the in-between values are computed by a foreign library in floating point.
- Conflicts between overlapping tween batches at run time: a reset issued while the opening is still animating is not modelled as overriding it, because that arbitration happens inside GSAP.
- React rendering, DOM refs and CSS classes: only the facts the markup derives from the state are modelled (`tabIndex`, whether the hint is rendered, its label, whether the confetti is mounted). The refs are always rendered when the handlers and timers use them, so their null checks are taken to pass.
- The `Confetti` component and the stylesheet: they are separate collaborators; only whether the overlay is mounted is modelled.
- The message text: fixed content with no logic.
- Real time and `window.innerWidth`: timers fire through explicit `Fire` events in any order, and the width is a parameter of click and key events, read when the event happens.
- Unmounting, and React's double-invoked effects in development mode: the model starts at mount and has no teardown.
