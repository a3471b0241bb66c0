/** The facts the card's markup derives from its state: whether the curtain
    wrapper is in the keyboard focus order, whether the hint is rendered and
    what it says, and whether the confetti overlay is mounted. */
module View {
  import opened Optional
  import opened MessageCard
  import opened Viewport

  /** `tabIndex` of the curtain wrapper. */
  function TabIndex(s: State): int {
    if s.curtainsOpened then -1 else 0
  }

  predicate HintRendered(s: State) {
    !s.curtainsOpened
  }

  /** The verb of the hint, chosen from the width at render time. */
  function HintLabel(width: int): string {
    if width <= 768 then "Tap" else "Click"
  }

  predicate ConfettiRendered(s: State) {
    s.showConfetti
  }

  /** The wrapper is focusable exactly when a key press on it can still open
      the curtains, and leaves the focus order once they are open. */
  lemma FocusableIffKeyboardOpens(s: State, width: int)
    ensures TabIndex(s) == -1 <==> s.curtainsOpened
    ensures TabIndex(s) >= 0 <==> Step(s, Key("Enter", width)).state != s
    ensures TabIndex(s) >= 0 <==> Step(s, Key(" ", width)).state != s
  {
  }

  /** The hint is on screen exactly when touches give feedback on it. */
  lemma HintRenderedIffTouchFeedback(s: State)
    ensures HintRendered(s) <==> Step(s, TouchStart).tweens != []
    ensures HintRendered(s) <==> Step(s, TouchEnd).tweens != []
  {
  }

  /** Once open, the trigger surface is inert: out of the focus order, no hint,
      and clicks and keys change nothing. */
  lemma InertOnceOpen(s: State, key: string, width: int)
    requires s.curtainsOpened
    ensures TabIndex(s) == -1 && !HintRendered(s)
    ensures Step(s, Key(key, width)) == Output(s, [], false)
    ensures Step(s, Click(width)) == Output(s, [], false)
  {
  }

  /** The hint says "Tap" exactly for the widths that get the mobile timings. */
  lemma HintLabelFollowsMobile(width: int)
    ensures HintLabel(width) == "Tap" <==> IsMobile(width)
    ensures HintLabel(width) == "Tap" <==> Classify(width) != Large
    ensures HintLabel(width) != "Tap" ==> HintLabel(width) == "Click"
  {
  }

  /** The confetti overlay is mounted only when the 10 ms timer of an
      entering edge fires, and unmounted only when the 5000 ms timer does. */
  lemma ConfettiMountsOnlyByTimers(s: State, e: Event)
    ensures !ConfettiRendered(s) && ConfettiRendered(Step(s, e).state) ==>
      e.Fire? && Lookup(s.timers, e.id) == Some(ShowConfetti)
    ensures ConfettiRendered(s) && !ConfettiRendered(Step(s, e).state) ==>
      e.Fire? && Lookup(s.timers, e.id) == Some(HideConfetti)
  {
  }
}
