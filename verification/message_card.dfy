/** The reveal-and-confetti state machine of the message card.

    The card keeps two pieces of React state, `curtainsOpened` and
    `showConfetti`, and a ref `prevIsActive` holding the activation flag seen by
    the last run of its effect. Users open the curtains by click, Enter or
    Space; touches only give feedback on the hint. Whenever the page's
    `isActive` prop changes, the effect first runs the previous run's cleanup
    and then reacts to the edge: entering schedules the confetti on after 10 ms
    and off after 5000 ms (and returns a cleanup that clears only the latter);
    leaving schedules a reset of the curtains after 300 ms. Pending
    `setTimeout` callbacks are kept as a list of timers that fire one at a
    time, in any order. */
module MessageCard {
  import opened Optional
  import opened Tweens
  import opened Sequences

  const ShowDelayMs: nat := 10
  const HideDelayMs: nat := 5000
  const ResetDelayMs: nat := 300

  /** What a pending timer does when it fires. */
  datatype Action = ShowConfetti | HideConfetti | ResetCurtains

  datatype Timer = Timer(id: nat, delayMs: nat, action: Action)

  datatype State = State(
    curtainsOpened: bool,
    showConfetti: bool,
    isActive: bool,        // the prop as of the last render: the effect's dependency
    prevIsActive: bool,    // the `prevIsActive` ref
    timers: seq<Timer>,    // pending `setTimeout` callbacks
    cleanup: Option<nat>,  // the timer the last effect run's cleanup will clear
    nextId: nat)           // id the next `setTimeout` returns

  /** Inputs to the card. Click and key presses carry the viewport width, which
      the open handler reads at that moment. */
  datatype Event =
    | Click(width: int)
    | Key(key: string, width: int)
    | TouchStart
    | TouchEnd
    | SetActive(active: bool)
    | Fire(id: nat)

  /** The state after an event, the tweens the event issued, and whether the
      browser's default action for it was suppressed. */
  datatype Output = Output(state: State, tweens: seq<Tween>, defaultPrevented: bool)

  // ---------------------------------------------------------------- timers

  predicate IdsDistinct(ts: seq<Timer>) {
    forall i, j :: 0 <= i < j < |ts| ==> ts[i].id != ts[j].id
  }

  /** The action of the pending timer with the given id, if there is one. */
  function Lookup(ts: seq<Timer>, id: nat): (r: Option<Action>)
    ensures r.None? <==> forall i :: 0 <= i < |ts| ==> ts[i].id != id
    ensures r.Some? ==> exists i :: 0 <= i < |ts| && ts[i].id == id && ts[i].action == r.value
  {
    if |ts| == 0 then None
    else if ts[0].id == id then Some(ts[0].action)
    else
      assert forall i :: 1 <= i < |ts| ==> ts[i] == ts[1..][i - 1];
      Lookup(ts[1..], id)
  }

  /** The pending timers once the one with the given id is gone, either because
      it was cleared or because it has fired; any other timer is kept. */
  function Cancel(ts: seq<Timer>, id: nat): (r: seq<Timer>)
    ensures forall t :: t in r <==> t in ts && t.id != id
    ensures IdsDistinct(ts) ==> IdsDistinct(r)
  {
    if |ts| == 0 then []
    else
      var rest := Cancel(ts[1..], id);
      assert IdsDistinct(ts) ==> IdsDistinct(ts[1..]) by {
        if IdsDistinct(ts) {
          forall i, j | 0 <= i < j < |ts[1..]|
            ensures ts[1..][i].id != ts[1..][j].id
          {
            assert ts[1..][i] == ts[i + 1] && ts[1..][j] == ts[j + 1];
          }
        }
      }
      if ts[0].id == id then rest
      else
        assert IdsDistinct(ts) ==> forall t :: t in rest ==> t.id != ts[0].id by {
          if IdsDistinct(ts) {
            forall t | t in rest
              ensures t.id != ts[0].id
            {
              var k :| 0 <= k < |ts[1..]| && ts[1..][k] == t;
              assert ts[k + 1] == t;
            }
          }
        }
        [ts[0]] + rest
  }

  /** `setTimeout`: a new pending timer under a fresh id. */
  function Schedule(s: State, delayMs: nat, a: Action): State {
    s.(timers := s.timers + [Timer(s.nextId, delayMs, a)], nextId := s.nextId + 1)
  }

  // -------------------------------------------------------------- handlers

  /** Keys that open the curtains from the keyboard. */
  predicate IsActivationKey(key: string) {
    key == "Enter" || key == " "
  }

  /** The open handler: opens the curtains and issues the opening sequence for
      the current viewport width, unless they are open already. */
  function OpenCurtains(s: State, width: int): (o: Output)
    ensures o.state.curtainsOpened
    ensures o.state.(curtainsOpened := s.curtainsOpened) == s
    ensures s.curtainsOpened ==> o.state == s && o.tweens == []
    ensures !s.curtainsOpened ==> o.tweens == OpenSequence(width)
    ensures !o.defaultPrevented
  {
    if !s.curtainsOpened then Output(s.(curtainsOpened := true), OpenSequence(width), false)
    else Output(s, [], false)
  }

  /** The key handler: Enter and Space open closed curtains, suppressing the
      key's default action; every other key, and any key once open, is
      ignored. */
  function KeyDown(s: State, key: string, width: int): (o: Output)
    ensures o.defaultPrevented <==> IsActivationKey(key) && !s.curtainsOpened
    ensures o.defaultPrevented ==> o.state == s.(curtainsOpened := true) && o.tweens == OpenSequence(width)
    ensures !o.defaultPrevented ==> o.state == s && o.tweens == []
  {
    if IsActivationKey(key) && !s.curtainsOpened then
      OpenCurtains(s, width).(defaultPrevented := true)
    else Output(s, [], false)
  }

  /** The touch handlers: feedback on the hint while the curtains are closed,
      and never any change of state. */
  function Touch(s: State, pressed: bool): (o: Output)
    ensures o.state == s && !o.defaultPrevented
    ensures |o.tweens| <= 1
    ensures o.tweens != [] <==> !s.curtainsOpened
    ensures forall i :: 0 <= i < |o.tweens| ==> o.tweens[i].targets == {Hint}
    ensures forall i :: 0 <= i < |o.tweens| ==>
      && o.tweens[i].to.Keys == {Scale}
      && o.tweens[i].to[Scale] == (if pressed then 95 else 100)
      && o.tweens[i].placement == Standalone
      && o.tweens[i].delayMs == 0 && o.tweens[i].durationMs == 100
  {
    if !s.curtainsOpened then Output(s, [TouchFeedback(pressed)], false)
    else Output(s, [], false)
  }

  /** The cleanup returned by the effect's last run. */
  function RunCleanup(s: State): State {
    match s.cleanup
    case None => s
    case Some(id) => s.(timers := Cancel(s.timers, id), cleanup := None)
  }

  /** One run of the `isActive` effect. */
  function RunEffect(s: State, isActive: bool): State {
    if isActive && !s.prevIsActive then
      var withShow := Schedule(s, ShowDelayMs, ShowConfetti);
      var withHide := Schedule(withShow, HideDelayMs, HideConfetti);
      withHide.(prevIsActive := isActive, cleanup := Some(withShow.nextId))
    else if !isActive && s.prevIsActive then
      Schedule(s, ResetDelayMs, ResetCurtains).(prevIsActive := isActive, cleanup := None)
    else
      s.(prevIsActive := isActive, cleanup := None)
  }

  /** A new `isActive` prop: the effect re-runs, after the previous cleanup,
      only when the value differs from the last render's. The effect never
      touches the curtains or the confetti directly; only timers do. */
  function ChangeActive(s: State, isActive: bool): (r: State)
    ensures r.isActive == isActive && r.prevIsActive == (if isActive == s.isActive then s.prevIsActive else isActive)
    ensures r.curtainsOpened == s.curtainsOpened && r.showConfetti == s.showConfetti
    ensures isActive == s.isActive ==> r == s
    ensures forall t :: t in r.timers && t !in s.timers ==> (t.action == ResetCurtains <==> !isActive)
  {
    if isActive == s.isActive then s
    else RunEffect(RunCleanup(s), isActive).(isActive := isActive)
  }

  /** A pending timer runs its callback: the reset closes the curtains and
      issues the reset sequence. A timer that is no longer pending does
      nothing. */
  function FireTimer(s: State, id: nat): (o: Output)
    ensures Lookup(s.timers, id).None? ==> o == Output(s, [], false)
    ensures forall t :: t in o.state.timers <==> t in s.timers && t.id != id
    ensures o.state.isActive == s.isActive && o.state.prevIsActive == s.prevIsActive
    ensures o.state.cleanup == s.cleanup && o.state.nextId == s.nextId
    ensures Lookup(s.timers, id) == Some(ShowConfetti) ==> o.state.showConfetti && o.state.curtainsOpened == s.curtainsOpened
    ensures Lookup(s.timers, id) == Some(HideConfetti) ==> !o.state.showConfetti && o.state.curtainsOpened == s.curtainsOpened
    ensures Lookup(s.timers, id) == Some(ResetCurtains) ==>
      !o.state.curtainsOpened && o.state.showConfetti == s.showConfetti && o.tweens == ResetSequence()
    ensures Lookup(s.timers, id) != Some(ResetCurtains) ==> o.tweens == []
    ensures !o.defaultPrevented
  {
    match Lookup(s.timers, id)
    case None => Output(s, [], false)
    case Some(a) =>
      var rest := s.(timers := Cancel(s.timers, id));
      match a
      case ShowConfetti => Output(rest.(showConfetti := true), [], false)
      case HideConfetti => Output(rest.(showConfetti := false), [], false)
      case ResetCurtains => Output(rest.(curtainsOpened := false), ResetSequence(), false)
  }

  /** The card as first rendered: closed, no confetti, and a first effect run
      that finds no edge, so mounting on an active page pulses nothing. */
  function Mount(isActive: bool): (r: State)
    ensures Inv(r)
    ensures !r.curtainsOpened && !r.showConfetti && r.isActive == isActive
    ensures r.timers == [] && r.cleanup == None
  {
    RunEffect(State(false, false, isActive, isActive, [], None, 0), isActive)
  }

  /** One event. Each state flag moves in one direction only through one kind
      of event: the curtains open by user activation and close by the reset
      timer, the confetti goes on and off by its two timers, and only an
      activation change schedules timers. */
  function Step(s: State, e: Event): (o: Output)
    ensures !s.curtainsOpened && o.state.curtainsOpened ==> e.Click? || (e.Key? && IsActivationKey(e.key))
    ensures s.curtainsOpened && !o.state.curtainsOpened ==> e.Fire? && Lookup(s.timers, e.id) == Some(ResetCurtains)
    ensures !s.showConfetti && o.state.showConfetti ==> e.Fire? && Lookup(s.timers, e.id) == Some(ShowConfetti)
    ensures s.showConfetti && !o.state.showConfetti ==> e.Fire? && Lookup(s.timers, e.id) == Some(HideConfetti)
    ensures o.state.isActive != s.isActive ==> e.SetActive?
    ensures forall t :: t in o.state.timers && t !in s.timers ==> e.SetActive? && (t.action == ResetCurtains <==> !e.active)
    ensures o.defaultPrevented ==> e.Key?
    ensures e.SetActive? ==> o.tweens == []
  {
    match e
    case Click(width) => OpenCurtains(s, width)
    case Key(key, width) => KeyDown(s, key, width)
    case TouchStart => Touch(s, true)
    case TouchEnd => Touch(s, false)
    case SetActive(active) => Output(ChangeActive(s, active), [], false)
    case Fire(id) => FireTimer(s, id)
  }

  /** The state after a sequence of events. */
  function Run(s: State, evs: seq<Event>): State
    decreases |evs|
  {
    if |evs| == 0 then s else Run(Step(s, evs[0]).state, evs[1..])
  }

  /** Every tween issued along a sequence of events, in order. */
  function Emitted(s: State, evs: seq<Event>): seq<Tween>
    decreases |evs|
  {
    if |evs| == 0 then [] else Step(s, evs[0]).tweens + Emitted(Step(s, evs[0]).state, evs[1..])
  }

  // ------------------------------------------------------------- invariant

  /** What holds of every state the card can reach. */
  ghost predicate Inv(s: State) {
    && s.isActive == s.prevIsActive
    && IdsDistinct(s.timers)
    && (forall t :: t in s.timers ==> t.id < s.nextId)
    && (s.cleanup.Some? ==> s.prevIsActive)
    && (forall t :: t in s.timers && t.action == HideConfetti ==> s.cleanup == Some(t.id))
    && (forall t :: t in s.timers && s.cleanup == Some(t.id) ==> t.action == HideConfetti)
  }

  /** Appending a timer whose id is above every pending id keeps ids distinct. */
  lemma AppendFreshTimer(ts: seq<Timer>, t: Timer)
    requires IdsDistinct(ts)
    requires forall u :: u in ts ==> u.id < t.id
    ensures IdsDistinct(ts + [t])
  {
    var r := ts + [t];
    forall i, j | 0 <= i < j < |r|
      ensures r[i].id != r[j].id
    {
      if j == |ts| {
        assert r[i] in ts;
      }
    }
  }

  /** A state with no confetti-hiding timer and no cleanup: what the cleanup
      leaves behind for the effect's next run. */
  ghost predicate Quiet(c: State) {
    && c.cleanup == None
    && IdsDistinct(c.timers)
    && (forall t :: t in c.timers ==> t.id < c.nextId && t.action != HideConfetti)
  }

  lemma CleanupIsQuiet(s: State)
    requires Inv(s)
    ensures Quiet(RunCleanup(s))
    ensures RunCleanup(s).prevIsActive == s.prevIsActive
  {
  }

  lemma EnteringKeepsInv(c: State)
    requires Quiet(c) && !c.prevIsActive
    ensures Inv(RunEffect(c, true).(isActive := true))
  {
    var n := c.nextId;
    AppendFreshTimer(c.timers, Timer(n, ShowDelayMs, ShowConfetti));
    var withShow := Schedule(c, ShowDelayMs, ShowConfetti);
    AppendFreshTimer(withShow.timers, Timer(n + 1, HideDelayMs, HideConfetti));
  }

  lemma LeavingKeepsInv(c: State)
    requires Quiet(c) && c.prevIsActive
    ensures Inv(RunEffect(c, false).(isActive := false))
  {
    AppendFreshTimer(c.timers, Timer(c.nextId, ResetDelayMs, ResetCurtains));
  }

  /** An activation change keeps the invariant. */
  lemma ChangeActivePreservesInv(s: State, isActive: bool)
    requires Inv(s)
    ensures Inv(ChangeActive(s, isActive))
  {
    if isActive != s.isActive {
      CleanupIsQuiet(s);
      if isActive {
        EnteringKeepsInv(RunCleanup(s));
      } else {
        LeavingKeepsInv(RunCleanup(s));
      }
    }
  }

  /** Every event keeps the invariant. */
  lemma StepPreservesInv(s: State, e: Event)
    requires Inv(s)
    ensures Inv(Step(s, e).state)
  {
    match e
    case SetActive(active) => ChangeActivePreservesInv(s, active);
    case Fire(id) =>
    case _ =>
  }

  /** Every sequence of events keeps the invariant. */
  lemma {:induction false} RunPreservesInv(s: State, evs: seq<Event>)
    requires Inv(s)
    ensures Inv(Run(s, evs))
    decreases |evs|
  {
    if |evs| > 0 {
      StepPreservesInv(s, evs[0]);
      RunPreservesInv(Step(s, evs[0]).state, evs[1..]);
    }
  }

  /** The invariant holds in every state reachable from mounting. */
  lemma ReachableInv(isActive: bool, evs: seq<Event>)
    ensures Inv(Run(Mount(isActive), evs))
  {
    RunPreservesInv(Mount(isActive), evs);
  }

  // ------------------------------------------------------------ properties

  /** At most one confetti-hide timer is ever pending, and none while the page
      is inactive. */
  lemma HideTimerOnlyWhileActive(s: State)
    requires Inv(s)
    ensures forall i, j ::
      (0 <= i < |s.timers| && 0 <= j < |s.timers| &&
       s.timers[i].action == HideConfetti && s.timers[j].action == HideConfetti) ==> i == j
    ensures !s.isActive ==> forall t :: t in s.timers ==> t.action != HideConfetti
  {
    forall i, j | 0 <= i < |s.timers| && 0 <= j < |s.timers|
      && s.timers[i].action == HideConfetti && s.timers[j].action == HideConfetti
      ensures i == j
    {
      assert s.timers[i] in s.timers && s.timers[j] in s.timers;
    }
  }

  /** The entering edge: keeps every pending timer and schedules the confetti on
      after 10 ms and off after 5000 ms; the curtains and the confetti flag are
      untouched and the ref records the page as active. */
  lemma EnteringSchedulesPulse(s: State)
    requires Inv(s) && !s.isActive
    ensures var r := ChangeActive(s, true);
      && r.timers == s.timers + [Timer(s.nextId, 10, ShowConfetti), Timer(s.nextId + 1, 5000, HideConfetti)]
      && r.prevIsActive
      && r.curtainsOpened == s.curtainsOpened && r.showConfetti == s.showConfetti
  {
  }

  /** The leaving edge: clears the pending confetti-hide timer, keeps every
      other pending timer and schedules one curtain reset after 300 ms; the
      curtains and the confetti flag are untouched and the ref records the page
      as inactive. */
  lemma LeavingSchedulesReset(s: State)
    requires Inv(s) && s.isActive
    ensures var r := ChangeActive(s, false);
      && (forall t :: t in r.timers <==>
            (t in s.timers && t.action != HideConfetti) || t == Timer(s.nextId, 300, ResetCurtains))
      && !r.prevIsActive
      && r.curtainsOpened == s.curtainsOpened && r.showConfetti == s.showConfetti
  {
  }

  /** Step dispatches activation changes and timers to their handlers. */
  lemma StepDispatch(s: State, b: bool, id: nat, width: int)
    ensures Step(s, SetActive(b)) == Output(ChangeActive(s, b), [], false)
    ensures Step(s, Fire(id)) == FireTimer(s, id)
    ensures Step(s, Click(width)) == OpenCurtains(s, width)
  {
  }

  /** Running a sequence is taking its first step, then running the rest. */
  lemma RunCons(s: State, e: Event, rest: seq<Event>)
    ensures Run(s, [e] + rest) == Run(Step(s, e).state, rest)
    ensures Emitted(s, [e] + rest) == Step(s, e).tweens + Emitted(Step(s, e).state, rest)
  {
    assert ([e] + rest)[0] == e && ([e] + rest)[1..] == rest;
  }

  /** Running two events is taking the two steps in turn. */
  lemma RunTwo(s: State, e1: Event, e2: Event)
    ensures Run(s, [e1, e2]) == Step(Step(s, e1).state, e2).state
    ensures Emitted(s, [e1, e2]) == Step(s, e1).tweens + Step(Step(s, e1).state, e2).tweens
  {
    var s1 := Step(s, e1).state;
    RunCons(s, e1, [e2]);
    RunCons(s1, e2, []);
    assert [e1] + [e2] == [e1, e2];
    assert [e2] + [] == [e2];
  }

  /** Running three events is taking the three steps in turn. */
  lemma RunThree(s: State, e1: Event, e2: Event, e3: Event)
    ensures var s1 := Step(s, e1).state; var s2 := Step(s1, e2).state;
      && Run(s, [e1, e2, e3]) == Step(s2, e3).state
      && Emitted(s, [e1, e2, e3]) == Step(s, e1).tweens + Step(s1, e2).tweens + Step(s2, e3).tweens
  {
    var s1 := Step(s, e1).state;
    RunCons(s, e1, [e2, e3]);
    RunTwo(s1, e2, e3);
    assert [e1] + [e2, e3] == [e1, e2, e3];
  }

  /** A pending timer whose id no other pending timer shares is the one its
      id finds. */
  lemma LookupMember(ts: seq<Timer>, t: Timer)
    requires t in ts
    requires forall u :: u in ts && u.id == t.id ==> u == t
    ensures Lookup(ts, t.id) == Some(t.action)
  {
  }

  /** With distinct ids, a pending timer is the one its id finds. */
  lemma LookupDistinct(ts: seq<Timer>, t: Timer)
    requires IdsDistinct(ts) && t in ts
    ensures Lookup(ts, t.id) == Some(t.action)
  {
    forall u | u in ts && u.id == t.id
      ensures u == t
    {
      var i :| 0 <= i < |ts| && ts[i] == u;
      var j :| 0 <= j < |ts| && ts[j] == t;
      if i < j {
      } else if j < i {
      }
    }
    LookupMember(ts, t);
  }

  /** Once the page is left, confetti that is showing stays showing until the
      page is entered again: leaving clears the only timer that would hide it. */
  lemma {:induction false} ConfettiOutlivesLeaving(s: State, evs: seq<Event>)
    requires Inv(s) && !s.isActive && s.showConfetti
    requires forall i :: 0 <= i < |evs| ==> evs[i] != SetActive(true)
    ensures Run(s, evs).showConfetti
    decreases |evs|
  {
    if |evs| > 0 {
      HideTimerOnlyWhileActive(s);
      var e := evs[0];
      if e.Fire? && Lookup(s.timers, e.id) == Some(HideConfetti) {
        assert false;
      }
      StepPreservesInv(s, e);
      ConfettiOutlivesLeaving(Step(s, e).state, evs[1..]);
    }
  }

  /** Open curtains stay open while the page is not left and no reset is
      pending: no user input closes them. */
  lemma {:induction false} OnlyLeavingCloses(s: State, evs: seq<Event>)
    requires s.curtainsOpened
    requires forall t :: t in s.timers ==> t.action != ResetCurtains
    requires forall i :: 0 <= i < |evs| ==> evs[i] != SetActive(false)
    ensures Run(s, evs).curtainsOpened
    decreases |evs|
  {
    if |evs| > 0 {
      var e := evs[0];
      var next := Step(s, e).state;
      if e.Fire? && Lookup(s.timers, e.id) == Some(ResetCurtains) {
        assert false;
      }
      assert forall t :: t in next.timers ==> t.action != ResetCurtains;
      OnlyLeavingCloses(next, evs[1..]);
    }
  }

  /** Hidden confetti stays hidden while the page is not entered and no
      confetti-show timer is pending. */
  lemma {:induction false} OnlyEnteringShowsConfetti(s: State, evs: seq<Event>)
    requires !s.showConfetti
    requires forall t :: t in s.timers ==> t.action != ShowConfetti
    requires forall i :: 0 <= i < |evs| ==> evs[i] != SetActive(true)
    ensures !Run(s, evs).showConfetti
    decreases |evs|
  {
    if |evs| > 0 {
      var e := evs[0];
      var next := Step(s, e).state;
      if e.Fire? && Lookup(s.timers, e.id) == Some(ShowConfetti) {
        assert false;
      }
      assert forall t :: t in next.timers ==> t.action != ShowConfetti;
      OnlyEnteringShowsConfetti(next, evs[1..]);
    }
  }

  /** A click or an Enter/Space press; both reach the open handler. */
  predicate IsActivation(e: Event) {
    e.Click? || (e.Key? && IsActivationKey(e.key))
  }

  /** Opening is idempotent: a first activation followed by any number of
      further ones opens closed curtains once and issues exactly one opening
      sequence, for the width seen by the first activation. */
  lemma {:induction false} RepeatedActivationOpensOnce(s: State, first: Event, more: seq<Event>)
    requires IsActivation(first)
    requires forall i :: 0 <= i < |more| ==> IsActivation(more[i])
    ensures Run(s, [first] + more) == s.(curtainsOpened := true)
    ensures Emitted(s, [first] + more) == if s.curtainsOpened then [] else OpenSequence(first.width)
    decreases |more|
  {
    var evs := [first] + more;
    assert evs[0] == first && evs[1..] == more;
    var next := Step(s, first).state;
    assert next == s.(curtainsOpened := true);
    if |more| > 0 {
      assert more == [more[0]] + more[1..];
      RepeatedActivationOpensOnce(next, more[0], more[1..]);
    }
  }

  /** Enter and Space act exactly as a click on closed curtains (and
      additionally suppress the key's default); any other key does nothing. */
  lemma KeyActsLikeClick(s: State, key: string, width: int)
    ensures IsActivationKey(key) ==>
      Step(s, Key(key, width)).state == Step(s, Click(width)).state
      && Step(s, Key(key, width)).tweens == Step(s, Click(width)).tweens
    ensures !IsActivationKey(key) ==> Step(s, Key(key, width)) == Output(s, [], false)
  {
  }
}
