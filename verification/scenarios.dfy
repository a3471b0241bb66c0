/** Short runs of the card from any reachable state, naming the timers the run
    itself schedules by their ids. */
module Scenarios {
  import opened Optional
  import opened Sequences
  import opened MessageCard

  /** After entering, the ids the effect handed out find its two timers. */
  lemma EnteredTimers(s: State)
    requires Inv(s) && !s.isActive
    ensures var s1 := ChangeActive(s, true);
      && Inv(s1)
      && Lookup(s1.timers, s.nextId) == Some(ShowConfetti)
      && Lookup(s1.timers, s.nextId + 1) == Some(HideConfetti)
  {
    var n := s.nextId;
    EnteringSchedulesPulse(s);
    ChangeActivePreservesInv(s, true);
    var s1 := ChangeActive(s, true);
    LookupMember(s1.timers, Timer(n, 10, ShowConfetti));
    LookupMember(s1.timers, Timer(n + 1, 5000, HideConfetti));
  }

  /** Of two timers just appended under fresh consecutive ids, dropping the
      first leaves the earlier timers and the second, which its id finds. */
  lemma FirstOfTwoFired(ts: seq<Timer>, r: seq<Timer>, a: Timer, b: Timer)
    requires forall t :: t in ts ==> t.id < a.id
    requires b.id == a.id + 1
    requires forall t :: t in r <==> t in ts + [a, b] && t.id != a.id
    requires IdsDistinct(r)
    ensures forall t :: t in r <==> t in ts || t == b
    ensures Lookup(r, b.id) == Some(b.action)
  {
    forall t
      ensures t in r <==> t in ts || t == b
    {
      assert t in ts + [a, b] <==> t in ts || t == a || t == b;
    }
    LookupDistinct(r, b);
  }

  /** Once the 10 ms timer of an entering edge has fired, the 5000 ms timer
      is the only addition to the timers pending before the edge. */
  lemma ShowFiredTimers(s: State)
    requires Inv(s) && !s.isActive
    ensures var o2 := FireTimer(ChangeActive(s, true), s.nextId);
      && (forall t :: t in o2.state.timers <==> t in s.timers || t == Timer(s.nextId + 1, 5000, HideConfetti))
      && Lookup(o2.state.timers, s.nextId + 1) == Some(HideConfetti)
  {
    var n := s.nextId;
    var s1 := ChangeActive(s, true);
    EnteredTimers(s);
    EnteringSchedulesPulse(s);
    StepDispatch(s1, true, n, 0);
    StepPreservesInv(s1, Fire(n));
    FirstOfTwoFired(s.timers, FireTimer(s1, n).state.timers, Timer(n, 10, ShowConfetti), Timer(n + 1, 5000, HideConfetti));
  }

  /** Once the 10 ms timer of an entering edge has fired, the confetti shows. */
  lemma ShowFired(s: State)
    requires Inv(s) && !s.isActive
    ensures var o2 := FireTimer(ChangeActive(s, true), s.nextId);
      && o2.state.showConfetti && o2.state.curtainsOpened == s.curtainsOpened && o2.tweens == []
      && o2.state.isActive
  {
    EnteredTimers(s);
  }

  /** Entering the page: the confetti goes on when the 10 ms timer fires and off
      when the 5000 ms timer fires, the curtains are untouched, the timers
      pending before the edge are pending again and nothing is animated. */
  lemma EnteringPulse(s: State)
    requires Inv(s) && !s.isActive
    ensures var o2 := FireTimer(ChangeActive(s, true), s.nextId);
      var o3 := FireTimer(o2.state, s.nextId + 1);
      && o2.state.showConfetti && o2.state.curtainsOpened == s.curtainsOpened
      && !o3.state.showConfetti && o3.state.curtainsOpened == s.curtainsOpened && o3.state.isActive
      && (forall t :: t in o3.state.timers <==> t in s.timers)
      && o2.tweens == [] && o3.tweens == []
  {
    ShowFired(s);
    ShowFiredTimers(s);
  }

  /** Leaving within the confetti window, after the confetti came on: the
      pending hide is cleared and nothing else ever hides the confetti, so it
      stays on, whatever happens next, until the page is entered again. */
  lemma LeavingEarlyLeavesConfettiOn(s: State, later: seq<Event>)
    requires Inv(s) && !s.isActive
    requires forall i :: 0 <= i < |later| ==> later[i] != SetActive(true)
    ensures var left := Run(s, [SetActive(true), Fire(s.nextId), SetActive(false)]);
      left.showConfetti && !left.isActive && Run(left, later).showConfetti
  {
    var n := s.nextId;
    ShowFired(s);
    var s1 := ChangeActive(s, true);
    var s2 := FireTimer(s1, n).state;
    var s3 := ChangeActive(s2, false);
    StepDispatch(s, true, n, 0);
    StepDispatch(s1, false, n, 0);
    StepDispatch(s2, false, n, 0);
    StepPreservesInv(s, SetActive(true));
    StepPreservesInv(s1, Fire(n));
    StepPreservesInv(s2, SetActive(false));
    ConfettiOutlivesLeaving(s3, later);
    RunThree(s, SetActive(true), Fire(n), SetActive(false));
  }

  /** Entering and leaving again before the 10 ms timer fires leaves that
      timer pending, on a page that is no longer active. */
  lemma EnterLeaveKeepsShowTimer(s: State)
    requires Inv(s) && !s.isActive
    ensures var s2 := ChangeActive(ChangeActive(s, true), false);
      Inv(s2) && !s2.isActive && Lookup(s2.timers, s.nextId) == Some(ShowConfetti)
  {
    EnteringSchedulesPulse(s);
    var s1 := ChangeActive(s, true);
    ChangeActivePreservesInv(s, true);
    LeavingSchedulesReset(s1);
    var s2 := ChangeActive(s1, false);
    ChangeActivePreservesInv(s1, false);
    assert Timer(s.nextId, 10, ShowConfetti) in s2.timers;
    LookupDistinct(s2.timers, Timer(s.nextId, 10, ShowConfetti));
  }

  /** The 10 ms show timer is never cleared: leaving before it fires still
      turns the confetti on, on a page that is no longer active. */
  lemma ShowTimerOutlivesLeaving(s: State)
    requires Inv(s) && !s.isActive
    ensures var s3 := Run(s, [SetActive(true), SetActive(false), Fire(s.nextId)]);
      s3.showConfetti && !s3.isActive
  {
    var n := s.nextId;
    EnterLeaveKeepsShowTimer(s);
    var s1 := ChangeActive(s, true);
    var s2 := ChangeActive(s1, false);
    var s3 := FireTimer(s2, n).state;
    StepDispatch(s, true, n, 0);
    StepDispatch(s1, false, n, 0);
    StepDispatch(s2, false, n, 0);
    RunThree(s, SetActive(true), SetActive(false), Fire(n));
  }

  /** Opening and leaving leaves a 300 ms reset pending under the next id. */
  lemma OpenLeaveSchedulesReset(s: State, width: int)
    requires Inv(s) && s.isActive
    ensures var s2 := ChangeActive(OpenCurtains(s, width).state, false);
      Inv(s2) && !s2.isActive && Lookup(s2.timers, s.nextId) == Some(ResetCurtains)
  {
    var s1 := OpenCurtains(s, width).state;
    StepPreservesInv(s, Click(width));
    LeavingSchedulesReset(s1);
    var s2 := ChangeActive(s1, false);
    ChangeActivePreservesInv(s1, false);
    LookupDistinct(s2.timers, Timer(s.nextId, 300, ResetCurtains));
  }

  /** Opening and then leaving: the 300 ms reset closes the curtains and
      issues the reset sequence after the opening sequence. */
  lemma OpenThenLeave(s: State, width: int)
    requires Inv(s) && s.isActive && !s.curtainsOpened
    ensures !Run(s, [Click(width), SetActive(false), Fire(s.nextId)]).curtainsOpened
    ensures Emitted(s, [Click(width), SetActive(false), Fire(s.nextId)]) == OpenSequence(width) + ResetSequence()
  {
    var n := s.nextId;
    OpenLeaveSchedulesReset(s, width);
    var s1 := OpenCurtains(s, width).state;
    var s2 := ChangeActive(s1, false);
    StepDispatch(s, false, n, width);
    StepDispatch(s1, false, n, width);
    StepDispatch(s2, false, n, width);
    RunThree(s, Click(width), SetActive(false), Fire(n));
  }

  /** Coming back before the reset fires leaves it pending. */
  lemma ReturnKeepsReset(s: State, width: int)
    requires Inv(s) && s.isActive
    ensures var s3 := ChangeActive(ChangeActive(OpenCurtains(s, width).state, false), true);
      s3.isActive && Lookup(s3.timers, s.nextId) == Some(ResetCurtains)
  {
    OpenLeaveSchedulesReset(s, width);
    var s2 := ChangeActive(OpenCurtains(s, width).state, false);
    EnteringSchedulesPulse(s2);
    var s3 := ChangeActive(s2, true);
    ChangeActivePreservesInv(s2, true);
    var resetTimer := Timer(s.nextId, 300, ResetCurtains);
    assert resetTimer in s2.timers by {
      var i :| 0 <= i < |s2.timers| && s2.timers[i].id == s.nextId && s2.timers[i].action == ResetCurtains;
      assert s2.timers[i] == resetTimer by {
        assert s2.timers[i] in s2.timers;
      }
    }
    LookupDistinct(s3.timers, resetTimer);
  }

  /** The reset timer is never cleared: coming back before it fires still
      closes the curtains, on a page that is active again. */
  lemma ResetOutlivesReturn(s: State, width: int)
    requires Inv(s) && s.isActive
    ensures var s4 := Run(s, [Click(width), SetActive(false), SetActive(true), Fire(s.nextId)]);
      !s4.curtainsOpened && s4.isActive
  {
    var n := s.nextId;
    ReturnKeepsReset(s, width);
    var s1 := OpenCurtains(s, width).state;
    var s2 := ChangeActive(s1, false);
    var s3 := ChangeActive(s2, true);
    StepDispatch(s, false, n, width);
    StepDispatch(s1, false, n, width);
    StepDispatch(s2, true, n, width);
    StepDispatch(s3, true, n, width);
    RunCons(s, Click(width), [SetActive(false), SetActive(true), Fire(n)]);
    RunCons(s1, SetActive(false), [SetActive(true), Fire(n)]);
    RunCons(s2, SetActive(true), [Fire(n)]);
    RunCons(s3, Fire(n), []);
  }
}
