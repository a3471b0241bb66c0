/** The batches of tweens the card issues: the opening sequence started by the
    open handler, the reset sequence run when the page has been left, and the
    press feedback on the hint. */
module Sequences {
  import opened Optional
  import opened Tweens
  import opened Viewport

  /** The tweens the open handler issues for a viewport of the given width: a
      stand-alone fade of the hint, then one timeline holding the two curtain
      slides, the curtain fade and the message reveal, all placed at position 0
      and staggered by their delays. */
  function OpenSequence(width: int): (ts: seq<Tween>)
    ensures |ts| == 5
  {
    var p := ParamsFor(width);
    [ Tween({Hint}, Standalone, 0, p.hintFadeMs, map[Opacity := 0, Scale := 80]),
      Tween({CurtainLeft}, AtPosition(0), 0, p.curtainMs, map[X := -100, RotationY := -(p.angleDeg as int)]),
      Tween({CurtainRight}, AtPosition(0), 0, p.curtainMs, map[X := 100, RotationY := p.angleDeg as int]),
      Tween({CurtainLeft, CurtainRight}, AtPosition(0), p.fadeDelayMs, p.fadeMs, map[Opacity := 0]),
      Tween({MessageContent}, AtPosition(0), p.revealDelayMs, p.revealMs, map[Opacity := 100, Scale := 100]) ]
  }

  /** The tweens the reset timer issues: a timeline that first restores the
      curtains' opacity and, from 300 ms on, their position and rotation, plus a
      stand-alone fade of the message. The first timeline entry has no explicit
      position, which on an empty timeline places it at 0. */
  function ResetSequence(): (ts: seq<Tween>)
    ensures |ts| == 3
  {
    [ Tween({CurtainLeft, CurtainRight}, AtPosition(0), 0, 300, map[Opacity := 100]),
      Tween({CurtainLeft, CurtainRight}, AtPosition(300), 0, 500, map[X := 0, RotationY := 0]),
      Tween({MessageContent}, Standalone, 0, 300, map[Opacity := 0, Scale := 90]) ]
  }

  /** The hint shrinks to 0.95 while touched and returns to 1 on release. */
  function TouchFeedback(pressed: bool): Tween {
    Tween({Hint}, Standalone, 0, 100, map[Scale := if pressed then 95 else 100])
  }

  /** The hint fade is the only stand-alone tween of the opening; every timeline
      entry sits at position 0. */
  lemma OpenTimelineAtZero(width: int)
    ensures |OpenSequence(width)| == 5
    ensures OpenSequence(width)[0].placement == Standalone
    ensures OpenSequence(width)[0].targets == {Hint}
    ensures OpenSequence(width)[0].durationMs == 400
    ensures forall i :: 1 <= i < 5 ==> OpenSequence(width)[i].placement == AtPosition(0)
  {
  }

  /** The two curtain slides mirror each other: same timing, opposite end
      position and rotation, the rotation being the width class's angle. */
  lemma CurtainsMirror(width: int)
    ensures OpenSequence(width)[1].targets == {CurtainLeft}
    ensures OpenSequence(width)[2].targets == {CurtainRight}
    ensures OpenSequence(width)[1].placement == OpenSequence(width)[2].placement
    ensures OpenSequence(width)[1].delayMs == OpenSequence(width)[2].delayMs
    ensures OpenSequence(width)[1].durationMs == ParamsFor(width).curtainMs
    ensures OpenSequence(width)[2].durationMs == ParamsFor(width).curtainMs
    ensures FinalValue(OpenSequence(width), CurtainLeft, X) == Some(-100)
    ensures FinalValue(OpenSequence(width), CurtainRight, X) == Some(100)
    ensures FinalValue(OpenSequence(width), CurtainLeft, RotationY) == Some(-(ParamsFor(width).angleDeg as int))
    ensures FinalValue(OpenSequence(width), CurtainRight, RotationY) == Some(ParamsFor(width).angleDeg as int)
  {
    var ts := OpenSequence(width);
    FinalValueOfSoleOfFive(ts, 1, CurtainLeft, X);
    FinalValueOfSoleOfFive(ts, 2, CurtainRight, X);
    FinalValueOfSoleOfFive(ts, 1, CurtainLeft, RotationY);
    FinalValueOfSoleOfFive(ts, 2, CurtainRight, RotationY);
  }

  /** Once the opening has run the curtains and hint are invisible and the
      message is fully shown at its natural size. */
  lemma OpenEndValues(width: int)
    ensures FinalValue(OpenSequence(width), CurtainLeft, Opacity) == Some(0)
    ensures FinalValue(OpenSequence(width), CurtainRight, Opacity) == Some(0)
    ensures FinalValue(OpenSequence(width), Hint, Opacity) == Some(0)
    ensures FinalValue(OpenSequence(width), Hint, Scale) == Some(80)
    ensures FinalValue(OpenSequence(width), MessageContent, Opacity) == Some(100)
    ensures FinalValue(OpenSequence(width), MessageContent, Scale) == Some(100)
  {
    var ts := OpenSequence(width);
    FinalValueOfSoleOfFive(ts, 3, CurtainLeft, Opacity);
    FinalValueOfSoleOfFive(ts, 3, CurtainRight, Opacity);
    FinalValueOfSoleOfFive(ts, 0, Hint, Opacity);
    FinalValueOfSoleOfFive(ts, 0, Hint, Scale);
    FinalValueOfSoleOfFive(ts, 4, MessageContent, Opacity);
    FinalValueOfSoleOfFive(ts, 4, MessageContent, Scale);
  }

  /** When each tween of the opening ends, in terms of the width class's
      parameters. */
  lemma OpenEnds(width: int)
    ensures EndMs(OpenSequence(width)[0]) == ParamsFor(width).hintFadeMs
    ensures EndMs(OpenSequence(width)[1]) == ParamsFor(width).curtainMs
    ensures EndMs(OpenSequence(width)[2]) == ParamsFor(width).curtainMs
    ensures EndMs(OpenSequence(width)[3]) == ParamsFor(width).fadeDelayMs + ParamsFor(width).fadeMs
    ensures EndMs(OpenSequence(width)[4]) == ParamsFor(width).revealDelayMs + ParamsFor(width).revealMs
  {
  }

  /** The opening completes when the message reveal ends: 1400 ms after the
      click on a mobile-width viewport, 1800 ms otherwise. The curtains have
      faded out 100 ms (mobile) or 300 ms before that, and finish their slide
      when the width class's curtain duration has elapsed. */
  lemma OpenSequenceTiming(width: int)
    ensures LatestEnd(OpenSequence(width)) == EndMs(OpenSequence(width)[4])
    ensures EndMs(OpenSequence(width)[4]) == (if IsMobile(width) then 1400 else 1800)
    ensures EndMs(OpenSequence(width)[3]) == (if IsMobile(width) then 1300 else 1500)
    ensures EndMs(OpenSequence(width)[1]) == ParamsFor(width).curtainMs
    ensures EndMs(OpenSequence(width)[2]) == ParamsFor(width).curtainMs
  {
    OpenEnds(width);
    SecondaryTimingValues(width);
    SecondaryTimingsFollowMobile(width, width);
    WidthClassParameters(width);
    LatestEndOfFive(OpenSequence(width), 4);
  }

  /** The reset completes 800 ms after it is issued: the curtains regain their
      opacity during the first 300 ms and then swing back during the next 500
      ms, while the message fades within the first 300 ms. */
  lemma ResetSequenceTiming()
    ensures EndMs(ResetSequence()[0]) == 300
    ensures StartMs(ResetSequence()[1]) == 300
    ensures EndMs(ResetSequence()[1]) == 800
    ensures EndMs(ResetSequence()[2]) == 300
    ensures LatestEnd(ResetSequence()) == 800
  {
    LatestEndOfThree(ResetSequence(), 1);
  }

  /** After the reset both curtains are opaque and back at their neutral
      position and rotation, and the message is hidden at 0.9 scale. */
  lemma ResetEndValues()
    ensures FinalValue(ResetSequence(), CurtainLeft, Opacity) == Some(100)
    ensures FinalValue(ResetSequence(), CurtainRight, Opacity) == Some(100)
    ensures FinalValue(ResetSequence(), CurtainLeft, X) == Some(0)
    ensures FinalValue(ResetSequence(), CurtainRight, X) == Some(0)
    ensures FinalValue(ResetSequence(), CurtainLeft, RotationY) == Some(0)
    ensures FinalValue(ResetSequence(), CurtainRight, RotationY) == Some(0)
    ensures FinalValue(ResetSequence(), MessageContent, Opacity) == Some(0)
    ensures FinalValue(ResetSequence(), MessageContent, Scale) == Some(90)
  {
    var ts := ResetSequence();
    FinalValueOfSoleOfThree(ts, 0, CurtainLeft, Opacity);
    FinalValueOfSoleOfThree(ts, 0, CurtainRight, Opacity);
    FinalValueOfSoleOfThree(ts, 1, CurtainLeft, X);
    FinalValueOfSoleOfThree(ts, 1, CurtainRight, X);
    FinalValueOfSoleOfThree(ts, 1, CurtainLeft, RotationY);
    FinalValueOfSoleOfThree(ts, 1, CurtainRight, RotationY);
    FinalValueOfSoleOfThree(ts, 2, MessageContent, Opacity);
    FinalValueOfSoleOfThree(ts, 2, MessageContent, Scale);
  }

  /** Neither batch drives one property of one element twice. */
  lemma SequencesUnambiguous(width: int)
    ensures Unambiguous(OpenSequence(width))
    ensures Unambiguous(ResetSequence())
  {
  }

  /** Whatever the width, the reset drives exactly the curtain and message
      properties that the opening drove, so nothing the opening changed on them
      is left behind. (The hint is not reset: it is rendered afresh once closed.) */
  lemma ResetCoversOpen(width: int, target: Target, p: Property)
    requires target != Hint
    ensures FinalValue(OpenSequence(width), target, p).Some? <==> FinalValue(ResetSequence(), target, p).Some?
  {
    var ts := OpenSequence(width);
    var rs := ResetSequence();
    if (target == MessageContent && (p == X || p == RotationY)) || (target != MessageContent && p == Scale) {
      forall i | 0 <= i < |ts|
        ensures !Touches(ts[i], target, p)
      {
        if i == 0 {
        } else if i == 1 {
        } else if i == 2 {
        } else if i == 3 {
        } else {
        }
      }
      forall i | 0 <= i < |rs|
        ensures !Touches(rs[i], target, p)
      {
        if i == 0 {
        } else if i == 1 {
        } else {
        }
      }
    } else {
      OpenEndValues(width);
      CurtainsMirror(width);
      ResetEndValues();
    }
  }
}
