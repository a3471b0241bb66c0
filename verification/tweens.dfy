/** Declarative animation records.

    A tween is what one GSAP `to` call (stand-alone or on a timeline) asks for:
    which elements it moves, when it starts relative to the moment it is issued,
    how long it lasts and the values it ends at. The interpolation and easing that
    GSAP performs in between is not modelled. Times are whole milliseconds, opacity
    and scale are in hundredths (0.9 is 90), `x` is a percentage of the element's
    own width and `rotationY` is in degrees. */
module Tweens {
  import opened Optional

  /** The four elements of the card that animations address. */
  datatype Target = CurtainLeft | CurtainRight | Hint | MessageContent

  datatype Property = Opacity | Scale | X | RotationY

  /** A stand-alone tween starts when it is issued; a timeline entry starts at its
      position on a timeline that is created at that same moment. */
  datatype Placement = Standalone | AtPosition(positionMs: nat)

  datatype Tween = Tween(
    targets: set<Target>,
    placement: Placement,
    delayMs: nat,
    durationMs: nat,
    to: map<Property, int>)

  function Offset(p: Placement): nat {
    match p
    case Standalone => 0
    case AtPosition(ms) => ms
  }

  /** Moment, after the tween is issued, at which its values start to change. */
  function StartMs(t: Tween): nat {
    Offset(t.placement) + t.delayMs
  }

  /** Moment, after the tween is issued, at which its end values are reached. */
  function EndMs(t: Tween): nat {
    Offset(t.placement) + t.delayMs + t.durationMs
  }

  /** Whether the tween drives property `p` of element `target`. */
  predicate Touches(t: Tween, target: Target, p: Property) {
    target in t.targets && p in t.to
  }

  /** The moment the last tween of a batch finishes: the batch is complete then
      and not before. An empty batch is complete at once. */
  function LatestEnd(ts: seq<Tween>): (r: nat)
    ensures forall i :: 0 <= i < |ts| ==> EndMs(ts[i]) <= r
    ensures |ts| == 0 ==> r == 0
    ensures |ts| > 0 ==> exists i :: 0 <= i < |ts| && EndMs(ts[i]) == r
  {
    if |ts| == 0 then 0
    else
      var rest := LatestEnd(ts[1..]);
      assert forall i :: 1 <= i < |ts| ==> ts[i] == ts[1..][i - 1];
      if EndMs(ts[0]) >= rest then EndMs(ts[0]) else rest
  }

  /** A batch is complete exactly when its longest-running tween ends. */
  lemma LatestEndIsLast(ts: seq<Tween>, k: nat)
    requires k < |ts|
    requires forall i :: 0 <= i < |ts| ==> EndMs(ts[i]) <= EndMs(ts[k])
    ensures LatestEnd(ts) == EndMs(ts[k])
  {
  }

  /** `LatestEndIsLast` for batches of three and five tweens, with the bound
      spelled out per element so that callers holding a literal batch need not
      prove a quantified premise about it. */
  lemma LatestEndOfThree(ts: seq<Tween>, k: nat)
    requires |ts| == 3 && k < 3
    requires EndMs(ts[0]) <= EndMs(ts[k]) && EndMs(ts[1]) <= EndMs(ts[k]) && EndMs(ts[2]) <= EndMs(ts[k])
    ensures LatestEnd(ts) == EndMs(ts[k])
  {
    LatestEndIsLast(ts, k);
  }

  lemma LatestEndOfFive(ts: seq<Tween>, k: nat)
    requires |ts| == 5 && k < 5
    requires EndMs(ts[0]) <= EndMs(ts[k]) && EndMs(ts[1]) <= EndMs(ts[k]) && EndMs(ts[2]) <= EndMs(ts[k])
    requires EndMs(ts[3]) <= EndMs(ts[k]) && EndMs(ts[4]) <= EndMs(ts[k])
    ensures LatestEnd(ts) == EndMs(ts[k])
  {
    LatestEndIsLast(ts, k);
  }

  /** The value that property `p` of `target` is left at once the batch has run:
      the end value of the last tween of the batch that drives it, or None when
      no tween does. */
  function FinalValue(ts: seq<Tween>, target: Target, p: Property): (r: Option<int>)
    ensures r.None? <==> forall i :: 0 <= i < |ts| ==> !Touches(ts[i], target, p)
    ensures r.Some? ==> exists i :: 0 <= i < |ts| && Touches(ts[i], target, p) && ts[i].to[p] == r.value
  {
    if |ts| == 0 then None
    else if Touches(ts[|ts| - 1], target, p) then Some(ts[|ts| - 1].to[p])
    else FinalValue(ts[..|ts| - 1], target, p)
  }

  /** When exactly one tween of the batch drives a property, the property ends
      at that tween's end value. */
  lemma FinalValueOfSole(ts: seq<Tween>, k: nat, target: Target, p: Property)
    requires k < |ts| && Touches(ts[k], target, p)
    requires forall i :: 0 <= i < |ts| && i != k ==> !Touches(ts[i], target, p)
    ensures FinalValue(ts, target, p) == Some(ts[k].to[p])
  {
  }

  /** `FinalValueOfSole` for batches of three and five tweens, the other
      tweens' silence spelled out per element. */
  lemma FinalValueOfSoleOfThree(ts: seq<Tween>, k: nat, target: Target, p: Property)
    requires |ts| == 3 && k < 3 && Touches(ts[k], target, p)
    requires k == 0 || !Touches(ts[0], target, p)
    requires k == 1 || !Touches(ts[1], target, p)
    requires k == 2 || !Touches(ts[2], target, p)
    ensures FinalValue(ts, target, p) == Some(ts[k].to[p])
  {
    FinalValueOfSole(ts, k, target, p);
  }

  lemma FinalValueOfSoleOfFive(ts: seq<Tween>, k: nat, target: Target, p: Property)
    requires |ts| == 5 && k < 5 && Touches(ts[k], target, p)
    requires k == 0 || !Touches(ts[0], target, p)
    requires k == 1 || !Touches(ts[1], target, p)
    requires k == 2 || !Touches(ts[2], target, p)
    requires k == 3 || !Touches(ts[3], target, p)
    requires k == 4 || !Touches(ts[4], target, p)
    ensures FinalValue(ts, target, p) == Some(ts[k].to[p])
  {
    FinalValueOfSole(ts, k, target, p);
  }

  /** No two tweens of the batch drive the same property of the same element, so
      the order of the batch does not decide any final value. */
  ghost predicate Unambiguous(ts: seq<Tween>) {
    forall i, j, target, p ::
      0 <= i < j < |ts| && Touches(ts[i], target, p) ==> !Touches(ts[j], target, p)
  }
}
