/** Responsive parameters of the opening animation.

    The open handler reads the viewport width at the moment of the click and
    derives two flags from it, `isMobile` (at most 768 pixels) and
    `isSmallMobile` (at most 480 pixels); every duration, delay and angle of the
    opening sequence is chosen from those two flags. */
module Viewport {

  /** `isMobile`: the viewport is at most 768 pixels wide. */
  predicate IsMobile(width: int) {
    width <= 768
  }

  /** `isSmallMobile`: the viewport is at most 480 pixels wide. */
  predicate IsSmallMobile(width: int) {
    width <= 480
  }

  /** The three width classes the opening sequence distinguishes. */
  datatype SizeClass = Small | Medium | Large

  function Classify(width: int): SizeClass {
    if width <= 480 then Small
    else if width <= 768 then Medium
    else Large
  }

  /** Every number the opening sequence depends on. */
  datatype OpenParams = OpenParams(
    curtainMs: nat,       // slide-and-rotate duration of each curtain
    angleDeg: nat,        // rotation the curtains swing through
    fadeDelayMs: nat,     // delay before the curtains fade out
    fadeMs: nat,          // duration of the curtain fade
    revealDelayMs: nat,   // delay before the message appears
    revealMs: nat,        // duration of the message reveal
    hintFadeMs: nat)      // duration of the hint fade

  /** The parameters of each width class, as a table independent of how the
      handler computes them. */
  function ClassParams(c: SizeClass): OpenParams {
    match c
    case Small => OpenParams(1200, 10, 800, 500, 600, 800, 400)
    case Medium => OpenParams(1400, 12, 800, 500, 600, 800, 400)
    case Large => OpenParams(1500, 15, 1000, 500, 800, 1000, 400)
  }

  /** The parameters the open handler computes from the width, flag by flag. */
  function ParamsFor(width: int): (r: OpenParams)
    ensures r == ClassParams(Classify(width))
  {
    var mobile := IsMobile(width);
    var small := IsSmallMobile(width);
    OpenParams(
      curtainMs := if small then 1200 else if mobile then 1400 else 1500,
      angleDeg := if small then 10 else if mobile then 12 else 15,
      fadeDelayMs := if mobile then 800 else 1000,
      fadeMs := 500,
      revealDelayMs := if mobile then 600 else 800,
      revealMs := if mobile then 800 else 1000,
      hintFadeMs := 400)
  }

  /** The width classes and their curtain duration and angle; the boundary
      widths 480 and 768 belong to the smaller class. */
  lemma WidthClassParameters(width: int)
    ensures width <= 480 ==> ParamsFor(width).curtainMs == 1200 && ParamsFor(width).angleDeg == 10
    ensures 480 < width <= 768 ==> ParamsFor(width).curtainMs == 1400 && ParamsFor(width).angleDeg == 12
    ensures 768 < width ==> ParamsFor(width).curtainMs == 1500 && ParamsFor(width).angleDeg == 15
    ensures Classify(480) == Small && Classify(481) == Medium
    ensures Classify(768) == Medium && Classify(769) == Large
  {
  }

  /** The fade and reveal timings depend on the width only through `isMobile`,
      and the fade and hint durations not at all. */
  lemma SecondaryTimingsFollowMobile(w1: int, w2: int)
    requires IsMobile(w1) == IsMobile(w2)
    ensures ParamsFor(w1).fadeDelayMs == ParamsFor(w2).fadeDelayMs
    ensures ParamsFor(w1).revealDelayMs == ParamsFor(w2).revealDelayMs
    ensures ParamsFor(w1).revealMs == ParamsFor(w2).revealMs
    ensures ParamsFor(w1).fadeMs == ParamsFor(w2).fadeMs == 500
    ensures ParamsFor(w1).hintFadeMs == ParamsFor(w2).hintFadeMs == 400
  {
  }

  /** The mobile and desktop values of the secondary timings. */
  lemma SecondaryTimingValues(width: int)
    ensures IsMobile(width) ==>
      ParamsFor(width).fadeDelayMs == 800 && ParamsFor(width).revealDelayMs == 600 && ParamsFor(width).revealMs == 800
    ensures !IsMobile(width) ==>
      ParamsFor(width).fadeDelayMs == 1000 && ParamsFor(width).revealDelayMs == 800 && ParamsFor(width).revealMs == 1000
  {
  }

  /** A wider viewport never gets a faster or flatter animation. */
  lemma WiderIsNeverFaster(w1: int, w2: int)
    requires w1 <= w2
    ensures ParamsFor(w1).curtainMs <= ParamsFor(w2).curtainMs
    ensures ParamsFor(w1).angleDeg <= ParamsFor(w2).angleDeg
    ensures ParamsFor(w1).fadeDelayMs <= ParamsFor(w2).fadeDelayMs
    ensures ParamsFor(w1).revealDelayMs <= ParamsFor(w2).revealDelayMs
    ensures ParamsFor(w1).revealMs <= ParamsFor(w2).revealMs
  {
  }
}
