/**
 * Layout arithmetic of the message thread, over exact reals. DOM measurements
 * (`getBoundingClientRect()`, `clientHeight`, `offsetHeight`, `offsetTop`) are parameters.
 */
module Geometry {
  import opened Wrappers

  /** A width or height as the DOM reports it: never negative. */
  type Length = r: real | r >= 0.0

  /** A bounding client rectangle. */
  datatype Rect = Rect(left: real, top: real, width: Length, height: Length) {
    function Right(): real { left + width }
    function Bottom(): real { top + height }
  }

  /** Screen-space coordinates of the avatar's top-left corner. */
  datatype Position = Position(left: real, top: real)

  function Max(a: real, b: real): real { if a >= b then a else b }
  function Min(a: real, b: real): real { if a <= b then a else b }
  function Abs(x: real): real { if x >= 0.0 then x else -x }

  /** `Math.round`: the nearest integer, halves rounded up. */
  function Round(x: real): (r: int)
    ensures r as real - 0.5 <= x < r as real + 0.5
  {
    (x + 0.5).Floor
  }

  lemma RoundOfInteger(n: int)
    ensures Round(n as real) == n
  {
  }

  lemma RoundMonotone(x: real, y: real)
    requires x <= y
    ensures Round(x) <= Round(y)
  {
  }

  const MinPadding: int := 100
  const PaddingModifier: real := 1.8

  /**
   * `Math.round(Math.max(100, (viewportHeight - lastPairHeight) / 2 * 1.8))`:
   * the bottom padding that lets the last pair sit centred when scrolled to the bottom.
   */
  function IdealPadding(viewportHeight: real, lastPairHeight: real): (r: int)
    ensures r >= MinPadding
    ensures (viewportHeight - lastPairHeight) / 2.0 * PaddingModifier <= 100.0 ==> r == MinPadding
    ensures (viewportHeight - lastPairHeight) / 2.0 * PaddingModifier > 100.0 ==>
      r as real - 0.5 <= (viewportHeight - lastPairHeight) * 0.9 < r as real + 0.5
  {
    var modified := (viewportHeight - lastPairHeight) / 2.0 * PaddingModifier;
    RoundMonotone(100.0, Max(100.0, modified));
    RoundOfInteger(100);
    Round(Max(100.0, modified))
  }

  /** The padding never grows when the last pair gets taller. */
  lemma IdealPaddingAntitone(viewportHeight: real, h1: real, h2: real)
    requires h1 <= h2
    ensures IdealPadding(viewportHeight, h2) <= IdealPadding(viewportHeight, h1)
  {
    var m1 := (viewportHeight - h1) / 2.0 * PaddingModifier;
    var m2 := (viewportHeight - h2) / 2.0 * PaddingModifier;
    RoundMonotone(Max(100.0, m2), Max(100.0, m1));
  }

  /** What `calculatePadding` can measure: the wrapper's `clientHeight` and each rendered pair's `offsetHeight`. */
  datatype PaddingLayout = PaddingLayout(clientHeight: Length, pairHeights: seq<Length>)

  /**
   * The padding after one run of `calculatePadding`: unchanged when the scroll
   * wrapper or the last rendered pair is missing.
   */
  function NextPadding(current: int, wrapper: Option<PaddingLayout>): (r: int)
    ensures wrapper.None? ==> r == current
    ensures wrapper.Some? && wrapper.value.pairHeights == [] ==> r == current
    ensures wrapper.Some? && wrapper.value.pairHeights != [] ==>
      r >= MinPadding &&
      r == IdealPadding(wrapper.value.clientHeight, wrapper.value.pairHeights[|wrapper.value.pairHeights| - 1])
  {
    match wrapper
    case None => current
    case Some(layout) =>
      if |layout.pairHeights| == 0 then current
      else IdealPadding(layout.clientHeight, layout.pairHeights[|layout.pairHeights| - 1])
  }

  /** A padding of at least 100 stays at least 100, whatever is measured next. */
  lemma PaddingFloorPreserved(current: int, wrapper: Option<PaddingLayout>)
    requires current >= MinPadding
    ensures NextPadding(current, wrapper) >= MinPadding
  {
  }

  /** What `scrollToLatestPair` can measure: the wrapper's `clientHeight` and each pair's `offsetTop`. */
  datatype ScrollLayout = ScrollLayout(clientHeight: Length, pairOffsetTops: seq<real>)

  /**
   * The `scrollTo` target of `scrollToLatestPair`, or None when nothing is
   * scrolled: it puts the top of the last pair 20% of the viewport below the top.
   */
  function ScrollTarget(wrapper: Option<ScrollLayout>): (r: Option<real>)
    ensures r.Some? <==> wrapper.Some? && wrapper.value.pairOffsetTops != []
    ensures r.Some? ==>
      var tops := wrapper.value.pairOffsetTops;
      tops[|tops| - 1] - r.value == wrapper.value.clientHeight / 5.0
  {
    match wrapper
    case None => None
    case Some(layout) =>
      if |layout.pairOffsetTops| == 0 then None
      else Some(layout.pairOffsetTops[|layout.pairOffsetTops| - 1] - layout.clientHeight * 0.2)
  }

  /** Half the avatar's width and height, and the gap left between its centre and the message. */
  const HalfAvatar: real := 100.0
  const AvatarGap: real := 150.0

  /**
   * Where the avatar goes to track an ai message: `{ left: rect.left - 150 - 100,
   * top: rect.top + rect.height / 2 - 100 }`.
   */
  function AvatarPosition(rect: Rect): (p: Position)
    ensures p.left + HalfAvatar == rect.left - AvatarGap
    ensures p.top + HalfAvatar == rect.top + rect.height / 2.0
  {
    Position(rect.left - 150.0 - 100.0, rect.top + rect.height / 2.0 - 100.0)
  }

  /** The avatar's centre is level with the message: inside its vertical extent, and left of it. */
  lemma AvatarCentreBesideMessage(rect: Rect)
    ensures rect.top <= AvatarPosition(rect).top + HalfAvatar <= rect.Bottom()
    ensures AvatarPosition(rect).left + HalfAvatar < rect.left
  {
  }
}
