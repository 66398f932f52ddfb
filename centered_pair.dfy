/**
 * `findCenteredPair`: which rendered pair the reader is looking at, chosen by
 * a distance to the viewport centre that is biased by the scroll direction and
 * filtered by how much of the pair is visible.
 */
module CenteredPair {
  import opened Wrappers
  import opened Geometry

  /** One reading of the DOM: the wrapper's `scrollTop` and bounding rectangle, and every `.message-pair` rectangle in order. */
  datatype ScrollSnapshot = ScrollSnapshot(scrollTop: real, view: Rect, pairs: seq<Rect>)

  /** Scrolling is upward exactly when the container's `scrollTop` went down. */
  predicate IsScrollingUp(currentScrollTop: real, lastScrollTop: real)
  {
    currentScrollTop < lastScrollTop
  }

  function Centre(r: Rect): real { r.top + r.height / 2.0 }

  /** Distance of the pair's centre to the viewport's centre, times 0.8 above the centre when scrolling up, times 1.1 below it otherwise. */
  function BiasedDistance(pair: Rect, view: Rect, up: bool): (d: real)
    ensures d >= 0.0
    ensures up && Centre(pair) < Centre(view) ==> d == 0.8 * Abs(Centre(pair) - Centre(view))
    ensures !up && Centre(pair) > Centre(view) ==> d == 1.1 * Abs(Centre(pair) - Centre(view))
    ensures Centre(pair) == Centre(view) ==> d == 0.0
  {
    var pc := Centre(pair);
    var vc := Centre(view);
    var distance := Abs(pc - vc);
    if up && pc < vc then distance * 0.8
    else if !up && pc > vc then distance * 1.1
    else distance
  }

  /** The part of the pair's height that lies inside the viewport (negative when it is outside). */
  function VisibleHeight(pair: Rect, view: Rect): (h: real)
    ensures h <= pair.height && h <= view.height
    ensures view.top <= pair.top && pair.Bottom() <= view.top + view.height ==> h == pair.height
    ensures pair.Bottom() <= view.top || pair.top >= view.top + view.height ==> h <= 0.0
  {
    Min(view.height, pair.Bottom() - view.top) - Max(0.0, pair.top - view.top)
  }

  /** `isScrollingUp ? 0.15 : 0.25` */
  function MinVisibility(up: bool): real { if up then 0.15 else 0.25 }

  /**
   * `visibleHeight / rect.height > minVisibility`. For a pair of height 0 the
   * quotient is NaN or -Infinity in JavaScript (the visible height is then never
   * positive), so such a pair never qualifies.
   */
  predicate Qualifies(pair: Rect, view: Rect, up: bool)
  {
    pair.height > 0.0 && VisibleHeight(pair, view) / pair.height > MinVisibility(up)
  }

  /** A pair of positive height that lies wholly inside the viewport qualifies in either direction. */
  lemma FullyVisibleQualifies(pair: Rect, view: Rect, up: bool)
    requires pair.height > 0.0
    requires view.top <= pair.top && pair.Bottom() <= view.top + view.height
    ensures Qualifies(pair, view, up)
  {
  }

  /** Scrolling up lowers the visibility threshold: what qualifies scrolling down also qualifies scrolling up. */
  lemma ScrollingUpIsMoreLenient(pair: Rect, view: Rect)
    requires Qualifies(pair, view, false)
    ensures Qualifies(pair, view, true)
  {
  }

  /** A pair that lies entirely outside the viewport is never chosen. */
  lemma OffscreenNeverQualifies(pair: Rect, view: Rect, up: bool)
    requires pair.Bottom() <= view.top || pair.top >= view.top + view.height
    ensures !Qualifies(pair, view, up)
  {
  }

  /**
   * `k` is the pair the resolver settles on: it qualifies, no qualifying pair
   * is strictly closer, and every qualifying pair before it is strictly farther.
   */
  ghost predicate IsBest(pairs: seq<Rect>, view: Rect, up: bool, k: nat)
  {
    && k < |pairs|
    && Qualifies(pairs[k], view, up)
    && (forall j :: 0 <= j < |pairs| && Qualifies(pairs[j], view, up) ==>
          BiasedDistance(pairs[k], view, up) <= BiasedDistance(pairs[j], view, up))
    && (forall j :: 0 <= j < k && Qualifies(pairs[j], view, up) ==>
          BiasedDistance(pairs[k], view, up) < BiasedDistance(pairs[j], view, up))
  }

  /** The winner is unique: the same rectangles always yield the same index. */
  lemma BestIsUnique(pairs: seq<Rect>, view: Rect, up: bool, k1: nat, k2: nat)
    requires IsBest(pairs, view, up, k1) && IsBest(pairs, view, up, k2)
    ensures k1 == k2
  {
  }

  /**
   * The `forEach` over the pair rectangles with `bestIndex` and `bestDistance`
   * (None stands for `bestDistance = Infinity` and `bestIndex = null`).
   */
  method BestPair(pairs: seq<Rect>, view: Rect, up: bool) returns (best: Option<nat>)
    ensures best.None? <==> forall j :: 0 <= j < |pairs| ==> !Qualifies(pairs[j], view, up)
    ensures best.Some? ==> IsBest(pairs, view, up, best.value)
  {
    best := None;
    var bestDistance := 0.0;
    var i := 0;
    while i < |pairs|
      invariant 0 <= i <= |pairs|
      invariant best.None? ==> forall j :: 0 <= j < i ==> !Qualifies(pairs[j], view, up)
      invariant best.Some? ==> best.value < i && IsBest(pairs[..i], view, up, best.value)
      invariant best.Some? ==> bestDistance == BiasedDistance(pairs[best.value], view, up)
    {
      var distance := BiasedDistance(pairs[i], view, up);
      if Qualifies(pairs[i], view, up) && (best.None? || distance < bestDistance) {
        bestDistance := distance;
        best := Some(i);
      }
      assert pairs[..i + 1] == pairs[..i] + [pairs[i]];
      i := i + 1;
    }
    assert pairs[..i] == pairs;
  }

  /** `if (bestIndex !== null) setCurrentPairIndex(bestIndex)`: with no qualifying pair the index stays. */
  function ResolvedIndex(current: Option<int>, best: Option<nat>): (r: Option<int>)
    ensures best.None? ==> r == current
    ensures best.Some? ==> r == Some(best.value as int)
  {
    if best.Some? then Some(best.value as int) else current
  }
}
