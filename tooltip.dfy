/** The prototype's hover tooltip: side selection, the delayed show, and the animation variants. */
module TooltipComponent {
  import opened Wrappers
  import opened Geometry

  /** The `position` prop: one of the documented names, or any other string. */
  datatype Placement = Top | Bottom | Left | Right | Auto | Unknown(name: string)

  predicate IsSide(p: Placement) { p == Top || p == Bottom || p == Left || p == Right }

  /** `calculatePosition` (lines 17-35); `trigger` is `triggerRef.current`'s rectangle, if mounted. */
  function CalculatePosition(position: Placement, trigger: Option<Rect>, innerWidth: real, innerHeight: real): (r: Placement)
    ensures position != Auto ==> r == position
    ensures position == Auto ==> IsSide(r)
    ensures position == Auto && trigger.None? ==> r == Top
    ensures position == Auto && trigger.Some? ==>
      var above := trigger.value.top;
      var below := innerHeight - trigger.value.Bottom();
      var left := trigger.value.left;
      var right := innerWidth - trigger.value.Right();
      var verticalTop := above > 100.0 && above >= below;
      && (r == Bottom <==> !verticalTop && below > 100.0)
      && (r == Left <==> !verticalTop && below <= 100.0 && left > 150.0)
      && (r == Right <==> !verticalTop && below <= 100.0 && left <= 150.0 && right > 150.0)
      && (r == Top <==> verticalTop || (below <= 100.0 && left <= 150.0 && right <= 150.0))
  {
    if position != Auto then position
    else if trigger.None? then Top
    else
      var rect := trigger.value;
      var spaceAbove := rect.top;
      var spaceBelow := innerHeight - rect.Bottom();
      var spaceLeft := rect.left;
      var spaceRight := innerWidth - rect.Right();
      if spaceAbove > 100.0 && spaceAbove >= spaceBelow then Top
      else if spaceBelow > 100.0 then Bottom
      else if spaceLeft > 150.0 then Left
      else if spaceRight > 150.0 then Right
      else Top
  }

  /** A side is picked only where it has room, except for the final fallback to the top. */
  lemma ChosenSideHasRoom(trigger: Rect, innerWidth: real, innerHeight: real)
    ensures var r := CalculatePosition(Auto, Some(trigger), innerWidth, innerHeight);
      && (r == Bottom ==> innerHeight - trigger.Bottom() > 100.0)
      && (r == Left ==> trigger.left > 150.0)
      && (r == Right ==> innerWidth - trigger.Right() > 150.0)
      && (r == Left || r == Right ==> innerHeight - trigger.Bottom() <= 100.0)
  {
  }

  /** The axis and starting offset of the enter animation. */
  datatype Axis = X | Y
  datatype Variant = Variant(axis: Axis, initialOffset: int)

  /** `variants[actualPosition] || variants.top`. */
  function TooltipVariant(actual: Placement): (v: Variant)
    ensures !IsSide(actual) ==> v == Variant(Y, 10)
    ensures IsSide(actual) ==> (actual == Top || actual == Bottom <==> v.axis == Y)
  {
    match actual
    case Bottom => Variant(Y, -10)
    case Left => Variant(X, 10)
    case Right => Variant(X, -10)
    case _ => Variant(Y, 10)
  }

  /** Each side has its own variant: the tooltip always slides in from the side it is on. */
  lemma VariantsDistinguishSides(p: Placement, q: Placement)
    requires IsSide(p) && IsSide(q) && p != q
    ensures TooltipVariant(p) != TooltipVariant(q)
  {
  }

  class Tooltip {
    const position: Placement
    var isVisible: bool
    var actualPosition: Placement
    /** The show timers not yet fired or cleared; at most the newest one is reachable through `timeoutRef`. */
    var pendingShows: set<nat>
    var timeoutRef: Option<nat>
    var nextTimer: nat

    ghost predicate Valid()
      reads this
    {
      (forall t :: t in pendingShows ==> t < nextTimer) && (timeoutRef.Some? ==> timeoutRef.value < nextTimer)
    }

    constructor (position: Placement)
      ensures Valid() && this.position == position
      ensures !isVisible && actualPosition == position && pendingShows == {} && timeoutRef == None
    {
      this.position := position;
      isVisible := false;
      actualPosition := position;
      pendingShows := {};
      timeoutRef := None;
      nextTimer := 0;
    }

    /** `handleMouseEnter`: schedules a show; an earlier pending show is not cleared, only forgotten. */
    method MouseEnter() returns (timer: nat)
      requires Valid()
      modifies this`pendingShows, this`timeoutRef, this`nextTimer
      ensures Valid()
      ensures timer !in old(pendingShows)
      ensures pendingShows == old(pendingShows) + {timer} && timeoutRef == Some(timer)
    {
      timer := nextTimer;
      nextTimer := nextTimer + 1;
      pendingShows := pendingShows + {timer};
      timeoutRef := Some(timer);
    }

    /** `handleMouseLeave`: clears the newest show timer and hides the tooltip. */
    method MouseLeave()
      requires Valid()
      modifies this`pendingShows, this`isVisible
      ensures Valid()
      ensures !isVisible
      ensures timeoutRef.Some? ==> pendingShows == old(pendingShows) - {timeoutRef.value}
      ensures timeoutRef.None? ==> pendingShows == old(pendingShows)
    {
      if timeoutRef.Some? {
        pendingShows := pendingShows - {timeoutRef.value};
      }
      isVisible := false;
    }

    /** A show timer fires: the side is computed from the trigger's rectangle at that moment. */
    method ShowTimerFired(timer: nat, trigger: Option<Rect>, innerWidth: real, innerHeight: real)
      requires Valid() && timer in pendingShows
      modifies this`pendingShows, this`actualPosition, this`isVisible
      ensures Valid()
      ensures pendingShows == old(pendingShows) - {timer}
      ensures isVisible && actualPosition == CalculatePosition(position, trigger, innerWidth, innerHeight)
    {
      pendingShows := pendingShows - {timer};
      actualPosition := CalculatePosition(position, trigger, innerWidth, innerHeight);
      isVisible := true;
    }

    /** Unmounting clears the newest show timer only. */
    method Unmount()
      requires Valid()
      modifies this`pendingShows
      ensures Valid()
      ensures pendingShows == old(pendingShows) - (if timeoutRef.Some? then {timeoutRef.value} else {})
    {
      if timeoutRef.Some? {
        pendingShows := pendingShows - {timeoutRef.value};
      }
    }

    function CurrentVariant(): Variant
      reads this
    {
      TooltipVariant(actualPosition)
    }
  }

  /** Enter then leave, with no other event between: the show is cancelled and nothing is visible. */
  method EnterThenLeave(t: Tooltip) returns (timer: nat)
    requires t.Valid()
    modifies t
    ensures t.Valid() && !t.isVisible && timer !in t.pendingShows
    ensures t.pendingShows == old(t.pendingShows)
  {
    timer := t.MouseEnter();
    t.MouseLeave();
  }
}
