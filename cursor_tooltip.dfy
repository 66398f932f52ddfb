/**
 * The cursor-following tooltip: a `show-tooltip` request appears after a
 * delay and hides itself later; a `hide-tooltip` request or any click hides it.
 * The 1000 ms show delay and the 5000 ms auto-hide are timer events.
 */
module CursorTooltipComponent {
  import opened Wrappers
  import opened Geometry

  /** The `tooltip` state; its `x` and `y`, copied from a `CustomEvent` that has no `clientX`, are never read. */
  datatype TooltipState = TooltipState(visible: bool, text: string)

  /** The `left`/`top` style (lines 89-92), with the tooltip estimated at 8 px per character. */
  function Placement(mouseX: real, mouseY: real, innerWidth: real, textLength: nat): (p: Position)
    ensures mouseX > 0.7 * innerWidth ==> p.left + 8.0 * textLength as real + 20.0 == mouseX
    ensures mouseX <= 0.7 * innerWidth ==> p.left == mouseX + 20.0
    ensures p.top + 10.0 == mouseY
  {
    Position(if mouseX > innerWidth * 0.7 then mouseX - 20.0 - (textLength as real * 8.0) else mouseX + 20.0,
             mouseY - 10.0)
  }

  /** The estimated box `[left, left + 8 * length]` never covers the cursor: it lies 20 px to one side. */
  lemma PlacementClearsCursor(mouseX: real, mouseY: real, innerWidth: real, textLength: nat)
    ensures var p := Placement(mouseX, mouseY, innerWidth, textLength);
      p.left + 8.0 * textLength as real < mouseX || p.left > mouseX
  {
  }

  class CursorTooltip {
    var tooltip: TooltipState
    var mouseX: real
    var mouseY: real
    var showPending: bool
    var hidePending: bool
    var pendingText: Option<string>

    ghost predicate Valid()
      reads this
    {
      showPending ==> pendingText.Some?
    }

    constructor ()
      ensures Valid() && tooltip == TooltipState(false, "") && mouseX == 0.0 && mouseY == 0.0
      ensures !showPending && !hidePending && pendingText == None
    {
      tooltip := TooltipState(false, "");
      mouseX, mouseY := 0.0, 0.0;
      showPending, hidePending := false, false;
      pendingText := None;
    }

    method MouseMove(x: real, y: real)
      modifies this`mouseX, this`mouseY
      ensures mouseX == x && mouseY == y
    {
      mouseX, mouseY := x, y;
    }

    /** `handleTooltipShow`: both timers are cancelled and the request replaces any pending one. */
    method ShowRequested(text: string)
      modifies this`showPending, this`hidePending, this`pendingText
      ensures Valid()
      ensures showPending && !hidePending && pendingText == Some(text)
    {
      showPending := true;
      hidePending := false;
      pendingText := Some(text);
    }

    /** The 1000 ms show timer fires: visible with exactly the pending text; the auto-hide timer starts. */
    method ShowTimerFired()
      requires Valid() && showPending
      modifies this`tooltip, this`showPending, this`hidePending
      ensures Valid()
      ensures tooltip == TooltipState(true, old(pendingText).value)
      ensures !showPending && hidePending
    {
      tooltip := TooltipState(true, pendingText.value);
      showPending := false;
      hidePending := true;
    }

    /** The 5000 ms auto-hide fires: only `visible` changes, the text is kept. */
    method HideTimerFired()
      requires hidePending
      modifies this`tooltip, this`hidePending
      ensures tooltip == old(tooltip).(visible := false)
      ensures !hidePending
    {
      tooltip := tooltip.(visible := false);
      hidePending := false;
    }

    /** `handleTooltipHide`: both timers are cancelled and the tooltip hidden, text kept. */
    method HideRequested()
      requires Valid()
      modifies this`tooltip, this`showPending, this`hidePending
      ensures Valid()
      ensures !showPending && !hidePending
      ensures tooltip == old(tooltip).(visible := false)
    {
      showPending, hidePending := false, false;
      tooltip := tooltip.(visible := false);
    }

    /** `handleClick` does exactly what `handleTooltipHide` does. */
    method Clicked()
      requires Valid()
      modifies this`tooltip, this`showPending, this`hidePending
      ensures Valid()
      ensures !showPending && !hidePending
      ensures tooltip == old(tooltip).(visible := false)
    {
      HideRequested();
    }

    /** The effect's cleanup on unmount: both timers are cancelled; what is shown is untouched. */
    method Unmount()
      modifies this`showPending, this`hidePending
      ensures Valid()
      ensures !showPending && !hidePending
    {
      showPending, hidePending := false, false;
    }

    /** Where the tooltip is drawn, if it is drawn at all. */
    function Drawn(innerWidth: real): (r: Option<Position>)
      reads this
      ensures r.Some? <==> tooltip.visible
      ensures r.Some? ==> r.value.top + 10.0 == mouseY
      ensures r.Some? ==> r.value.left + 8.0 * |tooltip.text| as real < mouseX || r.value.left > mouseX
      ensures r.Some? && mouseX > 0.7 * innerWidth ==> r.value.left + 8.0 * |tooltip.text| as real + 20.0 == mouseX
      ensures r.Some? && mouseX <= 0.7 * innerWidth ==> r.value.left == mouseX + 20.0
    {
      PlacementClearsCursor(mouseX, mouseY, innerWidth, |tooltip.text|);
      if tooltip.visible then Some(Placement(mouseX, mouseY, innerWidth, |tooltip.text|)) else None
    }
  }

  /** A show request followed by its timer: the requested text is what becomes visible, whatever was shown before. */
  method ShowThenFire(t: CursorTooltip, text: string)
    modifies t
    ensures t.Valid() && t.tooltip == TooltipState(true, text) && t.hidePending && !t.showPending
  {
    t.ShowRequested(text);
    t.ShowTimerFired();
  }
}
