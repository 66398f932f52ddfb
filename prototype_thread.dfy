/**
 * The prototype's message thread: a boolean focus mode entered when an ai
 * reply completes a pair, broken by any wheel movement, and forced off in
 * single-display mode; plus what it renders in each mode.
 */
module PrototypeThreadComponent {
  import opened Wrappers
  import opened Messages
  import Pairing

  /** What the message effect asks for after the list changes. */
  datatype ArrivalAction =
    | NoAction
    | ScrollToMessage(id: string) // after 100 ms, bring that message to the top
    | EnterFocus
    | ScrollToBottom              // after 100 ms

  /** The branch on the last two messages (lines 58-86). */
  function ArrivalActionOf(ms: seq<Message>, singleDisplayMode: bool): (a: ArrivalAction)
    ensures |ms| == 0 <==> a == NoAction
    ensures |ms| > 0 && ms[|ms| - 1].kind == User ==> a == ScrollToMessage(ms[|ms| - 1].id)
    ensures a == EnterFocus <==> !singleDisplayMode && |ms| >= 2 && Pairing.StartsPair(ms, |ms| - 2)
    ensures singleDisplayMode && |ms| >= 2 && Pairing.StartsPair(ms, |ms| - 2) ==> a == ScrollToMessage(ms[|ms| - 2].id)
    ensures a == ScrollToBottom <==>
      |ms| > 0 && ms[|ms| - 1].kind == Ai && (|ms| == 1 || ms[|ms| - 2].kind == Ai)
  {
    if |ms| == 0 then NoAction
    else
      var last := ms[|ms| - 1];
      if last.kind == User then ScrollToMessage(last.id)
      else if last.kind == Ai && |ms| >= 2 && ms[|ms| - 2].kind == User then
        (if !singleDisplayMode then EnterFocus else ScrollToMessage(ms[|ms| - 2].id))
      else
        assert last.kind == Ai;
        assert |ms| == 1 || ms[|ms| - 2].kind == Ai;
        ScrollToBottom
  }

  /** Focus is entered exactly when the newest messages form the last rendered pair. */
  lemma EnterFocusOnCompletedLastPair(ms: seq<Message>, singleDisplayMode: bool)
    requires ArrivalActionOf(ms, singleDisplayMode) == EnterFocus
    ensures |Pairing.Pairs(ms)| > 0
    ensures var last := Pairing.Pairs(ms)[|Pairing.Pairs(ms)| - 1];
      last.user == ms[|ms| - 2] && last.ai == ms[|ms| - 1]
  {
    Pairing.TailPairIsLastPair(ms);
  }

  /** One rendered pair: slid away and transparent when hidden, pinned to the centre when focused. */
  datatype PairView = PairView(pair: Pairing.MessagePair, hidden: bool, focused: bool)

  /** What the thread renders. */
  datatype ThreadView =
    | Hidden                                // `isVisible` is false: nothing at all
    | SingleDisplay(shown: Option<Message>) // only the latest pair's ai message, or nothing
    | PairList(pairs: seq<PairView>)

  /** Lines 144 and 185-200: nothing while hidden, else the single display or one view per pair. */
  function Render(ms: seq<Message>, isVisible: bool, singleDisplayMode: bool, focusMode: bool): (v: ThreadView)
    ensures v.Hidden? <==> !isVisible
    ensures v.SingleDisplay? <==> isVisible && singleDisplayMode
    ensures v.PairList? <==> isVisible && !singleDisplayMode
    ensures v.PairList? ==> |v.pairs| == |Pairing.Pairs(ms)|
  {
    var pairs := Pairing.Pairs(ms);
    if !isVisible then Hidden
    else if singleDisplayMode then
      SingleDisplay(if |pairs| == 0 then None else Some(pairs[|pairs| - 1].ai))
    else
      PairList(seq(|pairs|, k requires 0 <= k < |pairs| =>
        var isLatestPair := k == |pairs| - 1;
        PairView(pairs[k], focusMode && !isLatestPair, focusMode && isLatestPair)))
  }

  /** In single display the only message shown is the ai message of the last pair, or nothing without pairs. */
  lemma SingleDisplayShowsLatestAi(ms: seq<Message>, focusMode: bool)
    ensures Pairing.Pairs(ms) == [] ==> Render(ms, true, true, focusMode) == SingleDisplay(None)
    ensures Pairing.Pairs(ms) != [] ==>
      Render(ms, true, true, focusMode) == SingleDisplay(Some(Pairing.Pairs(ms)[|Pairing.Pairs(ms)| - 1].ai))
  {
  }

  /** In focus mode every pair but the latest is hidden and only the latest is focused; otherwise nothing is. */
  lemma FocusHidesEarlierPairs(ms: seq<Message>, focusMode: bool)
    ensures var v := Render(ms, true, false, focusMode);
      forall k :: 0 <= k < |v.pairs| ==>
        && v.pairs[k].pair == Pairing.Pairs(ms)[k]
        && (v.pairs[k].hidden <==> focusMode && k < |v.pairs| - 1)
        && (v.pairs[k].focused <==> focusMode && k == |v.pairs| - 1)
  {
  }

  /** Any non-zero vertical wheel movement breaks focus mode (the listener exists only in focus mode). */
  function FocusAfterWheel(focusMode: bool, deltaY: real): (r: bool)
    ensures deltaY != 0.0 ==> !r
    ensures deltaY == 0.0 ==> r == focusMode
    ensures r ==> focusMode
  {
    if focusMode && deltaY != 0.0 then false else focusMode
  }

  class PrototypeMessageThread {
    var focusMode: bool
    var previousMessageCount: nat

    constructor (messageCount: nat)
      ensures !focusMode && previousMessageCount == messageCount
    {
      focusMode := false;
      previousMessageCount := messageCount;
    }

    /**
     * The message effect (lines 53-87). Its `isNewMessage` is computed and then
     * never read, so every run acts on the last two messages.
     */
    method OnMessagesChanged(ms: seq<Message>, singleDisplayMode: bool) returns (action: ArrivalAction)
      modifies this
      ensures previousMessageCount == |ms|
      ensures action == ArrivalActionOf(ms, singleDisplayMode)
      ensures focusMode == (old(focusMode) || action == EnterFocus)
    {
      previousMessageCount := |ms|;
      action := ArrivalActionOf(ms, singleDisplayMode);
      if action == EnterFocus {
        focusMode := true;
      }
    }

    /**
     * A change of `singleDisplayMode`: the effect of lines 15-19 runs, then the
     * message effect, which lists the mode among its dependencies.
     */
    method OnSingleDisplayModeChanged(ms: seq<Message>, singleDisplayMode: bool) returns (action: ArrivalAction)
      modifies this
      ensures singleDisplayMode ==> !focusMode
      ensures !singleDisplayMode ==> focusMode == (old(focusMode) || action == EnterFocus)
      ensures action == ArrivalActionOf(ms, singleDisplayMode)
      ensures previousMessageCount == |ms|
    {
      if singleDisplayMode {
        focusMode := false;
      }
      action := OnMessagesChanged(ms, singleDisplayMode);
    }

    /** A `wheel` event anywhere in the document (lines 93-97). */
    method Wheel(deltaY: real)
      modifies this`focusMode
      ensures focusMode == FocusAfterWheel(old(focusMode), deltaY)
    {
      if focusMode && deltaY != 0.0 {
        focusMode := false;
      }
    }

    /** What the component renders with the current focus mode. */
    function View(ms: seq<Message>, isVisible: bool, singleDisplayMode: bool): (v: ThreadView)
      reads this
      ensures v.Hidden? <==> !isVisible
      ensures v.PairList? ==> forall k :: 0 <= k < |v.pairs| ==> (v.pairs[k].hidden ==> focusMode)
    {
      FocusHidesEarlierPairs(ms, focusMode);
      Render(ms, isVisible, singleDisplayMode, focusMode)
    }
  }
}
