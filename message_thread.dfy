/**
 * The focus-tracking message thread: its `currentPairIndex`, the refs it
 * mutates, its padding, and the effects that move the avatar position.
 * Each method is one effect run, one handler, or one timer firing; the caller
 * re-runs an effect whenever one of its React dependencies changes.
 */
module MessageThreadComponent {
  import opened Wrappers
  import opened Geometry
  import opened CenteredPair
  import Pairing

  /** The thread is in focus mode when the tracked pair is the last one by message count. */
  predicate InFocusMode(messageCount: nat, currentPairIndex: Option<int>)
  {
    currentPairIndex == Some(Pairing.LastPairIndexByCount(messageCount))
  }

  /** What one run of the position effect does with the avatar position. */
  datatype PositionOutcome =
    | Frozen             // waiting for a reply with a position held: leave it alone
    | Cleared            // hidden or not in focus: position becomes null, parent told null
    | Scheduled(delay: nat) // an update of the position is due after `delay` ms

  /** The branch the position effect takes (lines 285-333 of the component). */
  function PositionOutcomeOf(inFocus: bool, isVisible: bool, waitingForAI: bool, positionHeld: bool, opening: bool): (o: PositionOutcome)
    ensures waitingForAI && positionHeld ==> o == Frozen
    ensures o == Cleared <==> !(waitingForAI && positionHeld) && (!isVisible || !inFocus)
    ensures o.Scheduled? <==> !(waitingForAI && positionHeld) && isVisible && inFocus
    ensures o.Scheduled? ==> o.delay == (if opening then 1000 else 100)
  {
    if waitingForAI && positionHeld then Frozen
    else if !isVisible || !inFocus then Cleared
    else Scheduled(if opening then 1000 else 100)
  }

  /** The index after the new-message effect: the newest pair by count when the list grew, else untouched. */
  function IndexAfterMessages(previousCount: nat, messageCount: nat, current: Option<int>): (r: Option<int>)
    ensures messageCount > previousCount ==> r == Some(messageCount / 2 - 1)
    ensures messageCount <= previousCount ==> r == current
  {
    if messageCount > previousCount && messageCount > 0 then Some(Pairing.LastPairIndexByCount(messageCount))
    else current
  }

  /** The count effect alone leaves the thread in focus mode once the list grows (the resolver may then move the index). */
  lemma GrowthEntersFocusMode(previousCount: nat, messageCount: nat, current: Option<int>)
    requires messageCount > previousCount
    ensures InFocusMode(messageCount, IndexAfterMessages(previousCount, messageCount, current))
  {
  }

  /** How a rendered pair is drawn: scaled up when it is the focused latest pair, faded when focus is elsewhere. */
  datatype PairStyle = PairStyle(scale: real, opacity: real)

  /** Lines 480-487: focus mode here compares with `messagePairs.length - 1`, not the message count. */
  function RenderedPairStyle(pairIndex: nat, pairCount: nat, current: Option<int>): PairStyle
  {
    var isLatestPair := pairIndex as int == pairCount - 1;
    var focusModeActive := current == Some(pairCount - 1);
    PairStyle(if isLatestPair && focusModeActive then 1.15 else 1.0,
              if !isLatestPair && focusModeActive then 0.05 else 1.0)
  }

  /** In render focus mode exactly the latest pair is enlarged and every other pair faded. */
  lemma FocusHighlightsOnlyLatestPair(pairCount: nat, current: Option<int>)
    requires current == Some(pairCount - 1)
    ensures forall k: nat :: k < pairCount ==>
      (RenderedPairStyle(k, pairCount, current).scale == 1.15 <==> k == pairCount - 1) &&
      (RenderedPairStyle(k, pairCount, current).opacity == 0.05 <==> k != pairCount - 1)
  {
  }

  /** Outside render focus mode every pair is drawn plainly. */
  lemma NoFocusNoHighlight(pairIndex: nat, pairCount: nat, current: Option<int>)
    requires current != Some(pairCount - 1)
    ensures RenderedPairStyle(pairIndex, pairCount, current) == PairStyle(1.0, 1.0)
  {
  }

  class MessageThread {
    var currentPairIndex: Option<int>
    var previousMessageCount: nat
    var previousIsVisible: bool
    var focusedAIPosition: Option<Position>
    var isTransitioningIn: bool
    var dynamicPadding: int
    // the centred-pair effect: its listeners and the `lastScrollTop` its closure captures
    var resolverAttached: bool
    var lastScrollTop: real
    // the position effect: the pair index its `updateAIPosition` reads, and its timers and listener
    var trackedPairIndex: int
    var positionTimerPending: bool
    var scrollListenerAttached: bool
    var scrollTimerPending: bool
    // timers that are never cancelled: the 1000 ms end of a transition, the 50 ms scroll to the latest pair
    var pendingTransitionEnds: nat
    var pendingLatestScrolls: nat

    ghost predicate Valid()
      reads this
    {
      dynamicPadding >= MinPadding && (scrollTimerPending ==> scrollListenerAttached)
    }

    /** Mounting with `messages.length` messages; refs start from the first props. */
    constructor (messageCount: nat, isVisible: bool)
      ensures Valid()
      ensures currentPairIndex == None && previousMessageCount == messageCount
      ensures previousIsVisible == isVisible && focusedAIPosition == None
      ensures !isTransitioningIn && dynamicPadding == 100
      ensures !resolverAttached && !positionTimerPending && !scrollListenerAttached && !scrollTimerPending
      ensures pendingTransitionEnds == 0 && pendingLatestScrolls == 0
    {
      currentPairIndex := None;
      previousMessageCount := messageCount;
      previousIsVisible := isVisible;
      focusedAIPosition := None;
      isTransitioningIn := false;
      dynamicPadding := 100;
      resolverAttached := false;
      lastScrollTop := 0.0;
      trackedPairIndex := -1;
      positionTimerPending := false;
      scrollListenerAttached := false;
      scrollTimerPending := false;
      pendingTransitionEnds := 0;
      pendingLatestScrolls := 0;
    }

    /** The new-message effect (lines 115-133). */
    method OnMessagesChanged(messageCount: nat) returns (scrollScheduled: bool)
      modifies this`previousMessageCount, this`currentPairIndex, this`pendingLatestScrolls
      ensures previousMessageCount == messageCount
      ensures currentPairIndex == IndexAfterMessages(old(previousMessageCount), messageCount, old(currentPairIndex))
      ensures scrollScheduled == (messageCount > old(previousMessageCount))
      ensures pendingLatestScrolls == old(pendingLatestScrolls) + (if scrollScheduled then 1 else 0)
    {
      var isNewMessage := messageCount > previousMessageCount;
      previousMessageCount := messageCount;
      scrollScheduled := isNewMessage && messageCount > 0;
      if scrollScheduled {
        currentPairIndex := Some(messageCount / 2 - 1);
        pendingLatestScrolls := pendingLatestScrolls + 1;
      }
    }

    /** The 50 ms timer of the new-message effect fires: `scrollToLatestPair`. */
    method LatestScrollTimerFired(wrapper: Option<ScrollLayout>) returns (target: Option<real>)
      requires pendingLatestScrolls > 0
      modifies this`pendingLatestScrolls
      ensures pendingLatestScrolls == old(pendingLatestScrolls) - 1
      ensures target == ScrollTarget(wrapper)
    {
      pendingLatestScrolls := pendingLatestScrolls - 1;
      target := ScrollTarget(wrapper);
    }

    /** `calculatePadding`, run by its 100 ms timer or a window resize. */
    method RecalculatePadding(wrapper: Option<PaddingLayout>)
      requires Valid()
      modifies this`dynamicPadding
      ensures Valid()
      ensures dynamicPadding == NextPadding(old(dynamicPadding), wrapper)
    {
      dynamicPadding := NextPadding(dynamicPadding, wrapper);
    }

    /** One call of `findCenteredPair`: from the effect set-up, an intersection crossing, or the 30 ms scroll debounce. */
    method FindCenteredPair(snapshot: ScrollSnapshot) returns (up: bool, best: Option<nat>)
      requires resolverAttached
      modifies this`lastScrollTop, this`currentPairIndex
      ensures up == IsScrollingUp(snapshot.scrollTop, old(lastScrollTop))
      ensures lastScrollTop == snapshot.scrollTop
      ensures best.None? <==> forall j :: 0 <= j < |snapshot.pairs| ==> !Qualifies(snapshot.pairs[j], snapshot.view, up)
      ensures best.Some? ==> IsBest(snapshot.pairs, snapshot.view, up, best.value)
      ensures currentPairIndex == ResolvedIndex(old(currentPairIndex), best)
    {
      up := snapshot.scrollTop < lastScrollTop;
      lastScrollTop := snapshot.scrollTop;
      best := BestPair(snapshot.pairs, snapshot.view, up);
      if best.Some? {
        currentPairIndex := Some(best.value);
      }
    }

    /**
     * The centred-pair effect (lines 166-257): skipped while hidden or without a
     * scroll wrapper; otherwise it records the scroll offset and evaluates once.
     */
    method AttachResolver(isVisible: bool, wrapper: Option<ScrollSnapshot>) returns (best: Option<nat>)
      modifies this`resolverAttached, this`lastScrollTop, this`currentPairIndex
      ensures resolverAttached == (isVisible && wrapper.Some?)
      ensures !resolverAttached ==> best == None && currentPairIndex == old(currentPairIndex) && lastScrollTop == old(lastScrollTop)
      ensures resolverAttached ==> lastScrollTop == wrapper.value.scrollTop
      ensures resolverAttached && best.Some? ==> IsBest(wrapper.value.pairs, wrapper.value.view, false, best.value)
      ensures resolverAttached && best.None? ==>
        forall j :: 0 <= j < |wrapper.value.pairs| ==> !Qualifies(wrapper.value.pairs[j], wrapper.value.view, false)
      ensures currentPairIndex == ResolvedIndex(old(currentPairIndex), best)
    {
      resolverAttached := false;
      best := None;
      if isVisible && wrapper.Some? {
        resolverAttached := true;
        lastScrollTop := wrapper.value.scrollTop;
        var up;
        up, best := FindCenteredPair(wrapper.value);
      }
    }

    /**
     * The position effect (lines 263-347), after the previous run's clean-up has
     * cancelled its timers and removed its scroll listener.
     */
    method RunFocusEffect(messageCount: nat, isVisible: bool, waitingForAI: bool, wrapperPresent: bool)
      returns (transitionStarted: bool, outcome: PositionOutcome)
      requires Valid()
      modifies this`previousIsVisible, this`isTransitioningIn, this`pendingTransitionEnds,
               this`focusedAIPosition, this`trackedPairIndex, this`positionTimerPending,
               this`scrollListenerAttached, this`scrollTimerPending
      ensures Valid()
      ensures previousIsVisible == isVisible
      ensures transitionStarted == (!old(previousIsVisible) && isVisible && InFocusMode(messageCount, currentPairIndex))
      ensures isTransitioningIn == (old(isTransitioningIn) || transitionStarted)
      ensures pendingTransitionEnds == old(pendingTransitionEnds) + (if transitionStarted then 1 else 0)
      ensures outcome == PositionOutcomeOf(InFocusMode(messageCount, currentPairIndex), isVisible, waitingForAI,
                                           old(focusedAIPosition).Some?, transitionStarted)
      ensures outcome == Frozen ==> focusedAIPosition == old(focusedAIPosition)
      ensures outcome == Cleared ==> focusedAIPosition == None
      ensures outcome.Scheduled? ==>
        && focusedAIPosition == old(focusedAIPosition)
        && trackedPairIndex == Pairing.LastPairIndexByCount(messageCount)
        && scrollListenerAttached == wrapperPresent
      ensures positionTimerPending == outcome.Scheduled?
      ensures !outcome.Scheduled? ==> !scrollListenerAttached
      ensures !scrollTimerPending
    {
      positionTimerPending, scrollTimerPending, scrollListenerAttached := false, false, false;
      var inFocus := InFocusMode(messageCount, currentPairIndex);
      transitionStarted := !previousIsVisible && isVisible && inFocus;
      previousIsVisible := isVisible;
      if transitionStarted {
        isTransitioningIn := true;
        pendingTransitionEnds := pendingTransitionEnds + 1;
      }
      if waitingForAI && focusedAIPosition.Some? {
        outcome := Frozen;
        return;
      }
      if !isVisible || !inFocus {
        focusedAIPosition := None;
        outcome := Cleared;
        return;
      }
      trackedPairIndex := messageCount / 2 - 1;
      outcome := Scheduled(if transitionStarted then 1000 else 100);
      positionTimerPending := true;
      scrollListenerAttached := wrapperPresent;
    }

    /** A scroll of the container while the position effect listens: (re)start its 100 ms debounce. */
    method ContainerScrolled()
      requires Valid()
      modifies this`scrollTimerPending
      ensures Valid()
      ensures scrollTimerPending == (old(scrollTimerPending) || scrollListenerAttached)
    {
      if scrollListenerAttached {
        scrollTimerPending := true;
      }
    }

    /**
     * `updateAIPosition` runs from the effect's timer or from the scroll debounce.
     * `aiRects[k]` is the rectangle of the `.ai-message-content` of rendered pair k, if any.
     */
    method PositionUpdateFired(fromScroll: bool, aiRects: seq<Option<Rect>>) returns (notified: Option<Position>)
      requires Valid()
      requires if fromScroll then scrollTimerPending else positionTimerPending
      modifies this`focusedAIPosition, this`positionTimerPending, this`scrollTimerPending
      ensures Valid()
      ensures fromScroll ==> !scrollTimerPending && positionTimerPending == old(positionTimerPending)
      ensures !fromScroll ==> !positionTimerPending && scrollTimerPending == old(scrollTimerPending)
      ensures 0 <= trackedPairIndex < |aiRects| && aiRects[trackedPairIndex].Some? ==>
        notified == Some(AvatarPosition(aiRects[trackedPairIndex].value)) && focusedAIPosition == notified
      ensures !(0 <= trackedPairIndex < |aiRects| && aiRects[trackedPairIndex].Some?) ==>
        notified == None && focusedAIPosition == old(focusedAIPosition)
    {
      if fromScroll {
        scrollTimerPending := false;
      } else {
        positionTimerPending := false;
      }
      notified := None;
      if 0 <= trackedPairIndex < |aiRects| && aiRects[trackedPairIndex].Some? {
        notified := Some(AvatarPosition(aiRects[trackedPairIndex].value));
        focusedAIPosition := notified;
      }
    }

    /** The 1000 ms timer of a transition fires: `isTransitioningIn` false, and the parent is told false. */
    method TransitionTimerFired()
      requires pendingTransitionEnds > 0
      modifies this`isTransitioningIn, this`pendingTransitionEnds
      ensures !isTransitioningIn
      ensures pendingTransitionEnds == old(pendingTransitionEnds) - 1
    {
      isTransitioningIn := false;
      pendingTransitionEnds := pendingTransitionEnds - 1;
    }

    /** Teardown runs every clean-up; the transition and latest-scroll timers are not cleared and may still fire. */
    method Unmount()
      requires Valid()
      modifies this`resolverAttached, this`positionTimerPending, this`scrollListenerAttached, this`scrollTimerPending
      ensures Valid()
      ensures !resolverAttached && !positionTimerPending && !scrollListenerAttached && !scrollTimerPending
    {
      resolverAttached, positionTimerPending, scrollListenerAttached, scrollTimerPending := false, false, false, false;
    }
  }

  /**
   * One commit in which the list grew while the thread is shown: the count
   * effect runs first and writes the last index by count, then the centred-pair
   * effect's first evaluation. Its choice, when some pair qualifies, is the
   * value that stays.
   */
  method GrowthThenResolve(t: MessageThread, messageCount: nat, snapshot: ScrollSnapshot) returns (best: Option<nat>)
    requires messageCount > t.previousMessageCount
    modifies t
    ensures best.Some? ==> IsBest(snapshot.pairs, snapshot.view, false, best.value)
    ensures best.Some? ==> t.currentPairIndex == Some(best.value as int)
    ensures best.None? ==> t.currentPairIndex == Some(Pairing.LastPairIndexByCount(messageCount))
    ensures best.Some? && best.value as int != Pairing.LastPairIndexByCount(messageCount) ==>
      !InFocusMode(messageCount, t.currentPairIndex)
  {
    var scheduled := t.OnMessagesChanged(messageCount);
    best := t.AttachResolver(true, Some(snapshot));
  }

  /**
   * The freeze rule, over a run of the position effect followed by any scrolls:
   * while a reply is awaited and a position is held, it is neither recomputed
   * nor cleared, and no update remains scheduled.
   */
  method FreezeHoldsPosition(t: MessageThread, messageCount: nat, isVisible: bool, wrapperPresent: bool, scrolls: nat)
    returns (held: Position)
    requires t.Valid() && t.focusedAIPosition.Some?
    modifies t
    ensures t.focusedAIPosition == Some(held) && held == old(t.focusedAIPosition.value)
    ensures !t.positionTimerPending && !t.scrollTimerPending
  {
    held := t.focusedAIPosition.value;
    var _, outcome := t.RunFocusEffect(messageCount, isVisible, true, wrapperPresent);
    var n := 0;
    while n < scrolls
      invariant t.Valid() && t.focusedAIPosition == Some(held)
      invariant !t.scrollListenerAttached && !t.positionTimerPending && !t.scrollTimerPending
    {
      t.ContainerScrolled();
      n := n + 1;
    }
  }
}
