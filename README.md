# A verified model of the ui-idea conversation views

ui-idea is a React prototype of a voice-and-text coaching conversation. The
user speaks or types, and a simulated AI replies after a delay. The
conversation is shown in one of three places:

- a **message thread** that tracks which user/AI pair is centred and enters
  *focus mode* on the newest exchange;
- a **micro-text** strip that shows only the latest AI message;
- a **focus overlay** with the latest exchange (prototype only).

Around them sit an input that switches between voice and text, two kinds of
tooltip, and a controller that owns the messages and the mode flags.

This project models that core in Dafny and proves what it promises. Each
React component whose state changes over time becomes a `class`:

- its `useState` values and `useRef`s are fields;
- every effect run, event handler and timer firing is a `method` with a
  `modifies` frame;
- a pending `setTimeout` is a flag or a counter, and its callback is a
  `...TimerFired` method whose `requires` says the timer is pending.

The pure computations are functions with lemmas about them. The grouping of
messages into pairs is a `while` loop proved equal to its specification.
DOM measurements are parameters: rectangles, `clientHeight`, `scrollTop`,
`window.innerWidth`/`innerHeight`. Wheel and key events are parameters too.

Layout:

| file | module | models |
|---|---|---|
| `wrappers.dfy` | `Wrappers` | `Option`, standing for `null`/`undefined` |
| `messages.dfy` | `Messages` | message records, `findLastIndex` by kind |
| `text.dfy` | `Text` | `String.prototype.trim()` emptiness over the JavaScript white-space set |
| `pairing.dfy` | `Pairing` | the pair-grouping loop both message threads render with |
| `geometry.dfy` | `Geometry` | rectangles, `Math.round`, padding, scroll target, avatar position |
| `centered_pair.dfy` | `CenteredPair` | `findCenteredPair`'s selection loop |
| `message_thread.dfy` | `MessageThreadComponent` | `src/components/MessageThread/MessageThread.jsx` |
| `prototype_thread.dfy` | `PrototypeThreadComponent` | `ui-prototype/src/components/MessageThread/MessageThread.jsx` |
| `focus_overlay.dfy` | `FocusOverlay` | `ui-prototype/src/components/MessageThread/FocusOverlay.jsx` |
| `micro_text.dfy` | `MicroText` | `src/components/MicroText/MicroText.jsx` |
| `tooltip.dfy` | `TooltipComponent` | `ui-prototype/src/components/Tooltip/Tooltip.jsx` |
| `cursor_tooltip.dfy` | `CursorTooltipComponent` | `src/components/CursorTooltip/CursorTooltip.jsx` |
| `chat_input.dfy` | `ChatInputComponent` | `ui-prototype/src/components/ChatInput/NewChatInput.jsx` |
| `app.dfy` | `AppComponent` | `src/App.jsx` |

The model covers the ui-prototype `NewChatInput`. Both message threads use the same pair-grouping loop
(`ui-prototype/src/components/MessageThread/MessageThread.jsx:173-183`).
`Pairing` models the two loops once.

## Behaviour as the code has it

These points follow the code even where its comments or its apparent
intent suggest otherwise.

**Two definitions of "last pair".** The src thread has two of them:

- focus mode and the avatar use `Math.floor(messages.length / 2) - 1`;
- the pair styling uses `messagePairs.length - 1`.

Both definitions are modelled. `Pairing.LastPairIndicesAgreeWhenAlternating`
proves they agree on a strictly alternating thread. They differ when a user
sends twice before a reply (`Pairing.LastPairIndicesDisagreeAfterDoubleSend`).
Then the new-message effect sets an index that matches no rendered pair. That
index lasts only until the centred-pair effect's first evaluation in the same
commit. That effect also depends on `messages`, runs after the count effect,
and replaces the index whenever some pair qualifies
(`MessageThreadComponent.GrowthThenResolve`). So after a double send the
latest pair is still highlighted when it is the centred one. No pair is
highlighted when none qualifies or when another pair is centred.

**Timers that are never cancelled.** In the src thread:

- the 1000 ms end-of-transition timer is never cleared (line 277);
- neither is the 50 ms scroll-to-latest-pair timer (line 129).

Both may fire after later effect runs or after unmounting, so the model
keeps them as counters that `Unmount` leaves alone.

**The avatar position re-arms itself.** `focusedAIPosition` is a dependency
of its own effect, and every update stores a new object. So each
`updateAIPosition` re-runs the effect, which schedules another update
100 ms later. `MessageThread.RunFocusEffect` is one such run, and
`PositionUpdateFired` is one update.

**Zero-height pairs.** In `findCenteredPair` a zero-height pair gives a
visibility ratio of `NaN` or `±Infinity`. `NaN` and `-Infinity` never pass
the threshold; `+Infinity` cannot arise for a pair of zero height. So the
model's `CenteredPair.Qualifies` requires a positive height.

**Prototype thread.** `isNewMessage` is computed and never read, so the
message effect acts on the last two messages at every run.

**Cursor tooltip.** The `x`/`y` it stores are read from `clientX` of a
`CustomEvent`, which is `undefined`. They are never read again, so they
are not modelled.

**Speech stops on `/` and `meta+s`.** The keyboard effect depends on
`grayscale` and `speechEnabled`. Its clean-up calls `speechService.stop()`
whenever the effect is torn down, so both keys stop speech. The explicit
`stop()` for `meta+s` adds nothing to that.

## Model

| member | source | states |
|---|---|---|
| Text.IsWhitespace | src/App.jsx:192 | the characters `String.prototype.trim` removes: JavaScript white space and line terminators |
| Text.TrimStart | src/App.jsx:192 | a suffix of the input; everything removed is white space, and what is left does not start with white space |
| Text.TrimEnd | src/App.jsx:192 | a prefix of the input; everything removed is white space, and what is left does not end with white space |
| Text.Trim | ui-prototype/src/components/ChatInput/NewChatInput.jsx:110 | `trim()`: leading, then trailing white space removed |
| Text.IsBlank | ui-prototype/src/components/ChatInput/NewChatInput.jsx:110 | the non-blank test of `sendMessage` and the Enter handler: every character is white space |
| Text.BlankIffTrimEmpty | src/App.jsx:192 | `!s.trim()`: `IsBlank` (every character is white space) holds exactly when `Trim` of the string is empty |
| Messages.LastIndexOfKind | ui-prototype/src/components/MessageThread/FocusOverlay.jsx:8 | the result is -1 or an index holding that kind, and no later message has that kind |
| Messages.LastIndexDependsOnKindsOnly | ui-prototype/src/components/MessageThread/FocusOverlay.jsx:8 | two lists with the same kinds in the same order give the same index |
| Messages.LastIndexAbsent | ui-prototype/src/components/MessageThread/FocusOverlay.jsx:8-9 | -1 exactly when no message has that kind |
| Messages.LastIndexAfterHistory | ui-prototype/src/components/MessageThread/FocusOverlay.jsx:8 | prepending history shifts the last occurrence by its length when the suffix contains the kind |
| Pairing.PairsFrom | src/components/MessageThread/MessageThread.jsx:467-476 | the scan from position `i`, numbering pairs from `next` |
| Pairing.PairsFromBound | src/components/MessageThread/MessageThread.jsx:467-476 | each emitted pair consumes two messages |
| Pairing.StartsPair | src/components/MessageThread/MessageThread.jsx:468 | a user message at `i` with an AI message right after it; past the end reads as `undefined` |
| Pairing.Pairs | src/components/MessageThread/MessageThread.jsx:466-476 | the pair list of a thread, at most one pair per two messages |
| Pairing.LastPairIndexByCount | src/components/MessageThread/MessageThread.jsx:122-123 | `Math.floor(messages.length / 2) - 1` |
| Pairing.LastRenderedPairIndex | src/components/MessageThread/MessageThread.jsx:480 | `messagePairs.length - 1` |
| Pairing.RenderedIndexWithinCount | src/components/MessageThread/MessageThread.jsx:480 | the rendered last index is at least -1 and never beyond the index the count gives |
| Pairing.GroupIntoPairs | src/components/MessageThread/MessageThread.jsx:466-476 | the loop that skips the AI message after each pair returns exactly the specified pair list |
| Pairing.PairsFromAtStarts | src/components/MessageThread/MessageThread.jsx:466-476 | the k-th emitted pair is the user/AI pair at the k-th start position, numbered from the counter |
| Pairing.StartsFromShape | src/components/MessageThread/MessageThread.jsx:467-475 | start positions are user-then-AI positions, at least two apart, and no such position is skipped |
| Pairing.PairsAreAdjacentUserAi | src/components/MessageThread/MessageThread.jsx:468-472 | every pair is a user message immediately followed in the input by an AI message |
| Pairing.PairIndexIsPosition | src/components/MessageThread/MessageThread.jsx:472 | each pair's `pairIndex` is its position in the pair list |
| Pairing.NoMessageInTwoPairs | src/components/MessageThread/MessageThread.jsx:474 | pairs occupy disjoint, increasing positions |
| Pairing.EveryAdjacentUserAiIsPaired | src/components/MessageThread/MessageThread.jsx:467-475 | every user message directly followed by an AI message begins a pair |
| Pairing.TailPairIsLastPair | src/components/MessageThread/MessageThread.jsx:468-474 | a list ending in user, AI has those two as its last pair |
| Pairing.AlternatingPairCount | src/components/MessageThread/MessageThread.jsx:122 | on an alternating thread the number of pairs is half the number of messages, rounded down |
| Pairing.LastPairIndicesAgreeWhenAlternating | src/components/MessageThread/MessageThread.jsx:122-123 | on an alternating thread `floor(length/2)-1` is the last rendered pair's index |
| Pairing.LastPairIndicesDisagreeAfterDoubleSend | src/components/MessageThread/MessageThread.jsx:264-265 | after a double send the count gives index 2 while the last rendered pair has index 1 |
| Geometry.Round | src/components/MessageThread/MessageThread.jsx:61 | `Math.round` gives the integer within half a unit, halves rounded up |
| Geometry.RoundOfInteger | src/components/MessageThread/MessageThread.jsx:61 | rounding an integer returns it |
| Geometry.RoundMonotone | src/components/MessageThread/MessageThread.jsx:61 | rounding preserves order |
| Geometry.IdealPadding | src/components/MessageThread/MessageThread.jsx:57-61 | padding is at least 100, exactly 100 when the scaled half-gap is at most 100, otherwise the rounded `(viewport - pair) / 2 * 1.8` |
| Geometry.IdealPaddingAntitone | src/components/MessageThread/MessageThread.jsx:57-59 | a taller last pair never gets more padding |
| Geometry.NextPadding | src/components/MessageThread/MessageThread.jsx:43-62 | no wrapper or no pair leaves the padding as it was; otherwise it is the ideal padding of the last pair |
| Geometry.PaddingFloorPreserved | src/components/MessageThread/MessageThread.jsx:59 | padding of at least 100 stays at least 100 |
| Geometry.ScrollTarget | src/components/MessageThread/MessageThread.jsx:77-96 | a scroll is issued exactly when a wrapper and a pair exist, putting the last pair 20% of the viewport below the top |
| Geometry.AvatarPosition | src/components/MessageThread/MessageThread.jsx:311-314 | the avatar's centre is 150 px left of the message and level with its vertical centre |
| Geometry.AvatarCentreBesideMessage | src/components/MessageThread/MessageThread.jsx:311-314 | that centre lies within the message's vertical extent and to its left |
| CenteredPair.Centre | src/components/MessageThread/MessageThread.jsx:190-191 | the vertical centre `top + height / 2` of a rectangle |
| CenteredPair.BiasedDistance | src/components/MessageThread/MessageThread.jsx:190-201 | distance between centres, times 0.8 above centre when scrolling up, times 1.1 below centre when scrolling down, never negative |
| CenteredPair.IsScrollingUp | src/components/MessageThread/MessageThread.jsx:178 | upward exactly when `scrollTop` decreased |
| CenteredPair.VisibleHeight | src/components/MessageThread/MessageThread.jsx:204-206 | never more than the pair's or the viewport's height; the full height for a pair inside the viewport; nothing for a pair outside it |
| CenteredPair.MinVisibility | src/components/MessageThread/MessageThread.jsx:210 | 0.15 of the height when scrolling up, 0.25 otherwise |
| CenteredPair.Qualifies | src/components/MessageThread/MessageThread.jsx:207-212 | positive height and a visible fraction above the threshold |
| CenteredPair.FullyVisibleQualifies | src/components/MessageThread/MessageThread.jsx:204-212 | a pair of positive height wholly inside the viewport qualifies in either direction |
| CenteredPair.ScrollingUpIsMoreLenient | src/components/MessageThread/MessageThread.jsx:210 | whatever qualifies scrolling down also qualifies scrolling up |
| CenteredPair.IsBest | src/components/MessageThread/MessageThread.jsx:212-215 | qualifies, no qualifying pair strictly closer, every earlier qualifying pair strictly farther |
| CenteredPair.OffscreenNeverQualifies | src/components/MessageThread/MessageThread.jsx:204-212 | a pair fully outside the viewport is never chosen |
| CenteredPair.BestIsUnique | src/components/MessageThread/MessageThread.jsx:212-215 | at most one index is the best pair |
| CenteredPair.BestPair | src/components/MessageThread/MessageThread.jsx:182-216 | none exactly when no pair qualifies; otherwise a qualifying pair of least biased distance, the earliest on ties |
| CenteredPair.ResolvedIndex | src/components/MessageThread/MessageThread.jsx:218-220 | the index changes only when a pair qualified |
| MessageThreadComponent.InFocusMode | src/components/MessageThread/MessageThread.jsx:264-265 | the tracked index is the last pair index by count |
| MessageThreadComponent.RenderedPairStyle | src/components/MessageThread/MessageThread.jsx:480-487 | scale 1.15 for the latest pair and opacity 0.05 for the others, both only in render focus mode |
| MessageThreadComponent.PositionOutcomeOf | src/components/MessageThread/MessageThread.jsx:285-333 | frozen while waiting with a held position, cleared when hidden or out of focus, otherwise an update in 1000 ms when opening and 100 ms otherwise |
| MessageThreadComponent.IndexAfterMessages | src/components/MessageThread/MessageThread.jsx:115-127 | growth sets the index to `floor(length/2)-1`; otherwise it is kept |
| MessageThreadComponent.GrowthEntersFocusMode | src/components/MessageThread/MessageThread.jsx:120-126 | the index the count effect writes on growth is the focus-mode index; the resolver's evaluation in the same commit may replace it (`GrowthThenResolve`) |
| MessageThreadComponent.FocusHighlightsOnlyLatestPair | src/components/MessageThread/MessageThread.jsx:480-487 | in render focus mode only the latest pair is scaled up and every other pair is faded |
| MessageThreadComponent.NoFocusNoHighlight | src/components/MessageThread/MessageThread.jsx:484-487 | outside render focus mode every pair has scale 1 and opacity 1 |
| MessageThreadComponent.MessageThread.constructor | src/components/MessageThread/MessageThread.jsx:11-17 | no pair index, padding 100, refs from the first props, nothing scheduled |
| MessageThreadComponent.MessageThread.OnMessagesChanged | src/components/MessageThread/MessageThread.jsx:115-133 | records the count, applies `IndexAfterMessages`, and schedules a scroll exactly when the list grew |
| MessageThreadComponent.MessageThread.LatestScrollTimerFired | src/components/MessageThread/MessageThread.jsx:129-131 | the fired timer scrolls to `ScrollTarget` of the wrapper |
| MessageThreadComponent.MessageThread.RecalculatePadding | src/components/MessageThread/MessageThread.jsx:40-75 | the padding becomes `NextPadding` and stays at least 100 |
| MessageThreadComponent.MessageThread.FindCenteredPair | src/components/MessageThread/MessageThread.jsx:176-221 | direction from the previous `scrollTop`, which is then updated; best pair as in `BestPair`; index updated only when some pair qualifies |
| MessageThreadComponent.MessageThread.AttachResolver | src/components/MessageThread/MessageThread.jsx:166-257 | nothing happens when hidden or without a wrapper; otherwise the first evaluation runs with direction down |
| MessageThreadComponent.MessageThread.RunFocusEffect | src/components/MessageThread/MessageThread.jsx:263-348 | starts the transition exactly when opening in focus mode, then freezes, clears or schedules the position as `PositionOutcomeOf` says |
| MessageThreadComponent.MessageThread.ContainerScrolled | src/components/MessageThread/MessageThread.jsx:325-328 | a scroll starts the debounce only while the position listener is attached |
| MessageThreadComponent.MessageThread.PositionUpdateFired | src/components/MessageThread/MessageThread.jsx:302-322 | with an AI rectangle in the last pair by count, the position becomes `AvatarPosition` of it and the parent is told; otherwise nothing changes |
| MessageThreadComponent.MessageThread.TransitionTimerFired | src/components/MessageThread/MessageThread.jsx:277-282 | the transition flag is cleared |
| MessageThreadComponent.MessageThread.Unmount | src/components/MessageThread/MessageThread.jsx:252-256 | listeners and cancellable timers are gone |
| MessageThreadComponent.GrowthThenResolve | src/components/MessageThread/MessageThread.jsx:115-257 | after growth and then the resolver's first evaluation, the index is the resolver's best pair when one qualifies and the count index otherwise; a best pair other than the count index leaves focus mode off |
| MessageThreadComponent.FreezeHoldsPosition | src/components/MessageThread/MessageThread.jsx:285-289 | while waiting with a held position, any number of scrolls neither moves nor clears it, and no update is left scheduled |
| PrototypeThreadComponent.ArrivalActionOf | ui-prototype/src/components/MessageThread/MessageThread.jsx:58-86 | empty: nothing; last is user: scroll to it; user then AI: focus, or scroll to the user message in single display; otherwise scroll to the bottom |
| PrototypeThreadComponent.EnterFocusOnCompletedLastPair | ui-prototype/src/components/MessageThread/MessageThread.jsx:69-72 | focus is entered only when the two newest messages are the last rendered pair |
| PrototypeThreadComponent.Render | ui-prototype/src/components/MessageThread/MessageThread.jsx:144-200 | nothing exactly when not visible; while visible, single display exactly when its flag is set, otherwise one view per pair |
| PrototypeThreadComponent.SingleDisplayShowsLatestAi | ui-prototype/src/components/MessageThread/MessageThread.jsx:185-195 | single display shows the AI message of the last pair, or nothing without pairs |
| PrototypeThreadComponent.FocusHidesEarlierPairs | ui-prototype/src/components/MessageThread/MessageThread.jsx:198-200 | in focus mode every pair but the latest is hidden and only the latest is focused |
| PrototypeThreadComponent.FocusAfterWheel | ui-prototype/src/components/MessageThread/MessageThread.jsx:93-97 | a non-zero wheel delta ends focus mode; a zero one leaves it; the wheel never starts focus mode |
| PrototypeThreadComponent.PrototypeMessageThread.constructor | ui-prototype/src/components/MessageThread/MessageThread.jsx:10-12 | focus mode off, count from the first props |
| PrototypeThreadComponent.PrototypeMessageThread.OnMessagesChanged | ui-prototype/src/components/MessageThread/MessageThread.jsx:53-87 | the action is `ArrivalActionOf`, and focus mode turns on exactly when it is `EnterFocus` |
| PrototypeThreadComponent.PrototypeMessageThread.OnSingleDisplayModeChanged | ui-prototype/src/components/MessageThread/MessageThread.jsx:15-19 | entering single display leaves focus mode off, after the message effect has run too |
| PrototypeThreadComponent.PrototypeMessageThread.View | ui-prototype/src/components/MessageThread/MessageThread.jsx:144-200 | the render with the current focus mode: nothing while not visible, and a pair is hidden only in focus mode |
| PrototypeThreadComponent.PrototypeMessageThread.Wheel | ui-prototype/src/components/MessageThread/MessageThread.jsx:90-107 | focus mode becomes `FocusAfterWheel` of the old one |
| TooltipComponent.CalculatePosition | ui-prototype/src/components/Tooltip/Tooltip.jsx:17-35 | a non-auto position is kept; auto with no trigger is top; otherwise the first side with room among top, bottom, left and right, falling back to top |
| TooltipComponent.ChosenSideHasRoom | ui-prototype/src/components/Tooltip/Tooltip.jsx:29-34 | a chosen bottom, left or right side has more than 100 or 150 px of room; left and right only when the bottom has none |
| TooltipComponent.TooltipVariant | ui-prototype/src/components/Tooltip/Tooltip.jsx:59-84 | anything that is not a side animates like top; top and bottom slide vertically, left and right horizontally |
| TooltipComponent.VariantsDistinguishSides | ui-prototype/src/components/Tooltip/Tooltip.jsx:61-82 | different sides have different variants |
| TooltipComponent.Tooltip.constructor | ui-prototype/src/components/Tooltip/Tooltip.jsx:11-12 | hidden, actual position equal to the prop, nothing pending |
| TooltipComponent.Tooltip.MouseEnter | ui-prototype/src/components/Tooltip/Tooltip.jsx:37-42 | a fresh show timer is added and becomes the newest; older ones stay pending |
| TooltipComponent.Tooltip.MouseLeave | ui-prototype/src/components/Tooltip/Tooltip.jsx:44-49 | only the newest timer is cleared, and the tooltip is hidden |
| TooltipComponent.Tooltip.ShowTimerFired | ui-prototype/src/components/Tooltip/Tooltip.jsx:38-41 | visible, on the side `CalculatePosition` picks at that moment |
| TooltipComponent.Tooltip.CurrentVariant | ui-prototype/src/components/Tooltip/Tooltip.jsx:83-99 | the animation variant of the side the tooltip currently sits on |
| TooltipComponent.Tooltip.Unmount | ui-prototype/src/components/Tooltip/Tooltip.jsx:51-57 | only the newest timer is cleared |
| TooltipComponent.EnterThenLeave | ui-prototype/src/components/Tooltip/Tooltip.jsx:37-49 | an enter followed by a leave shows nothing and leaves no new timer |
| FocusOverlay.FocusedMessages | ui-prototype/src/components/MessageThread/FocusOverlay.jsx:8-9 | empty without a user message; otherwise the suffix from the last user message to the end |
| FocusOverlay.FocusedMessagesIgnoreHistory | ui-prototype/src/components/MessageThread/FocusOverlay.jsx:8-9 | earlier messages do not change the exchange shown |
| MicroText.AiMessages | src/components/MicroText/MicroText.jsx:9 | the filter holds exactly the AI messages of its input, and no more messages than it was given |
| MicroText.AiMessagesConcat | src/components/MicroText/MicroText.jsx:9 | the filter keeps input order: filtering a concatenation concatenates the filtered parts |
| MicroText.LatestAi | src/components/MicroText/MicroText.jsx:8-10 | an AI message of the input when there is one, and none exactly when there is no AI message |
| MicroText.LatestAiIsAtLastAiIndex | src/components/MicroText/MicroText.jsx:8-10 | filtering and then taking the last element gives the message at the last AI position |
| MicroText.LatestAiIsLastAi | src/components/MicroText/MicroText.jsx:8-10 | the selection is an AI message with no later AI message, and is absent exactly when there is none |
| MicroText.SelectionDependsOnKindsOnly | src/components/MicroText/MicroText.jsx:8-10 | lists with the same kinds select at the same position |
| MicroText.Rendered | src/components/MicroText/MicroText.jsx:12-16 | something shows only while visible, and then it is the latest AI message |
| CursorTooltipComponent.Placement | src/components/CursorTooltip/CursorTooltip.jsx:88-93 | right of the 70% line the estimated box ends 20 px left of the cursor; otherwise it starts 20 px right of it; always 10 px above |
| CursorTooltipComponent.PlacementClearsCursor | src/components/CursorTooltip/CursorTooltip.jsx:89-91 | the estimated box never covers the cursor |
| CursorTooltipComponent.CursorTooltip.constructor | src/components/CursorTooltip/CursorTooltip.jsx:6-10 | hidden with empty text, cursor at the origin, no timers |
| CursorTooltipComponent.CursorTooltip.MouseMove | src/components/CursorTooltip/CursorTooltip.jsx:13-15 | the cursor position is recorded |
| CursorTooltipComponent.CursorTooltip.ShowRequested | src/components/CursorTooltip/CursorTooltip.jsx:17-31 | both timers are cancelled, a show is pending, and the request replaces any earlier one |
| CursorTooltipComponent.CursorTooltip.ShowTimerFired | src/components/CursorTooltip/CursorTooltip.jsx:34-41 | visible with exactly the pending text, and the auto-hide is armed |
| CursorTooltipComponent.CursorTooltip.HideTimerFired | src/components/CursorTooltip/CursorTooltip.jsx:43-45 | only visibility changes, and the text is kept |
| CursorTooltipComponent.CursorTooltip.HideRequested | src/components/CursorTooltip/CursorTooltip.jsx:49-58 | both timers are cancelled and the tooltip is hidden, text kept |
| CursorTooltipComponent.CursorTooltip.Clicked | src/components/CursorTooltip/CursorTooltip.jsx:60-62 | a click has exactly the effect of a hide request |
| CursorTooltipComponent.CursorTooltip.Unmount | src/components/CursorTooltip/CursorTooltip.jsx:69-76 | the cleanup cancels the pending show and hide timers |
| CursorTooltipComponent.CursorTooltip.Drawn | src/components/CursorTooltip/CursorTooltip.jsx:81-93 | drawn exactly while visible, 10 px above the current cursor, beside it on the side the 70% line picks, and clear of it by the shown text's estimated width |
| CursorTooltipComponent.ShowThenFire | src/components/CursorTooltip/CursorTooltip.jsx:17-46 | a request followed by its timer shows that text, whatever was shown before |
| ChatInputComponent.NewChatInput.constructor | ui-prototype/src/components/ChatInput/NewChatInput.jsx:7-10 | voice mode, empty input, no animation |
| ChatInputComponent.NewChatInput.Toggle | ui-prototype/src/components/ChatInput/NewChatInput.jsx:26-38 | the mode flips, the input is cleared only when leaving text mode, the pop starts, and the new mode is reported |
| ChatInputComponent.NewChatInput.PopTimerFired | ui-prototype/src/components/ChatInput/NewChatInput.jsx:30-33 | the pop and toggle animation flags are cleared |
| ChatInputComponent.NewChatInput.Typed | ui-prototype/src/components/ChatInput/NewChatInput.jsx:106 | the input holds what was typed |
| ChatInputComponent.NewChatInput.KeyPress | ui-prototype/src/components/ChatInput/NewChatInput.jsx:107-115 | Enter without Shift on non-blank input sends exactly that value and clears it; anything else sends nothing and keeps the input |
| ChatInputComponent.NewChatInput.ShowsSendButton | ui-prototype/src/components/ChatInput/NewChatInput.jsx:125 | `isExpanded && inputValue`: text mode with a non-empty input |
| ChatInputComponent.NewChatInput.ContainerClicked | ui-prototype/src/components/ChatInput/NewChatInput.jsx:125 | no toggle and nothing changed while text mode holds input; otherwise exactly the state change of `Toggle`, reporting the new mode |
| ChatInputComponent.NewChatInput.SendButtonClicked | ui-prototype/src/components/ChatInput/NewChatInput.jsx:142-146 | sends the raw value, clears it, and stays in text mode |
| ChatInputComponent.TypeAndSend | ui-prototype/src/components/ChatInput/NewChatInput.jsx:106-146 | typing and pressing send in text mode sends what was typed |
| AppComponent.ThreadVisible | src/App.jsx:291 | `chatExpanded && !whiteboardMode && !collapsedMode` |
| AppComponent.MicroTextVisible | src/App.jsx:299 | `chatExpanded` and at least one of `collapsedMode` and `whiteboardMode` |
| AppComponent.ThreadAndMicroTextExclusive | src/App.jsx:289-300 | the thread and the micro-text are never visible together |
| AppComponent.ExactlyOneWhenExpanded | src/App.jsx:289-300 | in text mode exactly one of them is visible, in voice mode neither |
| AppComponent.App.constructor | src/App.jsx:17-158 | grayscale and speech on, every other mode off, not waiting, nothing pending; the seeded message list is a parameter |
| AppComponent.App.ShowsThread | src/App.jsx:291 | whether the message thread is shown in the current state (`ThreadVisible` of the fields) |
| AppComponent.App.ShowsMicroText | src/App.jsx:299 | whether the micro-text is shown in the current state (`MicroTextVisible` of the fields) |
| AppComponent.App.SendMessage | src/App.jsx:191-205 | blank content changes nothing; otherwise exactly one user message is appended, the app waits, and a reply capturing the speech flag is scheduled |
| AppComponent.App.ReplyTimerFired | src/App.jsx:207-240 | one streaming AI message with the chosen canned reply is appended, spoken exactly when its send saw speech on, and the wait-clear timer starts |
| AppComponent.App.WaitClearTimerFired | src/App.jsx:243-245 | waiting ends |
| AppComponent.App.SetChatExpanded | src/App.jsx:304 | the reported mode is stored |
| AppComponent.App.SetWhiteboardMode | src/App.jsx:269-274 | the mode is set and speech stops exactly when entering the canvas |
| AppComponent.App.HandleKeyAsWritten | src/App.jsx:160-182 | `/` flips grayscale, `meta+s` flips speech, both stop speech; `[` sets collapsed to the negation of the handler's captured value; other keys change nothing |
| AppComponent.App.HandleKey | src/App.jsx:160-182 | as above, except that `[` flips the current collapsed mode |
| AppComponent.TwoBracketPressesAsWritten | src/App.jsx:171-182 | two `[` presses from start-up leave the app collapsed |
| AppComponent.TwoBracketPresses | src/App.jsx:171-173 | with the intended handler two `[` presses return to the uncollapsed view |
| AppComponent.SendAndReply | src/App.jsx:191-248 | a non-blank send and a reply leave the list ending in a user message followed by an AI message |

## Left out

- speechService (`ui-prototype/src/services/speechService.js`): its HTTP calls, audio playback and level analysis. The model keeps only whether speech is started (`spoken`) or stopped (`stopSpeech`).
- Timer durations, `Date.now()` ids and timestamps: each timer is an event the caller fires, and ids are parameters.
- The random reply (`Math.random`): `ReplyTimerFired` takes the index as a parameter bounded by the number of canned replies.
- Animations, styling, `AnimatePresence` and the framer-motion transitions: only the values that decide what is shown (scale, opacity, hidden or focused flags) are modelled.
- The `]` debug overlay and `showDebug` in the src thread are display-only.
- `hasInitialized` in both threads only chooses the first entry animation.
- The fade IntersectionObserver (`in-view` classes) does not change state the views read. The only part modelled is that the observer of the centred-pair effect calls `findCenteredPair`, whenever the caller fires `FindCenteredPair`.
- `scrollToMessage` and `scrollToBottom` in the prototype are DOM scrolls. The model returns which scroll is requested (`ArrivalAction`), not the offset.
- Adding and removing listeners is modelled as flags (`resolverAttached`, `scrollListenerAttached`). There are no listener objects.
- Concurrency and React's batching: every handler, effect and timer runs to completion. An effect run is a method call the caller makes whenever a dependency changes.
- Floating-point arithmetic: all geometry uses exact reals. `Math.round` is `floor(x + 0.5)`.
- CursorTooltipComponent.CursorTooltip.Drawn: the text length is counted in Unicode scalar values, while `tooltip.text.length` counts UTF-16 code units. So a label with characters outside the Basic Multilingual Plane that sits left of the cursor is placed 8 px closer to it per such character than the browser places it. Dafny strings have no UTF-16 view.
- `useTooltip` only dispatches the events that `CursorTooltip.ShowRequested` and `HideRequested` model.
- `src/components/ChatInput/NewChatInput`, which `src/App.jsx:7` imports, is not modelled and may differ from the ui-prototype copy that is.
- AppComponent.App.constructor: the twenty seeded messages of `src/App.jsx:20-150` are not written out; the initial list is a parameter.
- MessageThreadComponent.MessageThread.RecalculatePadding: the padding effect's 100 ms timer and resize listener (`src/components/MessageThread/MessageThread.jsx:66-74`) have no flag, so the model does not rule out a recalculation after `Unmount`.
- CursorTooltipComponent.CursorTooltip.Unmount: removing the four window listeners is not tracked, so the model does not rule out an event handled after the cleanup.
- The focus overlay renders only while its `focusMode` prop is true. That gate is left to the caller; `FocusedMessages` is what it shows.

## Findings

| source | as written | input that shows it | evidently intended | confidence | as-written member | corrected member |
|---|---|---|---|---|---|---|
| src/App.jsx:160-182 | The keydown effect depends only on `grayscale` and `speechEnabled`. So its `[` handler still holds the `collapsedMode` of the last `/` or `meta+s` press, and `setCollapsedMode(!collapsedMode)` negates that stale value. | From start-up, press `[` twice. The first press collapses; the second sets collapsed to `!false` again, and the thread stays hidden until `/` or `meta+s` refreshes the handler. | `[` toggles the current collapsed mode, so two presses restore the thread | not executed | AppComponent.TwoBracketPressesAsWritten | AppComponent.App.HandleKey |
