/**
 * The conversation controller at the top of the app: sending a message and the
 * simulated reply, the keyboard toggles, the canvas switch, and which of the
 * message thread and the micro-text is shown.
 */
module AppComponent {
  import opened Wrappers
  import opened Text
  import opened Messages

  /** The canned replies; the simulated reply picks one by index. */
  const Responses: seq<string> := [
    "I hear that you're feeling stuck. That takes courage to admit. What's one small thing that used to bring you joy that you've stopped doing?",
    "It sounds like you're ready for a change but unsure where to start. That's completely normal. What would your ideal day look like if there were no limitations?",
    "Thank you for sharing something so vulnerable. The exhaustion you're describing is real. When was the last time you did something just for yourself?",
    "What you're experiencing is more common than you think. Many people feel this disconnect between who they are and who they're expected to be. What part of yourself do you miss the most?",
    "I'm hearing that you want more meaning in your life. That's a powerful realization. If you could change one thing about your daily routine tomorrow, what would it be?",
    "It's brave to acknowledge when things aren't working. Your feelings are valid and important. What would 'success' mean to you if no one else's opinion mattered?",
    "The fact that you're questioning things shows growth is already happening. Change doesn't have to be dramatic. What's one boundary you wish you could set?",
    "I can sense the weight you're carrying. You don't have to have all the answers right now. What would it feel like to give yourself permission to not be perfect?"
  ]

  /** `isVisible` of the message thread. */
  predicate ThreadVisible(chatExpanded: bool, whiteboardMode: bool, collapsedMode: bool)
  {
    chatExpanded && !whiteboardMode && !collapsedMode
  }

  /** `isVisible` of the micro-text. */
  predicate MicroTextVisible(chatExpanded: bool, whiteboardMode: bool, collapsedMode: bool)
  {
    chatExpanded && (collapsedMode || whiteboardMode)
  }

  /** The thread and the micro-text are never shown together. */
  lemma ThreadAndMicroTextExclusive(chatExpanded: bool, whiteboardMode: bool, collapsedMode: bool)
    ensures !(ThreadVisible(chatExpanded, whiteboardMode, collapsedMode) &&
              MicroTextVisible(chatExpanded, whiteboardMode, collapsedMode))
  {
  }

  /** In text mode exactly one of them is shown; in voice mode neither. */
  lemma ExactlyOneWhenExpanded(chatExpanded: bool, whiteboardMode: bool, collapsedMode: bool)
    ensures chatExpanded ==>
      ThreadVisible(chatExpanded, whiteboardMode, collapsedMode) != MicroTextVisible(chatExpanded, whiteboardMode, collapsedMode)
    ensures !chatExpanded ==>
      !ThreadVisible(chatExpanded, whiteboardMode, collapsedMode) && !MicroTextVisible(chatExpanded, whiteboardMode, collapsedMode)
  {
  }

  class App {
    var messages: seq<Message>
    var waitingForAI: bool
    var grayscale: bool
    var speechEnabled: bool
    var collapsedMode: bool
    var whiteboardMode: bool
    var chatExpanded: bool
    /** One entry per scheduled reply, holding `speechEnabled` as that send captured it. */
    var pendingReplies: seq<bool>
    var pendingWaitClears: nat
    /** `collapsedMode` as captured by the registered keydown handler (its effect does not depend on it). */
    var handlerCollapsed: bool

    constructor (initial: seq<Message>)
      ensures messages == initial && !waitingForAI && grayscale && speechEnabled
      ensures !collapsedMode && !whiteboardMode && !chatExpanded
      ensures pendingReplies == [] && pendingWaitClears == 0 && !handlerCollapsed
    {
      messages := initial;
      waitingForAI := false;
      grayscale, speechEnabled := true, true;
      collapsedMode, whiteboardMode, chatExpanded := false, false, false;
      pendingReplies := [];
      pendingWaitClears := 0;
      handlerCollapsed := false;
    }

    /** Whether the message thread is shown now. */
    predicate ShowsThread()
      reads this
    {
      ThreadVisible(chatExpanded, whiteboardMode, collapsedMode)
    }

    /** Whether the micro-text is shown now. */
    predicate ShowsMicroText()
      reads this
    {
      MicroTextVisible(chatExpanded, whiteboardMode, collapsedMode)
    }

    /**
     * `sendMessage`: blank content changes nothing; otherwise one user message is
     * appended, the app waits for the AI and a reply is scheduled.
     */
    method SendMessage(content: string, id: string)
      modifies this`messages, this`waitingForAI, this`pendingReplies
      ensures IsBlank(content) ==>
        messages == old(messages) && waitingForAI == old(waitingForAI) && pendingReplies == old(pendingReplies)
      ensures !IsBlank(content) ==>
        && messages == old(messages) + [Message(id, User, content, false)]
        && waitingForAI
        && pendingReplies == old(pendingReplies) + [speechEnabled]
    {
      if IsBlank(content) {
        return;
      }
      messages := messages + [Message(id, User, content, false)];
      waitingForAI := true;
      pendingReplies := pendingReplies + [speechEnabled];
    }

    /**
     * The 1000 ms reply timer of the oldest pending send fires with the random
     * pick `choice`: one streaming AI message is appended, it is spoken when that
     * send saw speech enabled, and the 200 ms wait-clear timer starts.
     */
    method ReplyTimerFired(choice: nat, id: string) returns (spoken: Option<string>)
      requires |pendingReplies| > 0 && choice < |Responses|
      modifies this`messages, this`pendingReplies, this`pendingWaitClears
      ensures messages == old(messages) + [Message(id, Ai, Responses[choice], true)]
      ensures spoken == if old(pendingReplies)[0] then Some(Responses[choice]) else None
      ensures pendingReplies == old(pendingReplies)[1..]
      ensures pendingWaitClears == old(pendingWaitClears) + 1
    {
      var reply := Responses[choice];
      messages := messages + [Message(id, Ai, reply, true)];
      spoken := if pendingReplies[0] then Some(reply) else None;
      pendingReplies := pendingReplies[1..];
      pendingWaitClears := pendingWaitClears + 1;
    }

    /** The 200 ms timer fires: the app stops waiting for the AI. */
    method WaitClearTimerFired()
      requires pendingWaitClears > 0
      modifies this`waitingForAI, this`pendingWaitClears
      ensures !waitingForAI && pendingWaitClears == old(pendingWaitClears) - 1
    {
      waitingForAI := false;
      pendingWaitClears := pendingWaitClears - 1;
    }

    /** `onExpandedChange` from the chat input. */
    method SetChatExpanded(expanded: bool)
      modifies this`chatExpanded
      ensures chatExpanded == expanded
    {
      chatExpanded := expanded;
    }

    /** The canvas switch; entering the canvas stops speech. */
    method SetWhiteboardMode(mode: bool) returns (stopSpeech: bool)
      modifies this`whiteboardMode
      ensures whiteboardMode == mode && stopSpeech == mode
    {
      whiteboardMode := mode;
      stopSpeech := mode;
    }

    /**
     * The keydown handler as written. `/` flips grayscale and `meta+s` flips speech;
     * both re-run the effect, whose cleanup stops speech and whose new handler
     * captures the current state. `[` sets collapsed mode to the negation of the
     * value the handler captured, and does not re-run the effect.
     */
    method HandleKeyAsWritten(key: string, metaKey: bool) returns (stopSpeech: bool)
      modifies this`grayscale, this`speechEnabled, this`collapsedMode, this`handlerCollapsed
      ensures key == "/" ==>
        && grayscale == !old(grayscale) && speechEnabled == old(speechEnabled)
        && collapsedMode == old(collapsedMode) && handlerCollapsed == collapsedMode && stopSpeech
      ensures key != "/" && key == "s" && metaKey ==>
        && speechEnabled == !old(speechEnabled) && grayscale == old(grayscale)
        && collapsedMode == old(collapsedMode) && handlerCollapsed == collapsedMode && stopSpeech
      ensures key == "[" ==>
        && collapsedMode == !old(handlerCollapsed) && handlerCollapsed == old(handlerCollapsed)
        && grayscale == old(grayscale) && speechEnabled == old(speechEnabled) && !stopSpeech
      ensures key != "/" && !(key == "s" && metaKey) && key != "[" ==>
        && grayscale == old(grayscale) && speechEnabled == old(speechEnabled)
        && collapsedMode == old(collapsedMode) && handlerCollapsed == old(handlerCollapsed) && !stopSpeech
    {
      stopSpeech := false;
      if key == "/" {
        grayscale := !grayscale;
        stopSpeech := true;
        handlerCollapsed := collapsedMode;
      } else if key == "s" && metaKey {
        speechEnabled := !speechEnabled;
        stopSpeech := true;
        handlerCollapsed := collapsedMode;
      } else if key == "[" {
        collapsedMode := !handlerCollapsed;
      }
    }

    /** The keydown handler as intended: `[` flips the current collapsed mode. */
    method HandleKey(key: string, metaKey: bool) returns (stopSpeech: bool)
      modifies this`grayscale, this`speechEnabled, this`collapsedMode, this`handlerCollapsed
      ensures key == "/" ==>
        && grayscale == !old(grayscale) && speechEnabled == old(speechEnabled)
        && collapsedMode == old(collapsedMode) && stopSpeech
      ensures key != "/" && key == "s" && metaKey ==>
        && speechEnabled == !old(speechEnabled) && grayscale == old(grayscale)
        && collapsedMode == old(collapsedMode) && stopSpeech
      ensures key == "[" ==>
        && collapsedMode == !old(collapsedMode)
        && grayscale == old(grayscale) && speechEnabled == old(speechEnabled) && !stopSpeech
      ensures key != "/" && !(key == "s" && metaKey) && key != "[" ==>
        && grayscale == old(grayscale) && speechEnabled == old(speechEnabled)
        && collapsedMode == old(collapsedMode) && !stopSpeech
      ensures handlerCollapsed == collapsedMode
    {
      stopSpeech := false;
      if key == "/" {
        grayscale := !grayscale;
        stopSpeech := true;
      } else if key == "s" && metaKey {
        speechEnabled := !speechEnabled;
        stopSpeech := true;
      } else if key == "[" {
        collapsedMode := !collapsedMode;
      }
      handlerCollapsed := collapsedMode;
    }
  }

  /** Pressing `[` twice after start-up leaves the app collapsed: the second press reads the stale `false`. */
  method TwoBracketPressesAsWritten() returns (collapsed: bool)
    ensures collapsed
  {
    var app := new App([]);
    var stop := app.HandleKeyAsWritten("[", false);
    stop := app.HandleKeyAsWritten("[", false);
    collapsed := app.collapsedMode;
  }

  /** With the intended handler two presses of `[` return to the uncollapsed view. */
  method TwoBracketPresses() returns (collapsed: bool)
    ensures !collapsed
  {
    var app := new App([]);
    var stop := app.HandleKey("[", false);
    stop := app.HandleKey("[", false);
    collapsed := app.collapsedMode;
  }

  /** A non-blank send followed by its reply leaves the thread ending in a completed user/AI pair. */
  method SendAndReply(app: App, content: string, userId: string, choice: nat, aiId: string)
    requires !IsBlank(content) && choice < |Responses|
    modifies app
    ensures |app.messages| >= 2
    ensures app.messages[|app.messages| - 2].kind == User && app.messages[|app.messages| - 1].kind == Ai
    ensures app.waitingForAI
  {
    app.SendMessage(content, userId);
    var spoken := app.ReplyTimerFired(choice, aiId);
  }
}
