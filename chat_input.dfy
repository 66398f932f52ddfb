/** The text/voice input: a toggle between voice and text, Enter to send, and a send button. */
module ChatInputComponent {
  import opened Wrappers
  import opened Text

  class NewChatInput {
    var isExpanded: bool
    var inputValue: string
    var shouldPop: bool
    var shouldAnimateToggle: bool
    var pendingPopResets: nat

    /** Mounting: voice mode; the effect of lines 19-24 reports `false` to `onExpandedChange`. */
    constructor ()
      ensures !isExpanded && inputValue == "" && !shouldPop && !shouldAnimateToggle && pendingPopResets == 0
    {
      isExpanded := false;
      inputValue := "";
      shouldPop, shouldAnimateToggle := false, false;
      pendingPopResets := 0;
    }

    /**
     * `handleToggle`: flips the mode, starts the 800 ms pop animation, and clears
     * the input when leaving text mode; `notified` is the value the effect then
     * passes to `onExpandedChange`.
     */
    method Toggle() returns (notified: bool)
      modifies this
      ensures isExpanded == !old(isExpanded) && notified == isExpanded
      ensures inputValue == (if old(isExpanded) then "" else old(inputValue))
      ensures shouldPop && shouldAnimateToggle
      ensures pendingPopResets == old(pendingPopResets) + 1
    {
      shouldAnimateToggle := true;
      var wasExpanded := isExpanded;
      isExpanded := !isExpanded;
      shouldPop := true;
      pendingPopResets := pendingPopResets + 1;
      if wasExpanded {
        inputValue := "";
      }
      notified := isExpanded;
    }

    /** The 800 ms timer of a toggle fires. */
    method PopTimerFired()
      requires pendingPopResets > 0
      modifies this`shouldPop, this`shouldAnimateToggle, this`pendingPopResets
      ensures !shouldPop && !shouldAnimateToggle
      ensures pendingPopResets == old(pendingPopResets) - 1
    {
      shouldPop, shouldAnimateToggle := false, false;
      pendingPopResets := pendingPopResets - 1;
    }

    /** `onChange` of the text field. */
    method Typed(value: string)
      modifies this`inputValue
      ensures inputValue == value
    {
      inputValue := value;
    }

    /** `onKeyPress`: Enter without Shift sends a non-blank value and clears it. */
    method KeyPress(key: string, shiftKey: bool) returns (sent: Option<string>)
      modifies this`inputValue
      ensures key == "Enter" && !shiftKey && !IsBlank(old(inputValue)) ==>
        sent == Some(old(inputValue)) && inputValue == ""
      ensures !(key == "Enter" && !shiftKey && !IsBlank(old(inputValue))) ==>
        sent == None && inputValue == old(inputValue)
    {
      sent := None;
      if key == "Enter" && !shiftKey {
        if !IsBlank(inputValue) {
          sent := Some(inputValue);
          inputValue := "";
        }
      }
    }

    /** The send button replaces the toggle while the text field holds something. */
    predicate ShowsSendButton()
      reads this
    {
      isExpanded && inputValue != ""
    }

    /** A click on the toggle container: it has no handler while the send button shows. */
    method ContainerClicked() returns (notified: Option<bool>)
      modifies this
      ensures old(ShowsSendButton()) ==>
        && notified == None && isExpanded == old(isExpanded) && inputValue == old(inputValue)
        && shouldPop == old(shouldPop) && shouldAnimateToggle == old(shouldAnimateToggle)
        && pendingPopResets == old(pendingPopResets)
      ensures !old(ShowsSendButton()) ==>
        && notified == Some(isExpanded) && isExpanded == !old(isExpanded)
        && inputValue == (if old(isExpanded) then "" else old(inputValue))
        && shouldPop && shouldAnimateToggle && pendingPopResets == old(pendingPopResets) + 1
    {
      notified := None;
      if !ShowsSendButton() {
        var n := Toggle();
        notified := Some(n);
      }
    }

    /** The send button: sends the raw value, even a blank one, and clears it; the click stops there. */
    method SendButtonClicked() returns (sent: string)
      requires ShowsSendButton()
      modifies this`inputValue
      ensures sent == old(inputValue) && inputValue == ""
      ensures isExpanded
    {
      sent := inputValue;
      inputValue := "";
    }
  }

  /** Typing in text mode and pressing the button sends what was typed and stays in text mode. */
  method TypeAndSend(c: NewChatInput, text: string) returns (sent: string)
    requires c.isExpanded && text != ""
    modifies c
    ensures sent == text && c.inputValue == "" && c.isExpanded
  {
    c.Typed(text);
    sent := c.SendButtonClicked();
  }
}
