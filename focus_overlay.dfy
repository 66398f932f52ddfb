/** The prototype's focus overlay: the latest exchange, from the last user message on. */
module FocusOverlay {
  import opened Messages

  /** `lastUserIndex >= 0 ? messages.slice(lastUserIndex) : []` */
  function FocusedMessages(ms: seq<Message>): (r: seq<Message>)
    ensures (forall j :: 0 <= j < |ms| ==> ms[j].kind != User) ==> r == []
    ensures (exists j :: 0 <= j < |ms| && ms[j].kind == User) ==> r != []
    ensures |r| <= |ms| && r == ms[|ms| - |r|..]
    ensures r != [] ==> r[0].kind == User && r[|r| - 1] == ms[|ms| - 1]
    ensures forall k :: 0 < k < |r| ==> r[k].kind != User
  {
    var lastUserIndex := LastIndexOfKind(ms, User);
    if lastUserIndex >= 0 then ms[lastUserIndex..] else []
  }

  /** The overlay shows the same exchange whatever came before it. */
  lemma FocusedMessagesIgnoreHistory(history: seq<Message>, ms: seq<Message>)
    requires exists j :: 0 <= j < |ms| && ms[j].kind == User
    ensures FocusedMessages(history + ms) == FocusedMessages(ms)
  {
    LastIndexAfterHistory(history, ms, User);
    var k := LastIndexOfKind(ms, User);
    assert (history + ms)[|history| + k..] == ms[k..];
  }
}
