/** The micro-text strip: the latest ai message, shown in collapsed and whiteboard modes. */
module MicroText {
  import opened Wrappers
  import opened Messages

  /** `messages.filter(m => m.type === 'ai')` */
  function AiMessages(ms: seq<Message>): (r: seq<Message>)
    ensures |r| <= |ms|
    ensures forall k :: 0 <= k < |r| ==> r[k].kind == Ai
    ensures forall m :: m in r <==> m in ms && m.kind == Ai
    decreases |ms|
  {
    if |ms| == 0 then []
    else AiMessages(ms[..|ms| - 1]) + (if ms[|ms| - 1].kind == Ai then [ms[|ms| - 1]] else [])
  }

  /** The filter keeps the order of its input: filtering a concatenation concatenates the filtered parts. */
  lemma {:induction false} AiMessagesConcat(a: seq<Message>, b: seq<Message>)
    ensures AiMessages(a + b) == AiMessages(a) + AiMessages(b)
    decreases |b|
  {
    if |b| == 0 {
      assert a + b == a;
    } else {
      var front := b[..|b| - 1];
      assert (a + b)[..|a + b| - 1] == a + front;
      assert (a + b)[|a + b| - 1] == b[|b| - 1];
      AiMessagesConcat(a, front);
    }
  }

  /** `.slice(-1)[0]`: the last element of the filtered list, or undefined. */
  function LatestAi(ms: seq<Message>): (r: Option<Message>)
    ensures r.Some? ==> r.value in ms && r.value.kind == Ai
    ensures r.None? <==> forall m :: m in ms ==> m.kind != Ai
  {
    var ais := AiMessages(ms);
    if |ais| == 0 then None else Some(ais[|ais| - 1])
  }

  /** The filter-then-last selection is the message at the last ai position. */
  lemma {:induction false} LatestAiIsAtLastAiIndex(ms: seq<Message>)
    ensures var k := LastIndexOfKind(ms, Ai);
      LatestAi(ms) == if k >= 0 then Some(ms[k]) else None
    decreases |ms|
  {
    if |ms| > 0 && ms[|ms| - 1].kind != Ai {
      var front := ms[..|ms| - 1];
      LatestAiIsAtLastAiIndex(front);
      assert AiMessages(ms) == AiMessages(front);
    }
  }

  /** The selected message is an ai message, and no later message is one. */
  lemma LatestAiIsLastAi(ms: seq<Message>)
    ensures LatestAi(ms).Some? ==> LatestAi(ms).value.kind == Ai
    ensures LatestAi(ms).Some? ==>
      exists k :: 0 <= k < |ms| && ms[k] == LatestAi(ms).value && (forall j :: k < j < |ms| ==> ms[j].kind != Ai)
    ensures LatestAi(ms).None? <==> forall j :: 0 <= j < |ms| ==> ms[j].kind != Ai
  {
    LatestAiIsAtLastAiIndex(ms);
  }

  /** Which message is chosen depends only on the messages' kinds and order. */
  lemma SelectionDependsOnKindsOnly(ms1: seq<Message>, ms2: seq<Message>)
    requires |ms1| == |ms2|
    requires forall i :: 0 <= i < |ms1| ==> ms1[i].kind == ms2[i].kind
    ensures LatestAi(ms1).None? <==> LatestAi(ms2).None?
    ensures LatestAi(ms1).Some? ==> exists k :: 0 <= k < |ms1| && LatestAi(ms1) == Some(ms1[k]) && LatestAi(ms2) == Some(ms2[k])
  {
    LatestAiIsAtLastAiIndex(ms1);
    LatestAiIsAtLastAiIndex(ms2);
    LastIndexDependsOnKindsOnly(ms1, ms2, Ai);
  }

  /** What the component renders: nothing without an ai message, and nothing while hidden. */
  function Rendered(ms: seq<Message>, isVisible: bool): (r: Option<Message>)
    ensures r.Some? ==> isVisible && r == LatestAi(ms)
    ensures isVisible ==> r == LatestAi(ms)
  {
    if LatestAi(ms).None? then None
    else if isVisible then LatestAi(ms)
    else None
  }
}
