/** Chat messages as the conversation controller hands them to every view. */
module Messages {

  /** The `type` field of a message: the source only ever creates `'user'` and `'ai'`. */
  datatype Kind = User | Ai

  /** A message; the timestamp is left out, nothing in the modelled views reads it. */
  datatype Message = Message(id: string, kind: Kind, content: string, isStreaming: bool)

  /** `findLastIndex(m => m.type === kind)`: the last position holding `kind`, or -1. */
  function LastIndexOfKind(ms: seq<Message>, kind: Kind): (r: int)
    ensures -1 <= r < |ms|
    ensures r >= 0 ==> ms[r].kind == kind
    ensures forall j :: r < j < |ms| ==> ms[j].kind != kind
    decreases |ms|
  {
    if |ms| == 0 then -1
    else if ms[|ms| - 1].kind == kind then |ms| - 1
    else LastIndexOfKind(ms[..|ms| - 1], kind)
  }

  /** The index found depends only on the kinds of the messages and their order. */
  lemma {:induction false} LastIndexDependsOnKindsOnly(ms1: seq<Message>, ms2: seq<Message>, kind: Kind)
    requires |ms1| == |ms2|
    requires forall i :: 0 <= i < |ms1| ==> ms1[i].kind == ms2[i].kind
    ensures LastIndexOfKind(ms1, kind) == LastIndexOfKind(ms2, kind)
    decreases |ms1|
  {
    if |ms1| > 0 && ms1[|ms1| - 1].kind != kind {
      LastIndexDependsOnKindsOnly(ms1[..|ms1| - 1], ms2[..|ms2| - 1], kind);
    }
  }

  /** The index is -1 exactly when no message has that kind. */
  lemma LastIndexAbsent(ms: seq<Message>, kind: Kind)
    ensures LastIndexOfKind(ms, kind) == -1 <==> forall j :: 0 <= j < |ms| ==> ms[j].kind != kind
  {
  }

  /** Earlier messages do not move the last occurrence of a kind that the later ones contain. */
  lemma LastIndexAfterHistory(history: seq<Message>, ms: seq<Message>, kind: Kind)
    requires exists j :: 0 <= j < |ms| && ms[j].kind == kind
    ensures LastIndexOfKind(history + ms, kind) == |history| + LastIndexOfKind(ms, kind)
  {
    var k := LastIndexOfKind(ms, kind);
    assert (history + ms)[|history| + k] == ms[k];
    forall j | |history| + k < j < |history + ms|
      ensures (history + ms)[j].kind != kind
    {
      assert (history + ms)[j] == ms[j - |history|];
    }
  }
}
