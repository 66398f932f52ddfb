/**
 * Grouping a flat message list into (user, ai) pairs, as both message threads
 * do before rendering: a left-to-right scan that pairs a user message with the
 * ai message right after it and then skips that ai message.
 */
module Pairing {
  import opened Messages

  /** One rendered conversational turn; `pairIndex` is its position in the pair list. */
  datatype MessagePair = MessagePair(user: Message, ai: Message, pairIndex: nat)

  /** `messages[i].type === 'user' && messages[i + 1]?.type === 'ai'` (out of range reads as undefined). */
  predicate StartsPair(ms: seq<Message>, i: nat)
  {
    i + 1 < |ms| && ms[i].kind == User && ms[i + 1].kind == Ai
  }

  /** The pairs the scan emits from position `i` on, numbering them from `next`. */
  function PairsFrom(ms: seq<Message>, i: nat, next: nat): seq<MessagePair>
    decreases |ms| - i
  {
    if i >= |ms| then []
    else if StartsPair(ms, i) then [MessagePair(ms[i], ms[i + 1], next)] + PairsFrom(ms, i + 2, next + 1)
    else PairsFrom(ms, i + 1, next)
  }

  /** Each emitted pair consumes two messages. */
  lemma {:induction false} PairsFromBound(ms: seq<Message>, i: nat, next: nat)
    requires i <= |ms|
    ensures 2 * |PairsFrom(ms, i, next)| + i <= |ms|
    decreases |ms| - i
  {
    if i < |ms| {
      if StartsPair(ms, i) {
        PairsFromBound(ms, i + 2, next + 1);
      } else {
        PairsFromBound(ms, i + 1, next);
      }
    }
  }

  /** The pair list of a whole message list. */
  function Pairs(ms: seq<Message>): (r: seq<MessagePair>)
    ensures 2 * |r| <= |ms|
  {
    PairsFromBound(ms, 0, 0);
    PairsFrom(ms, 0, 0)
  }

  /** The positions, from `i` on, at which the scan emits a pair. */
  ghost function StartsFrom(ms: seq<Message>, i: nat): seq<nat>
    decreases |ms| - i
  {
    if i >= |ms| then []
    else if StartsPair(ms, i) then [i] + StartsFrom(ms, i + 2)
    else StartsFrom(ms, i + 1)
  }

  /** The positions of the user messages that begin the emitted pairs. */
  ghost function PairStarts(ms: seq<Message>): seq<nat>
  {
    StartsFrom(ms, 0)
  }

  /** The render loop itself (a `for` loop whose body bumps `i` once more after a pair). */
  method GroupIntoPairs(ms: seq<Message>) returns (pairs: seq<MessagePair>)
    ensures pairs == Pairs(ms)
  {
    pairs := [];
    var i := 0;
    while i < |ms|
      invariant i <= |ms|
      invariant pairs + PairsFrom(ms, i, |pairs|) == Pairs(ms)
      decreases |ms| - i
    {
      if ms[i].kind == User && i + 1 < |ms| && ms[i + 1].kind == Ai {
        pairs := pairs + [MessagePair(ms[i], ms[i + 1], |pairs|)];
        i := i + 1;
      }
      i := i + 1;
    }
  }

  lemma {:induction false} PairsFromAtStarts(ms: seq<Message>, i: nat, next: nat)
    ensures |PairsFrom(ms, i, next)| == |StartsFrom(ms, i)|
    ensures forall k :: 0 <= k < |StartsFrom(ms, i)| ==>
      StartsFrom(ms, i)[k] + 1 < |ms| &&
      PairsFrom(ms, i, next)[k] ==
        MessagePair(ms[StartsFrom(ms, i)[k]], ms[StartsFrom(ms, i)[k] + 1], next + k)
    decreases |ms| - i
  {
    if i >= |ms| {
    } else if StartsPair(ms, i) {
      PairsFromAtStarts(ms, i + 2, next + 1);
    } else {
      PairsFromAtStarts(ms, i + 1, next);
    }
  }

  lemma {:induction false} StartsFromShape(ms: seq<Message>, i: nat)
    ensures forall k :: 0 <= k < |StartsFrom(ms, i)| ==>
      i <= StartsFrom(ms, i)[k] && StartsPair(ms, StartsFrom(ms, i)[k])
    ensures forall k :: 0 <= k < |StartsFrom(ms, i)| - 1 ==>
      StartsFrom(ms, i)[k] + 2 <= StartsFrom(ms, i)[k + 1]
    ensures forall j :: i <= j && StartsPair(ms, j) ==> j in StartsFrom(ms, i)
    decreases |ms| - i
  {
    if i >= |ms| {
    } else if StartsPair(ms, i) {
      StartsFromShape(ms, i + 2);
      var rest := StartsFrom(ms, i + 2);
      assert StartsFrom(ms, i) == [i] + rest;
      forall j | i <= j && StartsPair(ms, j)
        ensures j in StartsFrom(ms, i)
      {
        if j == i {
        } else {
          assert j != i + 1 by { assert ms[i + 1].kind == Ai; }
          assert j in rest;
        }
      }
    } else {
      StartsFromShape(ms, i + 1);
    }
  }

  /** Every emitted pair is a user message immediately followed, in the input, by an ai message. */
  lemma PairsAreAdjacentUserAi(ms: seq<Message>)
    ensures |Pairs(ms)| == |PairStarts(ms)|
    ensures forall k :: 0 <= k < |Pairs(ms)| ==>
      var j := PairStarts(ms)[k];
      j + 1 < |ms| && ms[j].kind == User && ms[j + 1].kind == Ai &&
      Pairs(ms)[k].user == ms[j] && Pairs(ms)[k].ai == ms[j + 1]
  {
    PairsFromAtStarts(ms, 0, 0);
    StartsFromShape(ms, 0);
  }

  /** The `pairIndex` of every pair is its position in the output. */
  lemma PairIndexIsPosition(ms: seq<Message>)
    ensures forall k :: 0 <= k < |Pairs(ms)| ==> Pairs(ms)[k].pairIndex == k
  {
    PairsFromAtStarts(ms, 0, 0);
  }

  /** Pairs occupy disjoint, increasing positions: no message belongs to two pairs. */
  lemma {:induction false} NoMessageInTwoPairs(ms: seq<Message>)
    ensures forall k1, k2 :: 0 <= k1 < k2 < |PairStarts(ms)| ==>
      PairStarts(ms)[k1] + 1 < PairStarts(ms)[k2]
  {
    StartsFromShape(ms, 0);
    var s := PairStarts(ms);
    forall k1, k2 | 0 <= k1 < k2 < |s|
      ensures s[k1] + 1 < s[k2]
    {
      var m := k1;
      while m < k2
        invariant k1 <= m <= k2
        invariant s[k1] + 2 * (m - k1) <= s[m]
      {
        m := m + 1;
      }
    }
  }

  /** Every user message immediately followed by an ai message begins a pair. */
  lemma EveryAdjacentUserAiIsPaired(ms: seq<Message>)
    ensures forall j :: StartsPair(ms, j) ==> j in PairStarts(ms)
  {
    StartsFromShape(ms, 0);
  }

  /** When the list ends in a user message followed by an ai message, that is the last pair. */
  lemma TailPairIsLastPair(ms: seq<Message>)
    requires |ms| >= 2 && StartsPair(ms, |ms| - 2)
    ensures |Pairs(ms)| > 0
    ensures Pairs(ms)[|Pairs(ms)| - 1] == MessagePair(ms[|ms| - 2], ms[|ms| - 1], |Pairs(ms)| - 1)
  {
    PairsFromAtStarts(ms, 0, 0);
    StartsFromShape(ms, 0);
    var s := PairStarts(ms);
    assert |ms| - 2 in s;
    var m :| 0 <= m < |s| && s[m] == |ms| - 2;
    NoMessageInTwoPairs(ms);
    assert StartsPair(ms, s[|s| - 1]);
    assert m == |s| - 1;
  }

  /** A thread whose messages alternate user, ai, user, ... from the start. */
  ghost predicate Alternating(ms: seq<Message>)
  {
    forall k :: 0 <= k < |ms| ==> ms[k].kind == (if k % 2 == 0 then User else Ai)
  }

  /** The last pair index used by the focus logic: `Math.floor(messages.length / 2) - 1`. */
  function LastPairIndexByCount(messageCount: nat): int
  {
    messageCount / 2 - 1
  }

  /** The last pair index used when rendering: `messagePairs.length - 1`. */
  function LastRenderedPairIndex(ms: seq<Message>): int
  {
    |Pairs(ms)| - 1
  }

  /** The rendered last index never lies beyond the one the count gives: at most one pair per two messages. */
  lemma RenderedIndexWithinCount(ms: seq<Message>)
    ensures -1 <= LastRenderedPairIndex(ms) <= LastPairIndexByCount(|ms|)
  {
  }

  lemma {:induction false} AlternatingPairCount(ms: seq<Message>, i: nat, next: nat)
    requires Alternating(ms) && i % 2 == 0 && i <= |ms|
    ensures |PairsFrom(ms, i, next)| == (|ms| - i) / 2
    decreases |ms| - i
  {
    if i + 1 < |ms| {
      assert StartsPair(ms, i);
      AlternatingPairCount(ms, i + 2, next + 1);
    } else if i < |ms| {
      assert PairsFrom(ms, i, next) == PairsFrom(ms, i + 1, next);
    }
  }

  /** On a strictly alternating thread the two definitions of the last pair index agree. */
  lemma LastPairIndicesAgreeWhenAlternating(ms: seq<Message>)
    requires Alternating(ms)
    ensures LastPairIndexByCount(|ms|) == LastRenderedPairIndex(ms)
  {
    AlternatingPairCount(ms, 0, 0);
  }

  /** A thread where a second message was sent before the first reply arrived. */
  function DoubleSendThread(): seq<Message>
  {
    [ Message("1", User, "q1", false), Message("2", Ai, "r1", false),
      Message("3", User, "q2", false), Message("4", User, "q3", false),
      Message("5", Ai, "r2", true), Message("6", Ai, "r3", true) ]
  }

  /** There the two definitions disagree: the count says pair 2, only pairs 0 and 1 exist. */
  lemma LastPairIndicesDisagreeAfterDoubleSend()
    ensures LastPairIndexByCount(|DoubleSendThread()|) == 2
    ensures LastRenderedPairIndex(DoubleSendThread()) == 1
  {
    var ms := DoubleSendThread();
    assert StartsPair(ms, 0) && !StartsPair(ms, 2) && StartsPair(ms, 3) && !StartsPair(ms, 5);
    assert PairsFrom(ms, 5, 2) == [];
    assert PairsFrom(ms, 3, 1) == [MessagePair(ms[3], ms[4], 1)];
    assert PairsFrom(ms, 2, 1) == PairsFrom(ms, 3, 1);
  }
}
