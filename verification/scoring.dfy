/** Answer-order reversal and scoring. With IDIG = 2 a test's choices are numbered
    backwards (E=1, D=2, ...): the key is renumbered once (fixupAnswerKey,
    itemal.py:325-328) and every student answer as it is read (itemal.py:896-899), 0
    standing for an omitted answer. A student's score is the number of positions where
    the answer equals the key (itemal.py:891). */
module Scoring {
  import opened Wrappers

  /** One key entry renumbered from reverse to forward order. */
  function FlipKeyEntry(icho: int, k: int): int {
    icho + 1 - k
  }

  /** fixupAnswerKey (itemal.py:325-328): in reverse mode (IDIG = 2) every key entry k
      becomes ICHO + 1 - k; in forward mode the key is kept. */
  function FixupKey(idig: int, icho: int, key: seq<int>): (r: seq<int>)
    ensures |r| == |key|
  {
    if idig == 2 then seq(|key|, i requires 0 <= i < |key| => FlipKeyEntry(icho, key[i])) else key
  }

  /** One student answer renumbered (itemal.py:897-899): 0 (omitted) is kept. */
  function FlipAnswer(icho: int, a: int): int {
    if a != 0 then icho + 1 - a else a
  }

  /** The whole answer list renumbered, position by position. */
  function FlipAnswers(icho: int, answers: seq<int>): (r: seq<int>)
    ensures |r| == |answers|
  {
    seq(|answers|, i requires 0 <= i < |answers| => FlipAnswer(icho, answers[i]))
  }

  /** The loop of itemal.py:896-899, which renumbers the answers in place. */
  method ReverseAnswers(icho: int, answers: seq<int>) returns (r: seq<int>)
    ensures r == FlipAnswers(icho, answers)
  {
    r := answers;
    var i := 0;
    while i < |r|
      invariant 0 <= i <= |r| == |answers|
      invariant forall k :: 0 <= k < i ==> r[k] == FlipAnswer(icho, answers[k])
      invariant forall k :: i <= k < |r| ==> r[k] == answers[k]
    {
      if r[i] != 0 {
        r := r[i := icho + 1 - r[i]];
      }
      i := i + 1;
    }
  }

  /** Renumbering the key twice with the same ICHO gives the key back. */
  lemma FixupKeyInvolution(icho: int, key: seq<int>)
    ensures FixupKey(2, icho, FixupKey(2, icho, key)) == key
  {
  }

  /** Renumbering the answers twice with the same ICHO gives the answers back: a
      nonzero answer cannot become 0 except the out-of-range ICHO + 1, which the
      second pass then keeps. */
  lemma FlipAnswersInvolution(icho: int, answers: seq<int>)
    requires forall i :: 0 <= i < |answers| ==> answers[i] != icho + 1
    ensures FlipAnswers(icho, FlipAnswers(icho, answers)) == answers
  {
  }

  /** Without the exclusion above the round trip fails: with ICHO = 4 the invalid answer
      5 becomes 0, which stays 0. */
  lemma FlipAnswersNotInvolutive()
    ensures FlipAnswers(4, FlipAnswers(4, [5])) == [0]
  {
    assert FlipAnswers(4, [5]) == [0];
  }

  /** The valid choices 1..ICHO are permuted among themselves (reversed), 0 stays 0,
      and every other value except ICHO + 1 stays outside 0..ICHO. */
  lemma FlipAnswerRange(icho: int, a: int)
    ensures FlipAnswer(icho, a) == 0 <==> a == 0 || a == icho + 1
    ensures 1 <= a <= icho <==> 1 <= FlipAnswer(icho, a) <= icho
    ensures a != icho + 1 && !(0 <= a <= icho) ==> !(0 <= FlipAnswer(icho, a) <= icho)
  {
  }

  /** The number of positions, up to the shorter list (Python's zip), where the answer
      equals the key: the score of itemal.py:891 as a left fold. */
  function Matches(answers: seq<int>, key: seq<int>): (r: nat)
    ensures r <= |answers| && r <= |key|
  {
    if |answers| == 0 || |key| == 0 then 0
    else
      var n := if |answers| < |key| then |answers| else |key|;
      Matches(answers[..n - 1], key[..n - 1]) + (if answers[n - 1] == key[n - 1] then 1 else 0)
  }

  /** The positions the score counts. */
  ghost function MatchSet(answers: seq<int>, key: seq<int>): set<nat> {
    set i: nat | i < |answers| && i < |key| && answers[i] == key[i]
  }

  /** The score is the size of the set of matching positions. */
  lemma {:induction false} MatchesCountsPositions(answers: seq<int>, key: seq<int>)
    ensures Matches(answers, key) == |MatchSet(answers, key)|
    decreases |answers|
  {
    if |answers| == 0 || |key| == 0 {
      assert MatchSet(answers, key) == {};
    } else {
      var n := if |answers| < |key| then |answers| else |key|;
      var a', k' := answers[..n - 1], key[..n - 1];
      MatchesCountsPositions(a', k');
      if answers[n - 1] == key[n - 1] {
        assert MatchSet(answers, key) == MatchSet(a', k') + {n - 1};
      } else {
        assert MatchSet(answers, key) == MatchSet(a', k');
      }
    }
  }

  /** The score of itemal.py:891 in full: Python's reduce has no initial value, so
      an empty answer list (ITEMN = 0) raises TypeError, here None. */
  function ReduceScore(answers: seq<int>, key: seq<int>): (r: Option<nat>)
    ensures r.None? <==> |answers| == 0 || |key| == 0
    ensures r.Some? ==> r.value == |MatchSet(answers, key)| && r.value <= |answers|
  {
    MatchesCountsPositions(answers, key);
    if |answers| == 0 || |key| == 0 then None else Some(Matches(answers, key))
  }

  /** The answers as they are stored and tallied: renumbered in reverse mode. */
  function StoredAnswers(idig: int, icho: int, raw: seq<int>): (r: seq<int>)
    ensures |r| == |raw|
  {
    if idig == 2 then FlipAnswers(icho, raw) else raw
  }

  /** The score as itemal.py:891 computes it: from the answers as read, against the key
      that fixupAnswerKey has already renumbered. It takes the same parameters as
      `Score` so the two compare call for call; that IDIG and ICHO play no part in it
      is the discrepancy. */
  function ScoreAsWritten(idig: int, icho: int, raw: seq<int>, fixedKey: seq<int>): nat {
    Matches(raw, fixedKey)
  }

  /** The score the rest of the program assumes: from the stored answers, the same
      values the per-item tally compares with the key. */
  function Score(idig: int, icho: int, raw: seq<int>, fixedKey: seq<int>): nat {
    Matches(StoredAnswers(idig, icho, raw), fixedKey)
  }

  /** In reverse mode the two disagree: with ICHO = 4, key [1] (stored as [4]) and the
      answer 1 (stored as 4), the item is answered correctly but scores 0. */
  lemma ScoreAsWrittenMisses()
    ensures FixupKey(2, 4, [1]) == [4]
    ensures StoredAnswers(2, 4, [1]) == [4]
    ensures ScoreAsWritten(2, 4, [1], FixupKey(2, 4, [1])) == 0
    ensures Score(2, 4, [1], FixupKey(2, 4, [1])) == 1
  {
    assert FixupKey(2, 4, [1]) == [4];
    assert FlipAnswers(4, [1]) == [4];
  }

  /** In forward mode the two agree. */
  lemma ScoreForward(icho: int, raw: seq<int>, key: seq<int>)
    ensures ScoreAsWritten(1, icho, raw, key) == Score(1, icho, raw, key)
  {
  }

  lemma {:induction false} MatchesFlipped(icho: int, raw: seq<int>, key: seq<int>)
    requires |raw| == |key| && forall i :: 0 <= i < |key| ==> key[i] != 0 && key[i] != icho + 1
    ensures Matches(FlipAnswers(icho, raw), FixupKey(2, icho, key)) == Matches(raw, key)
    decreases |raw|
  {
    if |raw| > 0 {
      var n := |raw|;
      assert FlipAnswers(icho, raw)[..n - 1] == FlipAnswers(icho, raw[..n - 1]);
      assert FixupKey(2, icho, key)[..n - 1] == FixupKey(2, icho, key[..n - 1]);
      MatchesFlipped(icho, raw[..n - 1], key[..n - 1]);
      assert FlipAnswers(icho, raw)[n - 1] == FlipAnswer(icho, raw[n - 1]);
      assert FixupKey(2, icho, key)[n - 1] == icho + 1 - key[n - 1];
      assert key[n - 1] != 0 && key[n - 1] != icho + 1;
      var fa, fk := FlipAnswers(icho, raw), FixupKey(2, icho, key);
      assert Matches(fa, fk) == Matches(fa[..n - 1], fk[..n - 1]) + (if fa[n - 1] == fk[n - 1] then 1 else 0);
      assert Matches(raw, key) == Matches(raw[..n - 1], key[..n - 1]) + (if raw[n - 1] == key[n - 1] then 1 else 0);
      assert Matches(fa[..n - 1], fk[..n - 1]) == Matches(raw[..n - 1], key[..n - 1]);
    }
  }

  /** The corrected score does not depend on the numbering: in reverse mode it counts
      the answers that equal the key as both were written in the input, provided no
      key entry is 0 or ICHO + 1 (the two values the renumbering swaps with "omitted"). */
  lemma ScoreIndependentOfOrder(icho: int, raw: seq<int>, key: seq<int>)
    requires |raw| == |key| && forall i :: 0 <= i < |key| ==> key[i] != 0 && key[i] != icho + 1
    ensures Score(2, icho, raw, FixupKey(2, icho, key)) == Matches(raw, key)
  {
    MatchesFlipped(icho, raw, key);
  }
}
