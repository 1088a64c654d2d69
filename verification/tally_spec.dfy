/** What the per-section tally (itemal.py:875-924) computes, as sums over the records
    read so far. Each counter of StatData that the tally fills is the sum, over the
    records, of what one record contributes at a given key:

      ICOUNT[i]      students whose answer to item i equals the key
      ITC[i]/ITIC[i] their score sum / the score sum of the others
      JTOT[i, j]     students who chose j - 1 on item i, for 0 <= j - 1 <= ICHO
      KSUM[i, j]     their score sum
      ITAB[i, j, g]  the same count restricted to the g-th group
      KOUNT[g]       students in the g-th group
      ISUM, ISUMSQ   the sum of the scores and of their squares

    Answers outside [0, ICHO] produce a warning instead of a JTOT/KSUM/ITAB entry. */
module TallySpec {
  import opened Students
  import opened Scoring

  /** One student's record as the tally sees it: the 1-based position of its group,
      the group's id, the stored (renumbered) answers and the score. */
  datatype Rec = Rec(pos: nat, id: GroupId, answers: seq<int>, score: int)

  /** The counters the tally fills. */
  datatype Counter =
    | Correct        // ICOUNT
    | CorrectScore   // ITC
    | WrongScore     // ITIC
    | Chosen         // JTOT
    | ChosenScore    // KSUM
    | ChosenInGroup  // ITAB
    | GroupSize      // KOUNT
    | ScoreSum       // ISUM
    | ScoreSquares   // ISUMSQ

  /** The warnings of itemal.py:911-916 (the question is 0-based there). */
  datatype Warning =
    | Negative(question: nat, group: GroupId)
    | TooLarge(question: nat, group: GroupId, choices: int)

  /** The record answers item x (1-based) as the key does. */
  predicate Hit(r: Rec, key: seq<int>, x: nat) {
    1 <= x <= |r.answers| && x <= |key| && r.answers[x - 1] == key[x - 1]
  }

  /** The record answers item x, differently from the key. */
  predicate Miss(r: Rec, key: seq<int>, x: nat) {
    1 <= x <= |r.answers| && x <= |key| && r.answers[x - 1] != key[x - 1]
  }

  /** The record chose j - 1 on item x, and that choice is within [0, ICHO]. */
  predicate Picks(r: Rec, x: nat, j: nat, icho: int) {
    1 <= x <= |r.answers| && 0 <= r.answers[x - 1] <= icho && j == r.answers[x - 1] + 1
  }

  /** What one record adds to counter c at key k. */
  function Contribution(c: Counter, r: Rec, k: seq<nat>, key: seq<int>, icho: int): int {
    match c
    case Correct => if |k| == 1 && Hit(r, key, k[0]) then 1 else 0
    case CorrectScore => if |k| == 1 && Hit(r, key, k[0]) then r.score else 0
    case WrongScore => if |k| == 1 && Miss(r, key, k[0]) then r.score else 0
    case Chosen => if |k| == 2 && Picks(r, k[0], k[1], icho) then 1 else 0
    case ChosenScore => if |k| == 2 && Picks(r, k[0], k[1], icho) then r.score else 0
    case ChosenInGroup => if |k| == 3 && Picks(r, k[0], k[1], icho) && r.pos == k[2] then 1 else 0
    case GroupSize => if |k| == 1 && r.pos == k[0] then 1 else 0
    case ScoreSum => r.score
    case ScoreSquares => r.score * r.score
  }

  /** The value counter c holds at key k once `recs` have been tallied. */
  function Expected(c: Counter, recs: seq<Rec>, k: seq<nat>, key: seq<int>, icho: int): int {
    if recs == [] then 0
    else Expected(c, recs[..|recs| - 1], k, key, icho) + Contribution(c, recs[|recs| - 1], k, key, icho)
  }

  /** The counters updated item by item (all but KOUNT, ISUM and ISUMSQ). */
  predicate PerItem(c: Counter) {
    !(c.GroupSize? || c.ScoreSum? || c.ScoreSquares?)
  }

  /** The record with only its first n answers: a record part-way through the tally. */
  function Truncate(r: Rec, n: nat): Rec
    requires n <= |r.answers|
  {
    r.(answers := r.answers[..n])
  }

  /** The warning, if any, for the record's answer to item i (0-based). */
  function ItemWarning(r: Rec, i: nat, icho: int): seq<Warning>
    requires i < |r.answers|
  {
    if r.answers[i] < 0 then [Negative(i, r.id)]
    else if r.answers[i] > icho then [TooLarge(i, r.id, icho)]
    else []
  }

  /** The warnings of one record, item by item. */
  function RecordWarnings(r: Rec, icho: int): seq<Warning>
    decreases |r.answers|
  {
    if r.answers == [] then []
    else
      var n := |r.answers|;
      RecordWarnings(Truncate(r, n - 1), icho) + ItemWarning(r, n - 1, icho)
  }

  /** The warnings of the records, in order. */
  function Warnings(recs: seq<Rec>, icho: int): seq<Warning> {
    if recs == [] then []
    else Warnings(recs[..|recs| - 1], icho) + RecordWarnings(recs[|recs| - 1], icho)
  }

  lemma ExpectedAppend(c: Counter, recs: seq<Rec>, r: Rec, k: seq<nat>, key: seq<int>, icho: int)
    ensures Expected(c, recs + [r], k, key, icho) == Expected(c, recs, k, key, icho) + Contribution(c, r, k, key, icho)
  {
    assert (recs + [r])[..|recs|] == recs;
  }

  lemma WarningsAppend(recs: seq<Rec>, r: Rec, icho: int)
    ensures Warnings(recs + [r], icho) == Warnings(recs, icho) + RecordWarnings(r, icho)
  {
    assert (recs + [r])[..|recs|] == recs;
  }

  /** A record with no answers yet contributes nothing to the per-item counters. */
  lemma EmptyRecordContribution(c: Counter, r: Rec, k: seq<nat>, key: seq<int>, icho: int)
    requires PerItem(c)
    ensures Contribution(c, Truncate(r, 0), k, key, icho) == 0
  {
  }

  /** What taking item i into account adds to counter c at key k. */
  function ItemDelta(c: Counter, r: Rec, i: nat, k: seq<nat>, key: seq<int>, icho: int): int
    requires i < |r.answers|
  {
    if PerItem(c) && |k| >= 1 && k[0] == i + 1 then Contribution(c, r, k, key, icho) else 0
  }

  lemma TruncateStep(c: Counter, r: Rec, i: nat, k: seq<nat>, key: seq<int>, icho: int)
    requires i < |r.answers|
    ensures Contribution(c, Truncate(r, i + 1), k, key, icho)
         == Contribution(c, Truncate(r, i), k, key, icho) + ItemDelta(c, r, i, k, key, icho)
  {
    assert Truncate(r, i + 1).answers[..i] == Truncate(r, i).answers;
  }

  /** Taking item i of the last record into account changes each counter by ItemDelta. */
  lemma ItemStep(c: Counter, done: seq<Rec>, r: Rec, i: nat, k: seq<nat>, key: seq<int>, icho: int)
    requires i < |r.answers|
    ensures Expected(c, done + [Truncate(r, i + 1)], k, key, icho)
         == Expected(c, done + [Truncate(r, i)], k, key, icho) + ItemDelta(c, r, i, k, key, icho)
  {
    ExpectedAppend(c, done, Truncate(r, i + 1), k, key, icho);
    ExpectedAppend(c, done, Truncate(r, i), k, key, icho);
    TruncateStep(c, r, i, k, key, icho);
  }

  lemma ItemStepWarnings(done: seq<Rec>, r: Rec, i: nat, icho: int)
    requires i < |r.answers|
    ensures Warnings(done + [Truncate(r, i + 1)], icho) == Warnings(done + [Truncate(r, i)], icho) + ItemWarning(r, i, icho)
  {
    WarningsAppend(done, Truncate(r, i + 1), icho);
    WarningsAppend(done, Truncate(r, i), icho);
    RecordWarningsStep(r, i, icho);
  }

  /** The record's warnings grow by item i's warning when item i is taken in. */
  lemma RecordWarningsStep(r: Rec, i: nat, icho: int)
    requires i < |r.answers|
    ensures RecordWarnings(Truncate(r, i + 1), icho) == RecordWarnings(Truncate(r, i), icho) + ItemWarning(r, i, icho)
  {
    var t := Truncate(r, i + 1);
    assert Truncate(t, i) == Truncate(r, i);
    assert ItemWarning(t, i, icho) == ItemWarning(r, i, icho);
  }

  /** The key a per-item counter is bumped at for item i, by the rank of the counter. */
  function StepKey(r: Rec, i: nat, rank: nat): seq<nat>
    requires i < |r.answers| && 0 <= r.answers[i]
  {
    if rank == 1 then [i + 1]
    else if rank == 2 then [i + 1, r.answers[i] + 1]
    else [i + 1, r.answers[i] + 1, r.pos]
  }

  /** ICOUNT and ITC change only at [i + 1], and only when the answer is the key's. */
  lemma HitDelta(c: Counter, r: Rec, i: nat, k: seq<nat>, key: seq<int>, icho: int)
    requires i < |r.answers| && i < |key| && (c.Correct? || c.CorrectScore?) && |k| == 1
    ensures ItemDelta(c, r, i, k, key, icho)
         == if k == [i + 1] && r.answers[i] == key[i] then (if c.Correct? then 1 else r.score) else 0
  {
    assert k == [i + 1] <==> k[0] == i + 1;
  }

  /** ITIC changes only at [i + 1], and only when the answer is not the key's. */
  lemma MissDelta(r: Rec, i: nat, k: seq<nat>, key: seq<int>, icho: int)
    requires i < |r.answers| && i < |key| && |k| == 1
    ensures ItemDelta(WrongScore, r, i, k, key, icho)
         == if k == [i + 1] && r.answers[i] != key[i] then r.score else 0
  {
    assert k == [i + 1] <==> k[0] == i + 1;
  }

  /** JTOT, KSUM and ITAB change only at the chosen answer's key, and only when the
      answer lies in [0, ICHO]. */
  lemma ChoiceDelta(c: Counter, r: Rec, i: nat, k: seq<nat>, key: seq<int>, icho: int)
    requires i < |r.answers| && (c.Chosen? || c.ChosenScore? || c.ChosenInGroup?)
    requires |k| == (if c.ChosenInGroup? then 3 else 2)
    ensures !(0 <= r.answers[i] <= icho) ==> ItemDelta(c, r, i, k, key, icho) == 0
    ensures 0 <= r.answers[i] <= icho ==>
              ItemDelta(c, r, i, k, key, icho)
              == if k == StepKey(r, i, |k|) then (if c.ChosenScore? then r.score else 1) else 0
  {
    if 0 <= r.answers[i] <= icho {
      if |k| == 2 {
        assert k == StepKey(r, i, 2) <==> k[0] == i + 1 && k[1] == r.answers[i] + 1;
      } else {
        assert k == StepKey(r, i, 3) <==> k[0] == i + 1 && k[1] == r.answers[i] + 1 && k[2] == r.pos;
      }
    }
  }

  /** KOUNT, ISUM and ISUMSQ do not change while the items of a record are tallied. */
  lemma NotPerItemDelta(c: Counter, r: Rec, i: nat, k: seq<nat>, key: seq<int>, icho: int)
    requires i < |r.answers| && !PerItem(c)
    ensures ItemDelta(c, r, i, k, key, icho) == 0
  {
  }

  // ---------------------------------------------------------------------------------
  // Properties of the tallied counters

  /** The positions of the records that answer item x as the key does. */
  ghost function HitSet(recs: seq<Rec>, key: seq<int>, x: nat): set<nat> {
    set s: nat | s < |recs| && Hit(recs[s], key, x)
  }

  /** ICOUNT[x] is the number of students whose answer to item x equals the key. */
  lemma {:induction false} CorrectCountsStudents(recs: seq<Rec>, key: seq<int>, icho: int, x: nat)
    ensures Expected(Correct, recs, [x], key, icho) == |HitSet(recs, key, x)|
    ensures Expected(Correct, recs, [x], key, icho) <= |recs|
    decreases |recs|
  {
    if recs == [] {
      assert HitSet(recs, key, x) == {};
    } else {
      var n := |recs|;
      CorrectCountsStudents(recs[..n - 1], key, icho, x);
      if Hit(recs[n - 1], key, x) {
        assert HitSet(recs, key, x) == HitSet(recs[..n - 1], key, x) + {n - 1};
      } else {
        assert HitSet(recs, key, x) == HitSet(recs[..n - 1], key, x);
      }
    }
  }

  /** ITC[x] + ITIC[x] == ISUM for every item x of the test: every student's score goes
      to exactly one of the two. */
  lemma {:induction false} ScoreSplit(recs: seq<Rec>, key: seq<int>, icho: int, x: nat)
    requires 1 <= x <= |key|
    requires forall s :: 0 <= s < |recs| ==> |recs[s].answers| == |key|
    ensures Expected(CorrectScore, recs, [x], key, icho) + Expected(WrongScore, recs, [x], key, icho)
         == Expected(ScoreSum, recs, [], key, icho)
    decreases |recs|
  {
    if recs != [] {
      ScoreSplit(recs[..|recs| - 1], key, icho, x);
    }
  }

  /** Only answers in [0, ICHO] are counted: JTOT, KSUM and ITAB are 0 for any other
      choice column j. */
  lemma {:induction false} OutOfRangeNotCounted(recs: seq<Rec>, key: seq<int>, icho: int, x: nat, j: nat, g: nat)
    requires !(1 <= j <= icho + 1)
    ensures Expected(Chosen, recs, [x, j], key, icho) == 0
    ensures Expected(ChosenScore, recs, [x, j], key, icho) == 0
    ensures Expected(ChosenInGroup, recs, [x, j, g], key, icho) == 0
    decreases |recs|
  {
    if recs != [] {
      OutOfRangeNotCounted(recs[..|recs| - 1], key, icho, x, j, g);
    }
  }

  /** The sum of counter c over a list of keys. */
  function SumOver(c: Counter, recs: seq<Rec>, keys: seq<seq<nat>>, key: seq<int>, icho: int): int {
    if keys == [] then 0
    else SumOver(c, recs, keys[..|keys| - 1], key, icho) + Expected(c, recs, keys[|keys| - 1], key, icho)
  }

  /** What one record adds to counter c over a list of keys. */
  function ContributionOver(c: Counter, r: Rec, keys: seq<seq<nat>>, key: seq<int>, icho: int): int {
    if keys == [] then 0
    else ContributionOver(c, r, keys[..|keys| - 1], key, icho) + Contribution(c, r, keys[|keys| - 1], key, icho)
  }

  lemma {:induction false} SumOverAppend(c: Counter, recs: seq<Rec>, r: Rec, keys: seq<seq<nat>>, key: seq<int>, icho: int)
    ensures SumOver(c, recs + [r], keys, key, icho)
         == SumOver(c, recs, keys, key, icho) + ContributionOver(c, r, keys, key, icho)
    decreases |keys|
  {
    if keys != [] {
      SumOverAppend(c, recs, r, keys[..|keys| - 1], key, icho);
      ExpectedAppend(c, recs, r, keys[|keys| - 1], key, icho);
    }
  }

  /** The keys [x, j, 1], ..., [x, j, groups]. */
  function GroupKeys(x: nat, j: nat, groups: nat): (r: seq<seq<nat>>)
    ensures |r| == groups
  {
    seq(groups, g requires 0 <= g < groups => [x, j, g + 1])
  }

  /** The keys [1], ..., [n]. */
  function IndexKeys(n: nat): (r: seq<seq<nat>>)
    ensures |r| == n
  {
    seq(n, g requires 0 <= g < n => [g + 1])
  }

  lemma {:induction false} GroupKeysOne(r: Rec, x: nat, j: nat, groups: nat, key: seq<int>, icho: int)
    ensures ContributionOver(ChosenInGroup, r, GroupKeys(x, j, groups), key, icho)
         == if 1 <= r.pos <= groups then Contribution(Chosen, r, [x, j], key, icho) else 0
    decreases groups
  {
    if groups > 0 {
      assert GroupKeys(x, j, groups)[..groups - 1] == GroupKeys(x, j, groups - 1);
      GroupKeysOne(r, x, j, groups - 1, key, icho);
    }
  }

  /** JTOT[x, j] is the sum over the groups g of ITAB[x, j, g]. */
  lemma {:induction false} ChoiceTotals(recs: seq<Rec>, key: seq<int>, icho: int, x: nat, j: nat, groups: nat)
    requires forall s :: 0 <= s < |recs| ==> 1 <= recs[s].pos <= groups
    ensures SumOver(ChosenInGroup, recs, GroupKeys(x, j, groups), key, icho) == Expected(Chosen, recs, [x, j], key, icho)
    decreases |recs|
  {
    if recs == [] {
      SumOverZero(ChosenInGroup, GroupKeys(x, j, groups), key, icho);
    } else {
      var n := |recs|;
      assert recs == recs[..n - 1] + [recs[n - 1]];
      ChoiceTotals(recs[..n - 1], key, icho, x, j, groups);
      SumOverAppend(ChosenInGroup, recs[..n - 1], recs[n - 1], GroupKeys(x, j, groups), key, icho);
      GroupKeysOne(recs[n - 1], x, j, groups, key, icho);
    }
  }

  lemma {:induction false} SumOverZero(c: Counter, keys: seq<seq<nat>>, key: seq<int>, icho: int)
    ensures SumOver(c, [], keys, key, icho) == 0
    decreases |keys|
  {
    if keys != [] {
      SumOverZero(c, keys[..|keys| - 1], key, icho);
    }
  }

  lemma {:induction false} GroupSizeOne(r: Rec, groups: nat, key: seq<int>, icho: int)
    ensures ContributionOver(GroupSize, r, IndexKeys(groups), key, icho) == if 1 <= r.pos <= groups then 1 else 0
    decreases groups
  {
    if groups > 0 {
      assert IndexKeys(groups)[..groups - 1] == IndexKeys(groups - 1);
      GroupSizeOne(r, groups - 1, key, icho);
    }
  }

  /** The KOUNT entries of the groups add up to the number of students. */
  lemma {:induction false} GroupSizesAddUp(recs: seq<Rec>, key: seq<int>, icho: int, groups: nat)
    requires forall s :: 0 <= s < |recs| ==> 1 <= recs[s].pos <= groups
    ensures SumOver(GroupSize, recs, IndexKeys(groups), key, icho) == |recs|
    decreases |recs|
  {
    if recs == [] {
      SumOverZero(GroupSize, IndexKeys(groups), key, icho);
    } else {
      var n := |recs|;
      assert recs == recs[..n - 1] + [recs[n - 1]];
      GroupSizesAddUp(recs[..n - 1], key, icho, groups);
      SumOverAppend(GroupSize, recs[..n - 1], recs[n - 1], IndexKeys(groups), key, icho);
      GroupSizeOne(recs[n - 1], groups, key, icho);
    }
  }

  /** Over the first m items, a record's ICOUNT contributions add up to its number of
      matches there. */
  lemma {:induction false} HitsAreMatches(r: Rec, key: seq<int>, icho: int, m: nat)
    requires m <= |r.answers| && m <= |key|
    ensures ContributionOver(Correct, r, IndexKeys(m), key, icho) == Matches(r.answers[..m], key[..m])
    decreases m
  {
    if m > 0 {
      assert IndexKeys(m)[..m - 1] == IndexKeys(m - 1);
      assert r.answers[..m][..m - 1] == r.answers[..m - 1];
      assert key[..m][..m - 1] == key[..m - 1];
      HitsAreMatches(r, key, icho, m - 1);
    }
  }

  /** ISUM is the sum of the ICOUNT entries when each score is the number of items the
      student answered as the key does. */
  lemma {:induction false} ScoreSumIsCorrectSum(recs: seq<Rec>, key: seq<int>, icho: int)
    requires forall s :: 0 <= s < |recs| ==> |recs[s].answers| == |key| && recs[s].score == Matches(recs[s].answers, key)
    ensures Expected(ScoreSum, recs, [], key, icho) == SumOver(Correct, recs, IndexKeys(|key|), key, icho)
    decreases |recs|
  {
    if recs == [] {
      SumOverZero(Correct, IndexKeys(|key|), key, icho);
    } else {
      var n := |recs|;
      var r := recs[n - 1];
      assert recs == recs[..n - 1] + [r];
      ScoreSumIsCorrectSum(recs[..n - 1], key, icho);
      SumOverAppend(Correct, recs[..n - 1], r, IndexKeys(|key|), key, icho);
      HitsAreMatches(r, key, icho, |key|);
      assert r.answers[..|key|] == r.answers && key[..|key|] == key;
    }
  }
}
