/** The per-section tally of the JSON reader, initializeStudentDataFromCurrentQuestionSet
    (itemal.py:875-924): every group of responses is opened in a fresh StudentData,
    every student's answers are checked, scored, renumbered in reverse mode and stored,
    and the StatData counters that prepForDataRead allocates (itemal.py:1166-1187) are
    updated item by item. */
module Tally {
  import opened Wrappers
  import opened SparseArray
  import opened Students
  import opened Scoring
  import opened TallySpec

  /** One entry of a question set's "responses": the group's optional id and each
      student's answers. */
  datatype ResponseGroup = ResponseGroup(id: Option<GroupId>, answers: seq<seq<int>>)

  /** The exceptions the tally raises. */
  datatype TallyError =
    | WrongAnswerCount(given: nat, expected: int)  // ValueError (itemal.py:884-885)
    | EmptyAnswerList                              // TypeError from reduce with ITEMN = 0 (itemal.py:891)

  /** Counter c, stored as map m with fill value `fill`, holds at every key of the
      storage's rank what `recs` contribute there. */
  ghost predicate HoldsFor(m: map<seq<nat>, int>, fill: int, rank: nat, c: Counter, recs: seq<Rec>, key: seq<int>, icho: int) {
    forall k {:trigger Read(m, fill, k)} {:trigger Expected(c, recs, k, key, icho)} ::
      |k| == rank ==> Read(m, fill, k) == Expected(c, recs, k, key, icho)
  }

  /** A counter that item i does not change keeps holding once item i is counted. */
  lemma Keep(m: map<seq<nat>, int>, fill: int, rank: nat, c: Counter, done: seq<Rec>, r: Rec, i: nat, key: seq<int>, icho: int)
    requires i < |r.answers|
    requires HoldsFor(m, fill, rank, c, done + [Truncate(r, i)], key, icho)
    requires forall k :: |k| == rank ==> ItemDelta(c, r, i, k, key, icho) == 0
    ensures HoldsFor(m, fill, rank, c, done + [Truncate(r, i + 1)], key, icho)
  {
    forall k | |k| == rank {
      ItemStep(c, done, r, i, k, key, icho);
    }
  }

  /** A record with no item tallied yet leaves the per-item counters as they were. */
  lemma Opens(m: map<seq<nat>, int>, fill: int, rank: nat, c: Counter, done: seq<Rec>, r: Rec, key: seq<int>, icho: int)
    requires PerItem(c)
    requires HoldsFor(m, fill, rank, c, done, key, icho)
    ensures HoldsFor(m, fill, rank, c, done + [Truncate(r, 0)], key, icho)
  {
    forall k | |k| == rank
      ensures Read(m, fill, k) == Expected(c, done + [Truncate(r, 0)], k, key, icho)
    {
      ExpectedAppend(c, done, Truncate(r, 0), k, key, icho);
      EmptyRecordContribution(c, r, k, key, icho);
    }
  }

  /** Adding d at key k to a storage that holds for `before` makes it hold for `after`
      when the expected counts differ by exactly that. */
  lemma Shift(m: map<seq<nat>, int>, m': map<seq<nat>, int>, fill: int, rank: nat, c: Counter,
              before: seq<Rec>, after: seq<Rec>, k: seq<nat>, d: int, key: seq<int>, icho: int)
    requires HoldsFor(m, fill, rank, c, before, key, icho)
    requires forall k' :: |k'| == rank ==> Read(m', fill, k') == Read(m, fill, k') + (if k' == k then d else 0)
    requires forall k' :: |k'| == rank ==>
      Expected(c, after, k', key, icho) == Expected(c, before, k', key, icho) + (if k' == k then d else 0)
    ensures HoldsFor(m', fill, rank, c, after, key, icho)
  {
  }

  /** `counter[k] += d` for the counter item i changes by d at k and nowhere else. */
  method Bump(s: SparseStorage<int>, k: seq<nat>, d: int,
              ghost c: Counter, ghost done: seq<Rec>, ghost r: Rec, ghost i: nat, ghost key: seq<int>, ghost icho: int)
    requires s.Valid() && |k| == s.rank && i < |r.answers|
    requires HoldsFor(s.Contents, s.fill, s.rank, c, done + [Truncate(r, i)], key, icho)
    requires forall k' :: |k'| == s.rank ==> ItemDelta(c, r, i, k', key, icho) == if k' == k then d else 0
    modifies s
    ensures s.Valid() && s.fill == old(s.fill)
    ensures HoldsFor(s.Contents, s.fill, s.rank, c, done + [Truncate(r, i + 1)], key, icho)
  {
    forall k' | |k'| == s.rank
      ensures Expected(c, done + [Truncate(r, i + 1)], k', key, icho)
           == Expected(c, done + [Truncate(r, i)], k', key, icho) + (if k' == k then d else 0)
    {
      ItemStep(c, done, r, i, k', key, icho);
    }
    ghost var m := s.Contents;
    var _ := AddValueAtIndex(s, k, d);
    Shift(m, s.Contents, s.fill, s.rank, c, done + [Truncate(r, i)], done + [Truncate(r, i + 1)], k, d, key, icho);
  }

  /** `counter[k] += d` for a counter that a record changes by d at k, as a whole,
      before any of its items is tallied. */
  method BumpRecord(s: SparseStorage<int>, k: seq<nat>, d: int,
                    ghost c: Counter, ghost done: seq<Rec>, ghost r: Rec, ghost key: seq<int>, ghost icho: int)
    requires s.Valid() && |k| == s.rank
    requires HoldsFor(s.Contents, s.fill, s.rank, c, done, key, icho)
    requires forall k' :: |k'| == s.rank ==> Contribution(c, Truncate(r, 0), k', key, icho) == if k' == k then d else 0
    modifies s
    ensures s.Valid() && s.fill == old(s.fill)
    ensures HoldsFor(s.Contents, s.fill, s.rank, c, done + [Truncate(r, 0)], key, icho)
  {
    forall k' | |k'| == s.rank
      ensures Expected(c, done + [Truncate(r, 0)], k', key, icho)
           == Expected(c, done, k', key, icho) + (if k' == k then d else 0)
    {
      ExpectedAppend(c, done, Truncate(r, 0), k', key, icho);
    }
    ghost var m := s.Contents;
    var _ := AddValueAtIndex(s, k, d);
    Shift(m, s.Contents, s.fill, s.rank, c, done, done + [Truncate(r, 0)], k, d, key, icho);
  }

  /** A record adds 1 to the size of its own group and to no other. */
  lemma GroupSizeContribution(r: Rec, key: seq<int>, icho: int)
    ensures forall k :: |k| == 1 ==> Contribution(GroupSize, Truncate(r, 0), k, key, icho) == if k == [r.pos] then 1 else 0
  {
    forall k | |k| == 1 ensures Contribution(GroupSize, Truncate(r, 0), k, key, icho) == if k == [r.pos] then 1 else 0 {
      assert k == [r.pos] <==> k[0] == r.pos;
    }
  }

  /** A record adds its score to ISUM's expected value and its square to ISUMSQ's. */
  lemma TotalsStep(done: seq<Rec>, r: Rec, key: seq<int>, icho: int)
    ensures Expected(ScoreSum, done + [Truncate(r, 0)], [], key, icho) == Expected(ScoreSum, done, [], key, icho) + r.score
    ensures Expected(ScoreSquares, done + [Truncate(r, 0)], [], key, icho) == Expected(ScoreSquares, done, [], key, icho) + r.score * r.score
  {
    ExpectedAppend(ScoreSum, done, Truncate(r, 0), [], key, icho);
    ExpectedAppend(ScoreSquares, done, Truncate(r, 0), [], key, icho);
  }

  /** The answers and the scores of the records, as StudentData stores them. */
  function AnswersOf(recs: seq<Rec>): (r: seq<seq<int>>)
    ensures |r| == |recs|
  {
    seq(|recs|, s requires 0 <= s < |recs| => recs[s].answers)
  }

  function ScoresOf(recs: seq<Rec>): (r: seq<Option<int>>)
    ensures |r| == |recs|
  {
    seq(|recs|, s requires 0 <= s < |recs| => Some(recs[s].score))
  }

  lemma OfAppend(recs: seq<Rec>, r: Rec)
    ensures AnswersOf(recs + [r]) == AnswersOf(recs) + [r.answers]
    ensures ScoresOf(recs + [r]) == ScoresOf(recs) + [Some(r.score)]
  {
  }

  /** startRecord alone (itemal.py:888), for the student whose score then fails. */
  method StartBlankRecord(d: StudentData)
    requires d.Valid() && d.groupIds != []
    modifies d
    ensures d.Valid() && d.groupIds == old(d.groupIds) && d.currentGroupId == old(d.currentGroupId)
  {
    d.StartRecord();
  }

  /** startRecord, setScore and setAnswers of one student (itemal.py:888, 902-903): a
      new record with the given score and answers at the end of the current group. */
  method StoreStudent(d: StudentData, stored: seq<int>, score: nat)
    requires d.Valid() && d.groupIds != [] && |stored| == d.questionCount && score <= d.questionCount
    modifies d
    ensures d.Valid() && !d.Unfinished()
    ensures d.groupIds == old(d.groupIds) && d.currentGroupId == old(d.currentGroupId)
    ensures Flatten(d.answers) == Flatten(old(d.answers)) + [stored]
    ensures Flatten(d.scores) == Flatten(old(d.scores)) + [Some(score)]
  {
    d.StartRecord();
    ghost var scores1, answers1 := d.scores, d.answers;
    var ok := d.SetScore(score);
    ok := d.SetAnswers(stored);
    FlattenSetLast(scores1, Some(score));
    FlattenSetLast(answers1, stored);
  }

  /** The StatData counters of one test section that the tally fills. The key, ICHO and
      IDIG are fixed once the section's header has been read. */
  class SectionTally {
    const ITEMN: nat
    const ICHO: int
    const IDIG: int
    const KORAN: seq<int>
    const ICOUNT: SparseStorage<int>
    const ITC: SparseStorage<int>
    const ITIC: SparseStorage<int>
    const KOUNT: SparseStorage<int>
    const JTOT: SparseStorage<int>
    const KSUM: SparseStorage<int>
    const ITAB: SparseStorage<int>
    var ISUM: int
    var ISUMSQ: int
    var ITN: nat
    var messages: seq<Warning>

    /** The counters ICOUNT, ITC and ITIC: valid rank-1 storages filled with 0. */
    ghost predicate KeyedValid()
      reads ICOUNT, ITC, ITIC
    {
      && ICOUNT.Valid() && ICOUNT.rank == 1 && ICOUNT.fill == 0
      && ITC.Valid() && ITC.rank == 1 && ITC.fill == 0
      && ITIC.Valid() && ITIC.rank == 1 && ITIC.fill == 0
      && ICOUNT != ITC && ICOUNT != ITIC && ITC != ITIC
    }

    /** The counters JTOT, KSUM (rank 2) and ITAB (rank 3), filled with 0. */
    ghost predicate ChoiceValid()
      reads JTOT, KSUM, ITAB
    {
      && JTOT.Valid() && JTOT.rank == 2 && JTOT.fill == 0
      && KSUM.Valid() && KSUM.rank == 2 && KSUM.fill == 0
      && ITAB.Valid() && ITAB.rank == 3 && ITAB.fill == 0
      && JTOT != KSUM
    }

    ghost predicate Valid()
      reads ICOUNT, ITC, ITIC, KOUNT, JTOT, KSUM, ITAB
    {
      && |KORAN| == ITEMN
      && KeyedValid() && ChoiceValid()
      && KOUNT.Valid() && KOUNT.rank == 1 && KOUNT.fill == 0
      && KOUNT != ICOUNT && KOUNT != ITC && KOUNT != ITIC
    }

    /** Object o is none of the tally's objects (which lets the verifier see at once
        that a StudentData survives a change to the counters). */
    predicate Apart(o: object) {
      && o != this && o != ICOUNT && o != ITC && o != ITIC && o != KOUNT
      && o != JTOT && o != KSUM && o != ITAB
    }

    /** Counter c, kept in storage s, holds what `recs` contribute. */
    ghost predicate Holds(s: SparseStorage<int>, c: Counter, recs: seq<Rec>)
      reads s
    {
      HoldsFor(s.Contents, s.fill, s.rank, c, recs, KORAN, ICHO)
    }

    /** The counters updated item by item hold what `recs` contribute. */
    ghost predicate ItemsTallied(recs: seq<Rec>)
      reads ICOUNT, ITC, ITIC, JTOT, KSUM, ITAB
    {
      && Holds(ICOUNT, Correct, recs)
      && Holds(ITC, CorrectScore, recs)
      && Holds(ITIC, WrongScore, recs)
      && Holds(JTOT, Chosen, recs)
      && Holds(KSUM, ChosenScore, recs)
      && Holds(ITAB, ChosenInGroup, recs)
    }

    /** The counters updated once per student hold what `recs` contribute. */
    ghost predicate TotalsTallied(recs: seq<Rec>)
      reads this`ISUM, this`ISUMSQ, KOUNT
    {
      && Holds(KOUNT, GroupSize, recs)
      && ISUM == Expected(ScoreSum, recs, [], KORAN, ICHO)
      && ISUMSQ == Expected(ScoreSquares, recs, [], KORAN, ICHO)
    }

    /** Every counter holds exactly what `recs` contribute, and the warnings are theirs. */
    ghost predicate Tallied(recs: seq<Rec>)
      reads this`ISUM, this`ISUMSQ, this`messages, ICOUNT, ITC, ITIC, KOUNT, JTOT, KSUM, ITAB
    {
      ItemsTallied(recs) && TotalsTallied(recs) && messages == Warnings(recs, ICHO)
    }

    /** A test section whose key has been read (itemal.py:823-826) and renumbered
        (fixupAnswerKey, itemal.py:325-328), with the counters of prepForDataRead
        (itemal.py:1166-1187) freshly allocated and zero. */
    constructor (key: seq<int>, icho: int, idig: int)
      ensures Valid() && Tallied([])
      ensures ITEMN == |key| && ICHO == icho && IDIG == idig && KORAN == FixupKey(idig, icho, key)
      ensures fresh(ICOUNT) && fresh(ITC) && fresh(ITIC) && fresh(KOUNT) && fresh(JTOT) && fresh(KSUM) && fresh(ITAB)
    {
      ITEMN := |key|;
      ICHO := icho;
      IDIG := idig;
      KORAN := FixupKey(idig, icho, key);
      ITAB := new SparseStorage(3, 0);
      KSUM := new SparseStorage(2, 0);
      JTOT := new SparseStorage(2, 0);
      KOUNT := new SparseStorage(1, 0);
      ICOUNT := new SparseStorage(1, 0);
      ITC := new SparseStorage(1, 0);
      ITIC := new SparseStorage(1, 0);
      ISUMSQ := 0;
      ISUM := 0;
      ITN := 0;
      messages := [];
    }

    /** The record the tally makes of a student's answers in the pos-th group. */
    function MakeRec(pos: nat, id: GroupId, raw: seq<int>): Rec {
      Rec(pos, id, StoredAnswers(IDIG, ICHO, raw), Score(IDIG, ICHO, raw, KORAN))
    }

    /** The records of the first n students of a group, in order. */
    function GroupRecords(list: seq<seq<int>>, n: nat, pos: nat, id: GroupId): (r: seq<Rec>)
      requires n <= |list|
      ensures |r| == n
    {
      if n == 0 then [] else GroupRecords(list, n - 1, pos, id) + [MakeRec(pos, id, list[n - 1])]
    }

    /** The records of the first n groups, in order, given the ids the groups received. */
    function Records(groups: seq<ResponseGroup>, ids: seq<GroupId>, n: nat): seq<Rec>
      requires n <= |groups| && n <= |ids|
    {
      if n == 0 then []
      else
        var list := groups[n - 1].answers;
        Records(groups, ids, n - 1) + GroupRecords(list, |list|, n, ids[n - 1])
    }

    /** The records of one more student extend those already counted. */
    lemma GroupRecordsStep(done: seq<Rec>, list: seq<seq<int>>, s: nat, pos: nat, id: GroupId)
      requires s < |list|
      ensures done + GroupRecords(list, s + 1, pos, id) == done + GroupRecords(list, s, pos, id) + [MakeRec(pos, id, list[s])]
    {
    }

    /** Only the ids of the first n groups matter to their records. */
    lemma {:induction false} RecordsPrefix(groups: seq<ResponseGroup>, ids: seq<GroupId>, ids': seq<GroupId>, n: nat)
      requires n <= |groups| && n <= |ids| && n <= |ids'|
      requires forall h :: 0 <= h < n ==> ids[h] == ids'[h]
      ensures Records(groups, ids, n) == Records(groups, ids', n)
    {
      if n > 0 {
        RecordsPrefix(groups, ids, ids', n - 1);
      }
    }

    /** A new last id does not change the records of the groups before it. */
    lemma RecordsExtend(groups: seq<ResponseGroup>, ids: seq<GroupId>, id: GroupId, n: nat)
      requires n <= |groups| && n <= |ids|
      ensures Records(groups, ids + [id], n) == Records(groups, ids, n)
    {
      RecordsPrefix(groups, ids, ids + [id], n);
    }

    /** Group h keeps the id it was given, and a group without one gets an id no
        earlier group has (itemal.py:880-881). */
    ghost predicate GivenIds(groups: seq<ResponseGroup>, ids: seq<GroupId>)
      requires |ids| <= |groups|
    {
      && (forall h :: 0 <= h < |ids| && groups[h].id.Some? ==> ids[h] == groups[h].id.value)
      && (forall h, h' :: 0 <= h' < h < |ids| && groups[h].id.None? ==> ids[h'] != ids[h])
    }

    /** The next group keeps the id it was given, or gets one no earlier group has. */
    lemma GivenIdsStep(groups: seq<ResponseGroup>, ids: seq<GroupId>, id: GroupId)
      requires |ids| < |groups| && GivenIds(groups, ids)
      requires groups[|ids|].id.Some? ==> id == groups[|ids|].id.value
      requires groups[|ids|].id.None? ==> id !in ids
      ensures GivenIds(groups, ids + [id])
    {
    }

    /** Every student of the group gave exactly ITEMN answers, and ITEMN is not 0. */
    predicate Complete(list: seq<seq<int>>) {
      Answered(list, |list|)
    }

    /** The first n students of a group gave exactly ITEMN answers, and ITEMN is not 0. */
    predicate Answered(list: seq<seq<int>>, n: nat)
      requires n <= |list|
    {
      forall s :: 0 <= s < n ==> |list[s]| == ITEMN && ITEMN > 0
    }

    lemma AnsweredStep(list: seq<seq<int>>, n: nat)
      requires n < |list| && Answered(list, n) && |list[n]| == ITEMN && ITEMN > 0
      ensures Answered(list, n + 1)
    {
    }

    /** The first n groups are complete. */
    predicate WellFormed(groups: seq<ResponseGroup>, n: nat)
      requires n <= |groups|
    {
      forall g :: 0 <= g < n ==> Complete(groups[g].answers)
    }

    /** One item of one student (itemal.py:905-921). */
    method TallyItem(r: Rec, i: nat, ghost done: seq<Rec>)
      requires Valid() && i < |r.answers| == ITEMN
      requires Tallied(done + [Truncate(r, i)])
      modifies this`messages, ICOUNT, ITC, ITIC, JTOT, KSUM, ITAB
      ensures Valid() && Tallied(done + [Truncate(r, i + 1)])
      ensures ITN == old(ITN)
    {
      TallyKeyed(r, i, done);
      TallyChoice(r, i, done);
      ItemStepWarnings(done, r, i, ICHO);
      forall k | |k| == 1 ensures ItemDelta(GroupSize, r, i, k, KORAN, ICHO) == 0 {
        NotPerItemDelta(GroupSize, r, i, k, KORAN, ICHO);
      }
      Keep(KOUNT.Contents, KOUNT.fill, 1, GroupSize, done, r, i, KORAN, ICHO);
      ItemStep(ScoreSum, done, r, i, [], KORAN, ICHO);
      ItemStep(ScoreSquares, done, r, i, [], KORAN, ICHO);
    }

    /** The key comparison of one item (itemal.py:905-908): a correct answer counts in
        ICOUNT and adds the score to ITC, a wrong one adds the score to ITIC. */
    method TallyKeyed(r: Rec, i: nat, ghost done: seq<Rec>)
      requires KeyedValid() && i < |r.answers| == ITEMN == |KORAN|
      requires Holds(ICOUNT, Correct, done + [Truncate(r, i)])
      requires Holds(ITC, CorrectScore, done + [Truncate(r, i)])
      requires Holds(ITIC, WrongScore, done + [Truncate(r, i)])
      modifies ICOUNT, ITC, ITIC
      ensures KeyedValid()
      ensures Holds(ICOUNT, Correct, done + [Truncate(r, i + 1)])
      ensures Holds(ITC, CorrectScore, done + [Truncate(r, i + 1)])
      ensures Holds(ITIC, WrongScore, done + [Truncate(r, i + 1)])
    {
      var a := r.answers[i];
      forall k | |k| == 1 ensures ItemDelta(Correct, r, i, k, KORAN, ICHO) == if k == [i + 1] && a == KORAN[i] then 1 else 0 {
        HitDelta(Correct, r, i, k, KORAN, ICHO);
      }
      forall k | |k| == 1 ensures ItemDelta(CorrectScore, r, i, k, KORAN, ICHO) == if k == [i + 1] && a == KORAN[i] then r.score else 0 {
        HitDelta(CorrectScore, r, i, k, KORAN, ICHO);
      }
      forall k | |k| == 1 ensures ItemDelta(WrongScore, r, i, k, KORAN, ICHO) == if k == [i + 1] && a != KORAN[i] then r.score else 0 {
        MissDelta(r, i, k, KORAN, ICHO);
      }
      if KORAN[i] == a {
        Bump(ICOUNT, [i + 1], 1, Correct, done, r, i, KORAN, ICHO);
        Bump(ITC, [i + 1], r.score, CorrectScore, done, r, i, KORAN, ICHO);
        Keep(ITIC.Contents, ITIC.fill, 1, WrongScore, done, r, i, KORAN, ICHO);
      } else {
        Keep(ICOUNT.Contents, ICOUNT.fill, 1, Correct, done, r, i, KORAN, ICHO);
        Keep(ITC.Contents, ITC.fill, 1, CorrectScore, done, r, i, KORAN, ICHO);
        Bump(ITIC, [i + 1], r.score, WrongScore, done, r, i, KORAN, ICHO);
      }
    }

    /** The choice part of one item (itemal.py:911-921): a warning for an answer outside
        [0, ICHO], otherwise ITAB, JTOT and KSUM at the chosen column j = answer + 1. */
    method TallyChoice(r: Rec, i: nat, ghost done: seq<Rec>)
      requires ChoiceValid() && i < |r.answers|
      requires Holds(JTOT, Chosen, done + [Truncate(r, i)])
      requires Holds(KSUM, ChosenScore, done + [Truncate(r, i)])
      requires Holds(ITAB, ChosenInGroup, done + [Truncate(r, i)])
      modifies this`messages, JTOT, KSUM, ITAB
      ensures ChoiceValid()
      ensures Holds(JTOT, Chosen, done + [Truncate(r, i + 1)])
      ensures Holds(KSUM, ChosenScore, done + [Truncate(r, i + 1)])
      ensures Holds(ITAB, ChosenInGroup, done + [Truncate(r, i + 1)])
      ensures messages == old(messages) + ItemWarning(r, i, ICHO)
    {
      var a := r.answers[i];
      forall k | |k| == 2 ensures !(0 <= a <= ICHO) ==> ItemDelta(Chosen, r, i, k, KORAN, ICHO) == 0 {
        ChoiceDelta(Chosen, r, i, k, KORAN, ICHO);
      }
      forall k | |k| == 2 ensures !(0 <= a <= ICHO) ==> ItemDelta(ChosenScore, r, i, k, KORAN, ICHO) == 0 {
        ChoiceDelta(ChosenScore, r, i, k, KORAN, ICHO);
      }
      forall k | |k| == 3 ensures !(0 <= a <= ICHO) ==> ItemDelta(ChosenInGroup, r, i, k, KORAN, ICHO) == 0 {
        ChoiceDelta(ChosenInGroup, r, i, k, KORAN, ICHO);
      }
      if a < 0 {
        messages := messages + [Negative(i, r.id)];
      } else if a > ICHO {
        messages := messages + [TooLarge(i, r.id, ICHO)];
      }
      if a < 0 || a > ICHO {
        Keep(JTOT.Contents, JTOT.fill, 2, Chosen, done, r, i, KORAN, ICHO);
        Keep(KSUM.Contents, KSUM.fill, 2, ChosenScore, done, r, i, KORAN, ICHO);
        Keep(ITAB.Contents, ITAB.fill, 3, ChosenInGroup, done, r, i, KORAN, ICHO);
        return;
      }
      var j: nat := a + 1;
      forall k | |k| == 3 ensures ItemDelta(ChosenInGroup, r, i, k, KORAN, ICHO) == if k == [i + 1, j, r.pos] then 1 else 0 {
        ChoiceDelta(ChosenInGroup, r, i, k, KORAN, ICHO);
      }
      forall k | |k| == 2 ensures ItemDelta(Chosen, r, i, k, KORAN, ICHO) == if k == [i + 1, j] then 1 else 0 {
        ChoiceDelta(Chosen, r, i, k, KORAN, ICHO);
      }
      forall k | |k| == 2 ensures ItemDelta(ChosenScore, r, i, k, KORAN, ICHO) == if k == [i + 1, j] then r.score else 0 {
        ChoiceDelta(ChosenScore, r, i, k, KORAN, ICHO);
      }
      Bump(ITAB, [i + 1, j, r.pos], 1, ChosenInGroup, done, r, i, KORAN, ICHO);
      Bump(JTOT, [i + 1, j], 1, Chosen, done, r, i, KORAN, ICHO);
      Bump(KSUM, [i + 1, j], r.score, ChosenScore, done, r, i, KORAN, ICHO);
    }
      /** A record none of whose items is tallied yet leaves the per-item counters as
        they were. */
    lemma OpenItems(r: Rec, done: seq<Rec>)
      requires Valid() && ItemsTallied(done)
      ensures ItemsTallied(done + [Truncate(r, 0)])
    {
      Opens(ICOUNT.Contents, 0, 1, Correct, done, r, KORAN, ICHO);
      Opens(ITC.Contents, 0, 1, CorrectScore, done, r, KORAN, ICHO);
      Opens(ITIC.Contents, 0, 1, WrongScore, done, r, KORAN, ICHO);
      Opens(JTOT.Contents, 0, 2, Chosen, done, r, KORAN, ICHO);
      Opens(KSUM.Contents, 0, 2, ChosenScore, done, r, KORAN, ICHO);
      Opens(ITAB.Contents, 0, 3, ChosenInGroup, done, r, KORAN, ICHO);
    }

    /** The record-level counters of one student (itemal.py:893-895): KOUNT at the
        current group, ISUM and ISUMSQ. */
    method TallyRecordTotals(r: Rec, ghost done: seq<Rec>)
      requires KOUNT.Valid() && KOUNT.rank == 1 && KOUNT.fill == 0 && TotalsTallied(done)
      modifies this`ISUM, this`ISUMSQ, KOUNT
      ensures KOUNT.Valid() && KOUNT.fill == 0 && TotalsTallied(done + [Truncate(r, 0)])
    {
      GroupSizeContribution(r, KORAN, ICHO);
      TotalsStep(done, r, KORAN, ICHO);
      ISUM := ISUM + r.score;
      ISUMSQ := ISUMSQ + r.score * r.score;
      BumpRecord(KOUNT, [r.pos], 1, GroupSize, done, r, KORAN, ICHO);
    }

    /** The item loop of one student (itemal.py:905-921). */
    method TallyItems(r: Rec, ghost done: seq<Rec>)
      requires Valid() && |r.answers| == ITEMN
      requires Tallied(done + [Truncate(r, 0)])
      modifies this`messages, ICOUNT, ITC, ITIC, JTOT, KSUM, ITAB
      ensures Valid() && Tallied(done + [r])
      ensures ITN == old(ITN)
    {
      var i := 0;
      while i < |r.answers|
        invariant 0 <= i <= |r.answers|
        invariant Valid() && Tallied(done + [Truncate(r, i)])
        invariant ITN == old(ITN)
      {
        TallyItem(r, i, done);
        i := i + 1;
      }
      assert Truncate(r, i) == r;
    }

    /** One student of the current group (itemal.py:884-921): the answer count is
        checked, a record is started, scored, renumbered in reverse mode and stored, and
        every counter takes the student into account. The score is computed from the
        stored answers (see Scoring.Score). */
    method TallyRecord(d: StudentData, raw: seq<int>, ghost pos: nat, ghost id: GroupId, ghost done: seq<Rec>) returns (err: Option<TallyError>)
      requires pos == |d.groupIds| > 0 && id == d.groupIds[pos - 1] && Stored(d, done) == true
      modifies this`ISUM, this`ISUMSQ, this`messages, ICOUNT, ITC, ITIC, KOUNT, JTOT, KSUM, ITAB, d
      ensures err.None? ==> d.groupIds == old(d.groupIds) && d.currentGroupId == old(d.currentGroupId)
      ensures err.None? <==> |raw| == ITEMN && ITEMN > 0
      ensures |raw| != ITEMN ==> err == Some(WrongAnswerCount(|raw|, ITEMN))
      ensures err.None? ==> Stored(d, done + [MakeRec(pos, id, raw)])
    {
      if |raw| != ITEMN {
        return Some(WrongAnswerCount(|raw|, ITEMN));
      }
      assert Apart(d);
      var stored := raw;
      if IDIG == 2 {
        stored := ReverseAnswers(ICHO, raw);
      }
      var score := ReduceScore(stored, KORAN);
      if score.None? {
        StartBlankRecord(d);
        return Some(EmptyAnswerList);
      }
      var r := Rec(|d.groupIds|, d.currentGroupId.value, stored, score.value);
      assert r == MakeRec(|d.groupIds|, d.groupIds[|d.groupIds| - 1], raw);
      AddStudent(d, r, done);
      err := None;
    }

    /** A scored student stored in d and taken into account by every counter. */
    method AddStudent(d: StudentData, r: Rec, ghost done: seq<Rec>)
      requires Valid() && Tallied(done)
      requires d.Valid() && d.questionCount == ITEMN && d.groupIds != [] && !d.Unfinished()
      requires Flatten(d.answers) == AnswersOf(done) && Flatten(d.scores) == ScoresOf(done)
      requires |r.answers| == ITEMN && 0 <= r.score <= ITEMN
      modifies this`ISUM, this`ISUMSQ, this`messages, ICOUNT, ITC, ITIC, KOUNT, JTOT, KSUM, ITAB, d
      ensures Valid() && d.Valid() && Tallied(done + [r]) && !d.Unfinished()
      ensures d.groupIds == old(d.groupIds) && d.currentGroupId == old(d.currentGroupId)
      ensures Flatten(d.answers) == AnswersOf(done + [r]) && Flatten(d.scores) == ScoresOf(done + [r])
    {
      assert Apart(d);
      OfAppend(done, r);
      StoreStudent(d, r.answers, r.score);
      TallyStudent(r, done);
    }

    /** The counters' part of one student (itemal.py:893-895, 905-921). */
    method TallyStudent(r: Rec, ghost done: seq<Rec>)
      requires Valid() && Tallied(done) && |r.answers| == ITEMN
      modifies this`ISUM, this`ISUMSQ, this`messages, ICOUNT, ITC, ITIC, KOUNT, JTOT, KSUM, ITAB
      ensures Valid() && Tallied(done + [r])
    {
      OpenItems(r, done);
      WarningsAppend(done, Truncate(r, 0), ICHO);
      TallyRecordTotals(r, done);
      TallyItems(r, done);
    }

    /** The tally and the stored responses both account for the records recs. */
    ghost predicate Stored(d: StudentData, recs: seq<Rec>)
      reads this`ISUM, this`ISUMSQ, this`messages, ICOUNT, ITC, ITIC, KOUNT, JTOT, KSUM, ITAB, d
    {
      && Valid() && Tallied(recs)
      && d.Valid() && d.questionCount == ITEMN && !d.Unfinished()
      && Flatten(d.answers) == AnswersOf(recs) && Flatten(d.scores) == ScoresOf(recs)
    }

    /** The state of the student loop of one group after s students. */
    ghost predicate GroupState(d: StudentData, list: seq<seq<int>>, s: nat, ids: seq<GroupId>, current: Option<GroupId>, done: seq<Rec>)
      reads this`ISUM, this`ISUMSQ, this`messages, ICOUNT, ITC, ITIC, KOUNT, JTOT, KSUM, ITAB, d
    {
      && s <= |list| && ids != [] && d.groupIds == ids && d.currentGroupId == current
      && Answered(list, s)
      && Stored(d, done + GroupRecords(list, s, |ids|, ids[|ids| - 1]))
    }

    /** Before its first student, a group's loop state is what d and the counters hold. */
    lemma GroupStart(d: StudentData, list: seq<seq<int>>, done: seq<Rec>)
      requires d.groupIds != [] && Stored(d, done) == true
      ensures GroupState(d, list, 0, d.groupIds, d.currentGroupId, done)
    {
      assert done + GroupRecords(list, 0, |d.groupIds|, d.groupIds[|d.groupIds| - 1]) == done;
    }

    method TallyNext(d: StudentData, list: seq<seq<int>>, s: nat, ghost ids: seq<GroupId>, ghost current: Option<GroupId>, ghost done: seq<Rec>)
      returns (err: Option<TallyError>)
      requires s < |list| && GroupState(d, list, s, ids, current, done) == true
      modifies this`ISUM, this`ISUMSQ, this`messages, ICOUNT, ITC, ITIC, KOUNT, JTOT, KSUM, ITAB, d
      ensures err.None? <==> |list[s]| == ITEMN && ITEMN > 0
      ensures err.None? ==> GroupState(d, list, s + 1, ids, current, done) == true
    {
      var pos := |d.groupIds|;
      err := TallyRecord(d, list[s], pos, ids[pos - 1], done + GroupRecords(list, s, pos, ids[pos - 1]));
      if err.Some? {
        return;
      }
      AnsweredStep(list, s);
      GroupRecordsStep(done, list, s, pos, ids[pos - 1]);
    }

    /** The students of one group (itemal.py:882-921). */
    method TallyGroup(d: StudentData, list: seq<seq<int>>, ghost done: seq<Rec>) returns (err: Option<TallyError>)
      requires d.groupIds != [] && Stored(d, done) == true
      modifies this`ISUM, this`ISUMSQ, this`messages, ICOUNT, ITC, ITIC, KOUNT, JTOT, KSUM, ITAB, d
      ensures err.None? <==> Complete(list)
      ensures err.None? ==> GroupState(d, list, |list|, old(d.groupIds), old(d.currentGroupId), done) == true
    {
      ghost var ids, current := d.groupIds, d.currentGroupId;
      GroupStart(d, list, done);
      var s := 0;
      while s < |list|
        invariant GroupState(d, list, s, ids, current, done) == true
      {
        err := TallyNext(d, list, s, ids, current, done);
        if err.Some? {
          assert !(|list[s]| == ITEMN && ITEMN > 0);
          return;
        }
        s := s + 1;
      }
      err := None;
    }

    /** What the group loop of initializeStudentDataFromCurrentQuestionSet keeps after g
        groups: d has one id per group read, as GivenIds says, every one of those groups
        was complete, and d and the counters account for their records. */
    ghost predicate ReadState(d: StudentData, groups: seq<ResponseGroup>, g: nat)
      reads this`ISUM, this`ISUMSQ, this`messages, ICOUNT, ITC, ITIC, KOUNT, JTOT, KSUM, ITAB, d
    {
      && g <= |groups| && |d.groupIds| == g
      && WellFormed(groups, g) && GivenIds(groups, d.groupIds)
      && Stored(d, Records(groups, d.groupIds, g))
    }

    /** initializeStudentDataFromCurrentQuestionSet (itemal.py:875-924): every group is
        opened in a new StudentData and its students tallied; ITN becomes the number of
        students. The counters start as prepForDataRead leaves them. */
    method ReadResponses(groups: seq<ResponseGroup>) returns (r: Result<StudentData, TallyError>)
      requires Valid() && Tallied([])
      modifies this, ICOUNT, ITC, ITIC, KOUNT, JTOT, KSUM, ITAB
      ensures r.Ok? <==> WellFormed(groups, |groups|)
      ensures r.Ok? ==> fresh(r.value) && ReadState(r.value, groups, |groups|)
      ensures r.Ok? ==> ITN == |Records(groups, r.value.groupIds, |groups|)|
    {
      var d := new StudentData(ITEMN);
      var g := 0;
      while g < |groups|
        invariant fresh(d) && g <= |groups|
        invariant ReadState(d, groups, g) == true
      {
        var err := ReadGroup(d, groups, g);
        if err.Some? {
          return Err(err.value);
        }
        g := g + 1;
      }
      CountStudents(d, groups);
      r := Ok(d);
    }

    /** Once every group is read, ITN becomes d's record count (itemal.py:923), which
        is the number of records. */
    method CountStudents(d: StudentData, groups: seq<ResponseGroup>)
      requires ReadState(d, groups, |groups|) == true
      modifies this`ITN
      ensures ITN == |Records(groups, d.groupIds, |groups|)|
      ensures ReadState(d, groups, |groups|)
    {
      ITN := d.TotalRecordCount();
    }

    /** Group g opened in d (itemal.py:880-881): it receives its id, and what d and the
        counters hold is kept. */
    method OpenGroup(d: StudentData, groups: seq<ResponseGroup>, g: nat)
      requires g < |groups| && ReadState(d, groups, g) == true
      modifies d
      ensures |d.groupIds| == g + 1 && WellFormed(groups, g) && GivenIds(groups, d.groupIds)
      ensures Stored(d, Records(groups, d.groupIds, g)) == true
    {
      assert Apart(d);
      ghost var ids, sc, an := d.groupIds, d.scores, d.answers;
      ghost var recs := Records(groups, ids, g);
      assert Valid() && Tallied(recs);
      d.StartGroup(groups[g].id);
      assert Valid() && Tallied(recs);
      FlattenNewGroup(sc);
      FlattenNewGroup(an);
      GivenIdsStep(groups, ids, d.currentGroupId.value);
      RecordsExtend(groups, ids, d.currentGroupId.value, g);
      assert Records(groups, d.groupIds, g) == recs;
    }

    /** Group g opened in d and its students tallied, in the terms of the loop above. */
    method ReadGroup(d: StudentData, groups: seq<ResponseGroup>, g: nat) returns (err: Option<TallyError>)
      requires g < |groups| && ReadState(d, groups, g) == true
      modifies this`ISUM, this`ISUMSQ, this`messages, ICOUNT, ITC, ITIC, KOUNT, JTOT, KSUM, ITAB, d
      ensures err.None? <==> Complete(groups[g].answers)
      ensures err.None? ==> ReadState(d, groups, g + 1) == true
    {
      OpenGroup(d, groups, g);
      ghost var ids, current := d.groupIds, d.currentGroupId;
      err := TallyGroup(d, groups[g].answers, Records(groups, ids, g));
      if err.None? {
        ReadStep(d, groups, g, ids, current);
      }
    }

    /** A group all of whose students are tallied extends the loop state by one group. */
    lemma ReadStep(d: StudentData, groups: seq<ResponseGroup>, g: nat, ids: seq<GroupId>, current: Option<GroupId>)
      requires g < |groups| && |ids| == g + 1 && WellFormed(groups, g) && GivenIds(groups, ids)
      requires Complete(groups[g].answers)
      requires GroupState(d, groups[g].answers, |groups[g].answers|, ids, current, Records(groups, ids, g)) == true
      ensures ReadState(d, groups, g + 1)
    {
    }
  }
}
