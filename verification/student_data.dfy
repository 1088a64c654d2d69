/** StudentData (itemal.py:169-286): the answers and scores of every test-taker, kept as
    three parallel lists indexed by group (scores, answers, groupIds), plus a cursor naming
    the group and the record currently being filled. */
module Students {
  import opened Wrappers

  /** A group id. The program numbers groups 1, 2, ... itself; a data file may supply
      any id, numeric or textual. */
  datatype GroupId = Num(n: int) | Name(s: string)

  /** The exceptions StudentData raises. */
  datatype DataError =
    | InvalidScore(score: int, questionCount: int)        // setScore (itemal.py:244-245)
    | InvalidAnswerList(given: nat, questionCount: int)   // setAnswers (itemal.py:266-267)
    | AnswerListFull                                      // appendAnswer (itemal.py:274-275)
    | AnswerOverflow(adding: nat, questionCount: int)     // appendAnswers (itemal.py:284-285)
    | NoCurrentRecord                                     // clearAnswers as written (itemal.py:258-260)

  /** Every record of every group, in order: the records as one flat list. */
  function Flatten<T>(groups: seq<seq<T>>): seq<T> {
    if groups == [] then [] else Flatten(groups[..|groups| - 1]) + groups[|groups| - 1]
  }

  /** The left fold of itemal.py:202: the running sum of the group sizes. */
  function SumLengths<T>(groups: seq<seq<T>>): nat {
    if groups == [] then 0 else SumLengths(groups[..|groups| - 1]) + |groups[|groups| - 1]|
  }

  lemma {:induction false} SumLengthsFlatten<T>(groups: seq<seq<T>>)
    ensures SumLengths(groups) == |Flatten(groups)|
    decreases |groups|
  {
    if groups != [] {
      SumLengthsFlatten(groups[..|groups| - 1]);
    }
  }

  /** Two group lists with groups of the same sizes hold the same number of records. */
  lemma {:induction false} FlattenSameLength<S, T>(a: seq<seq<S>>, b: seq<seq<T>>)
    requires |a| == |b| && forall g :: 0 <= g < |a| ==> |a[g]| == |b[g]|
    ensures |Flatten(a)| == |Flatten(b)|
    decreases |a|
  {
    if a != [] {
      FlattenSameLength(a[..|a| - 1], b[..|b| - 1]);
    }
  }

  /** `x` appended to the last group. */
  function AppendToLast<T>(groups: seq<seq<T>>, x: T): seq<seq<T>>
    requires groups != []
  {
    groups[|groups| - 1 := groups[|groups| - 1] + [x]]
  }

  /** The last record of the last group replaced by `x`. */
  function SetLast<T>(groups: seq<seq<T>>, x: T): seq<seq<T>>
    requires groups != [] && groups[|groups| - 1] != []
  {
    var g := groups[|groups| - 1];
    groups[|groups| - 1 := g[|g| - 1 := x]]
  }

  /** The last record of the last group removed. */
  function DropLast<T>(groups: seq<seq<T>>): seq<seq<T>>
    requires groups != [] && groups[|groups| - 1] != []
  {
    var g := groups[|groups| - 1];
    groups[|groups| - 1 := g[..|g| - 1]]
  }

  lemma FlattenAppendToLast<T>(groups: seq<seq<T>>, x: T)
    requires groups != []
    ensures Flatten(AppendToLast(groups, x)) == Flatten(groups) + [x]
  {
    assert AppendToLast(groups, x)[..|groups| - 1] == groups[..|groups| - 1];
  }

  lemma FlattenSetLast<T>(groups: seq<seq<T>>, x: T)
    requires groups != [] && groups[|groups| - 1] != []
    ensures |Flatten(groups)| > 0
    ensures Flatten(SetLast(groups, x)) == Flatten(groups)[|Flatten(groups)| - 1 := x]
  {
    assert SetLast(groups, x)[..|groups| - 1] == groups[..|groups| - 1];
  }

  lemma FlattenDropLast<T>(groups: seq<seq<T>>)
    requires groups != [] && groups[|groups| - 1] != []
    ensures |Flatten(groups)| > 0
    ensures Flatten(DropLast(groups)) == Flatten(groups)[..|Flatten(groups)| - 1]
  {
    assert DropLast(groups)[..|groups| - 1] == groups[..|groups| - 1];
  }

  lemma SingleGroup<T>(groups: seq<seq<T>>, x: T)
    requires groups != []
    ensures groups == [[]] ==> AppendToLast(groups, x) == [[x]]
  {
    if groups == [[]] {
      assert groups[0] + [x] == [x];
    }
  }

  lemma FlattenNewGroup<T>(groups: seq<seq<T>>)
    ensures Flatten(groups + [[]]) == Flatten(groups)
  {
    assert (groups + [[]])[..|groups|] == groups;
  }

  /** startRecord's effect on one of the lists: a blank record at the end of the last
      group, the group being created first when there is none. */
  function WithNewRecord<T>(groups: seq<seq<T>>, blank: T): seq<seq<T>> {
    if groups == [] then [[blank]] else AppendToLast(groups, blank)
  }

  /** The list after the "open a record if none is current" prologue shared by score,
      setScore, isAnswerListComplete, setAnswers, appendAnswer and appendAnswers. */
  function Opened<T>(groups: seq<seq<T>>, blank: T, current: Option<nat>): seq<seq<T>> {
    if current.Some? then groups else WithNewRecord(groups, blank)
  }

  /** The group ids after that prologue: group 1 is created when there were no groups. */
  function OpenedIds(ids: seq<GroupId>, current: Option<nat>): seq<GroupId> {
    if current.None? && ids == [] then [Num(1)] else ids
  }

  /** The largest numeric group id, or 0 when there is none. */
  function MaxNum(ids: seq<GroupId>): int {
    if ids == [] then 0
    else
      var m := MaxNum(ids[..|ids| - 1]);
      var last := ids[|ids| - 1];
      if last.Num? && last.n > m then last.n else m
  }

  lemma {:induction false} MaxNumBound(ids: seq<GroupId>, k: int)
    requires Num(k) in ids
    ensures k <= MaxNum(ids)
    decreases |ids|
  {
    if ids[|ids| - 1] != Num(k) {
      assert Num(k) in ids[..|ids| - 1];
      MaxNumBound(ids[..|ids| - 1], k);
    }
  }

  /** The default group id of itemal.py:216-219: counting up from `start`, the first
      number that is not already an id. */
  method DefaultGroupNumber(ids: seq<GroupId>, start: int) returns (k: int)
    ensures start <= k && Num(k) !in ids
    ensures forall j :: start <= j < k ==> Num(j) in ids
  {
    k := start;
    while Num(k) in ids
      invariant start <= k
      invariant forall j :: start <= j < k ==> Num(j) in ids
      decreases MaxNum(ids) - k
    {
      MaxNumBound(ids, k);
      k := k + 1;
    }
  }

  /** Scores and answers have the same number of groups and of records per group. */
  ghost predicate SameShape(scores: seq<seq<Option<int>>>, answers: seq<seq<seq<int>>>) {
    |scores| == |answers| && forall g :: 0 <= g < |scores| ==> |scores[g]| == |answers[g]|
  }

  /** Every score that has been set lies in [0, questionCount]. */
  ghost predicate ScoresInRange(scores: seq<seq<Option<int>>>, questionCount: int) {
    forall g, r :: 0 <= g < |scores| && 0 <= r < |scores[g]| && scores[g][r].Some? ==>
      0 <= scores[g][r].value <= questionCount
  }

  /** No answer list holds more than questionCount answers. */
  ghost predicate AnswersFit(answers: seq<seq<seq<int>>>, questionCount: int) {
    forall g, r :: 0 <= g < |answers| && 0 <= r < |answers[g]| ==>
      |answers[g][r]| == 0 || |answers[g][r]| <= questionCount
  }

  lemma NewGroupKeeps(scores: seq<seq<Option<int>>>, answers: seq<seq<seq<int>>>, qc: int)
    requires SameShape(scores, answers) && ScoresInRange(scores, qc) && AnswersFit(answers, qc)
    ensures SameShape(scores + [[]], answers + [[]])
    ensures ScoresInRange(scores + [[]], qc) && AnswersFit(answers + [[]], qc)
  {
  }

  lemma DropLastKeeps(scores: seq<seq<Option<int>>>, answers: seq<seq<seq<int>>>, qc: int)
    requires SameShape(scores, answers) && ScoresInRange(scores, qc) && AnswersFit(answers, qc)
    requires scores != [] && scores[|scores| - 1] != []
    ensures answers != [] && answers[|answers| - 1] != []
    ensures SameShape(DropLast(scores), DropLast(answers))
    ensures ScoresInRange(DropLast(scores), qc) && AnswersFit(DropLast(answers), qc)
  {
  }

  lemma AppendKeeps(scores: seq<seq<Option<int>>>, answers: seq<seq<seq<int>>>, qc: int)
    requires SameShape(scores, answers) && ScoresInRange(scores, qc) && AnswersFit(answers, qc)
    requires scores != []
    ensures SameShape(AppendToLast(scores, None), AppendToLast(answers, []))
    ensures ScoresInRange(AppendToLast(scores, None), qc) && AnswersFit(AppendToLast(answers, []), qc)
  {
  }

  lemma SetScoreKeeps(scores: seq<seq<Option<int>>>, answers: seq<seq<seq<int>>>, qc: int, score: int)
    requires SameShape(scores, answers) && ScoresInRange(scores, qc)
    requires scores != [] && scores[|scores| - 1] != [] && 0 <= score <= qc
    ensures SameShape(SetLast(scores, Some(score)), answers)
    ensures ScoresInRange(SetLast(scores, Some(score)), qc)
  {
  }

  lemma SetAnswersKeeps(scores: seq<seq<Option<int>>>, answers: seq<seq<seq<int>>>, qc: int, a: seq<int>)
    requires SameShape(scores, answers) && AnswersFit(answers, qc)
    requires answers != [] && answers[|answers| - 1] != [] && (|a| == 0 || |a| <= qc)
    ensures SameShape(scores, SetLast(answers, a))
    ensures AnswersFit(SetLast(answers, a), qc)
  {
  }

  predicate AllDistinct<T(==)>(s: seq<T>) {
    forall i, j :: 0 <= i < j < |s| ==> s[i] != s[j]
  }

  lemma DistinctAppend<T>(s: seq<T>, x: T)
    ensures AllDistinct(s) && x !in s ==> AllDistinct(s + [x])
  {
  }

  /** First position of `x` in `s` (Python's list.index; None where it raises ValueError). */
  function IndexOf<T(==)>(s: seq<T>, x: T): (r: Option<nat>)
    ensures r.None? <==> x !in s
    ensures r.Some? ==> r.value < |s| && s[r.value] == x && forall j :: 0 <= j < r.value ==> s[j] != x
  {
    if s == [] then None
    else if s[0] == x then Some(0)
    else
      var r := IndexOf(s[1..], x);
      if r.None? then None else Some(r.value + 1)
  }

  class StudentData {
    var scores: seq<seq<Option<int>>>
    var answers: seq<seq<seq<int>>>
    var groupIds: seq<GroupId>
    const questionCount: int
    var currentGroupId: Option<GroupId>
    var currentRecordId: Option<nat>

    /** The parallel lists agree in shape, the cursors name the last group and its last
        record, every recorded score lies in [0, questionCount] and no answer list is
        longer than questionCount. */
    ghost predicate Valid()
      reads this
    {
      && |scores| == |groupIds|
      && SameShape(scores, answers)
      && (currentGroupId.None? <==> groupIds == [])
      && (currentGroupId.Some? ==> currentGroupId.value == groupIds[|groupIds| - 1])
      && (currentRecordId.None? ==> groupIds == [] || answers[|answers| - 1] == [])
      && (currentRecordId.Some? ==> groupIds != [] && currentRecordId.value + 1 == |answers[|answers| - 1]|)
      && ScoresInRange(scores, questionCount)
      && AnswersFit(answers, questionCount)
    }

    /** The answers of the current record. */
    ghost function CurrentAnswers(): seq<int>
      requires Valid() && currentRecordId.Some?
      reads this
    {
      answers[|answers| - 1][|answers[|answers| - 1]| - 1]
    }

    /** The score of the current record (None until setScore). */
    ghost function CurrentScore(): Option<int>
      requires Valid() && currentRecordId.Some?
      reads this
    {
      scores[|scores| - 1][|scores[|scores| - 1]| - 1]
    }

    /** __init__ (itemal.py:181-187). */
    constructor (nItems: int)
      ensures Valid()
      ensures questionCount == nItems
      ensures scores == [] && answers == [] && groupIds == []
      ensures currentGroupId == None && currentRecordId == None
    {
      scores := [];
      answers := [];
      questionCount := nItems;
      groupIds := [];
      currentGroupId := None;
      currentRecordId := None;
    }

    /** totalRecordCount (itemal.py:201-202): the number of records over all groups. */
    function TotalRecordCount(): (r: nat)
      requires Valid()
      reads this
      ensures r == |Flatten(scores)| && r == |Flatten(answers)|
    {
      SumLengthsFlatten(scores);
      FlattenSameLength(scores, answers);
      SumLengths(scores)
    }

    /** groupIndexForId (itemal.py:204-206): the first position of the id, None where
        Python raises ValueError. */
    function GroupIndexForId(groupId: GroupId): (r: Option<nat>)
      reads this
      ensures r.None? <==> groupId !in groupIds
      ensures r.Some? ==> r.value < |groupIds| && groupIds[r.value] == groupId
      ensures r.Some? ==> forall j :: 0 <= j < r.value ==> groupIds[j] != groupId
    {
      IndexOf(groupIds, groupId)
    }

    /** True when the last record of the last group has no score: a record started and
        never scored. */
    ghost predicate Unfinished()
      reads this
    {
      scores != [] && scores[|scores| - 1] != [] && scores[|scores| - 1][|scores[|scores| - 1]| - 1].None?
    }

    /** The first step of startGroup (itemal.py:210-215): a record that was started
        and never scored is removed from the group being closed. */
    method DropUnfinished()
      requires Valid()
      modifies this
      ensures old(Unfinished()) ==> scores == DropLast(old(scores)) && answers == DropLast(old(answers))
      ensures !old(Unfinished()) ==> scores == old(scores) && answers == old(answers)
      ensures groupIds == old(groupIds) && currentGroupId == old(currentGroupId) && currentRecordId == old(currentRecordId)
      ensures |scores| == |groupIds| && SameShape(scores, answers)
      ensures ScoresInRange(scores, questionCount) && AnswersFit(answers, questionCount)
    {
      if currentGroupId.Some? && |scores[|scores| - 1]| > 0 {
        if scores[|scores| - 1][|scores[|scores| - 1]| - 1].None? {
          DropLastKeeps(scores, answers, questionCount);
          scores := DropLast(scores);
          answers := DropLast(answers);
        }
      }
    }

    /** startGroup (itemal.py:208-224): drop a trailing unscored record from the group
        being closed, then append an empty group. A missing id defaults to the smallest
        number from len(scores)+1 upwards that is not already an id. */
    method StartGroup(groupId: Option<GroupId>)
      requires Valid()
      modifies this
      ensures Valid()
      ensures old(Unfinished()) ==> scores == DropLast(old(scores)) + [[]] && answers == DropLast(old(answers)) + [[]]
      ensures !old(Unfinished()) ==> scores == old(scores) + [[]] && answers == old(answers) + [[]]
      ensures currentGroupId.Some? && groupIds == old(groupIds) + [currentGroupId.value]
      ensures currentRecordId == None
      ensures groupId.Some? ==> currentGroupId == groupId
      ensures groupId.None? ==> currentGroupId.value !in old(groupIds)
      ensures groupId.None? ==> currentGroupId.value.Num? && currentGroupId.value.n >= |old(scores)| + 1
      ensures groupId.None? ==> forall j :: |old(scores)| + 1 <= j < currentGroupId.value.n ==> Num(j) in old(groupIds)
      ensures old(AllDistinct(groupIds)) && currentGroupId.value !in old(groupIds) ==> AllDistinct(groupIds)
    {
      DropUnfinished();
      var id: GroupId;
      if groupId.None? {
        var k := DefaultGroupNumber(groupIds, |scores| + 1);
        id := Num(k);
      } else {
        id := groupId.value;
      }
      NewGroupKeeps(scores, answers, questionCount);
      DistinctAppend(groupIds, id);
      scores := scores + [[]];
      answers := answers + [[]];
      groupIds := groupIds + [id];
      currentGroupId := Some(id);
      currentRecordId := None;
    }

    /** startRecord (itemal.py:226-232): a blank record (no score, no answers) at the end
        of the current group, creating group 1 when there is no group yet. */
    method StartRecord()
      requires Valid()
      modifies this
      ensures Valid()
      ensures scores == WithNewRecord(old(scores), None)
      ensures answers == WithNewRecord(old(answers), [])
      ensures groupIds == OpenedIds(old(groupIds), None)
      ensures Flatten(scores) == Flatten(old(scores)) + [None]
      ensures Flatten(answers) == Flatten(old(answers)) + [[]]
      ensures currentRecordId.Some? && CurrentScore() == None && CurrentAnswers() == []
    {
      if currentGroupId.None? {
        ghost var ids0 := groupIds;
        assert scores == [] && answers == [] && ids0 == [];
        StartGroup(None);
        assert scores == [[]] && answers == [[]];
        assert Num(1) !in ids0;
        assert currentGroupId.value == Num(1);
        SingleGroup(scores, None);
        SingleGroup(answers, []);
      }
      AppendRecord();
    }

    /** The last three lines of startRecord (itemal.py:230-232): an empty record is
        appended to the current group and becomes the current record. */
    method AppendRecord()
      requires Valid() && currentGroupId.Some?
      modifies this`scores, this`answers, this`currentRecordId
      ensures Valid()
      ensures scores == AppendToLast(old(scores), None)
      ensures answers == AppendToLast(old(answers), [])
      ensures Flatten(scores) == Flatten(old(scores)) + [None]
      ensures Flatten(answers) == Flatten(old(answers)) + [[]]
      ensures currentRecordId.Some? && CurrentScore() == None && CurrentAnswers() == []
    {
      FlattenAppendToLast(scores, None);
      FlattenAppendToLast(answers, []);
      AppendKeeps(scores, answers, questionCount);
      scores := AppendToLast(scores, None);
      answers := AppendToLast(answers, []);
      currentRecordId := Some(|answers[|answers| - 1]| - 1);
    }

    /** The prologue of the record accessors: start a record when none is current. */
    method OpenRecord()
      requires Valid()
      modifies this
      ensures Valid() && currentRecordId.Some?
      ensures scores == Opened(old(scores), None, old(currentRecordId))
      ensures answers == Opened(old(answers), [], old(currentRecordId))
      ensures groupIds == OpenedIds(old(groupIds), old(currentRecordId))
      ensures old(currentRecordId).Some? ==> currentRecordId == old(currentRecordId) && currentGroupId == old(currentGroupId)
    {
      if currentRecordId.None? {
        StartRecord();
      }
    }

    /** The current record's score replaced by a score in range. */
    method PutScore(score: int)
      requires Valid() && currentRecordId.Some? && 0 <= score <= questionCount
      modifies this`scores
      ensures Valid() && scores == SetLast(old(scores), Some(score))
      ensures CurrentScore() == Some(score)
    {
      SetScoreKeeps(scores, answers, questionCount, score);
      scores := SetLast(scores, Some(score));
    }

    /** The current record's answers replaced by at most questionCount answers. */
    method PutAnswers(a: seq<int>)
      requires Valid() && currentRecordId.Some? && (|a| == 0 || |a| <= questionCount)
      modifies this`answers
      ensures Valid() && answers == SetLast(old(answers), a)
      ensures CurrentAnswers() == a
    {
      SetAnswersKeeps(scores, answers, questionCount, a);
      answers := SetLast(answers, a);
    }

    /** score (itemal.py:234-238): the current record's score, None while unset. */
    method Score() returns (s: Option<int>)
      requires Valid()
      modifies this
      ensures Valid() && currentRecordId.Some?
      ensures scores == Opened(old(scores), None, old(currentRecordId))
      ensures answers == Opened(old(answers), [], old(currentRecordId))
      ensures groupIds == OpenedIds(old(groupIds), old(currentRecordId))
      ensures s == CurrentScore()
      ensures s.Some? ==> 0 <= s.value <= questionCount
      ensures old(currentRecordId).None? ==> s == None
    {
      OpenRecord();
      s := scores[|scores| - 1][|scores[|scores| - 1]| - 1];
    }

    /** setScore (itemal.py:240-248): a score outside [0, questionCount] is refused after
        the record has been opened; otherwise it becomes the current record's score. */
    method SetScore(score: int) returns (r: Result<(), DataError>)
      requires Valid()
      modifies this
      ensures Valid() && currentRecordId.Some?
      ensures r.Ok? <==> 0 <= score <= questionCount
      ensures r.Err? ==> r.error == InvalidScore(score, questionCount)
      ensures r.Ok? ==> scores == SetLast(Opened(old(scores), None, old(currentRecordId)), Some(score))
      ensures r.Err? ==> scores == Opened(old(scores), None, old(currentRecordId))
      ensures answers == Opened(old(answers), [], old(currentRecordId))
      ensures groupIds == OpenedIds(old(groupIds), old(currentRecordId))
      ensures r.Ok? ==> CurrentScore() == Some(score)
    {
      OpenRecord();
      if score > questionCount || score < 0 {
        return Err(InvalidScore(score, questionCount));
      }
      PutScore(score);
      r := Ok(());
    }

    /** isAnswerListComplete (itemal.py:250-254). */
    method IsAnswerListComplete() returns (b: bool)
      requires Valid()
      modifies this
      ensures Valid() && currentRecordId.Some?
      ensures scores == Opened(old(scores), None, old(currentRecordId))
      ensures answers == Opened(old(answers), [], old(currentRecordId))
      ensures groupIds == OpenedIds(old(groupIds), old(currentRecordId))
      ensures b <==> |CurrentAnswers()| == questionCount
    {
      OpenRecord();
      b := |answers[|answers| - 1][|answers[|answers| - 1]| - 1]| == questionCount;
    }

    /** clearAnswers exactly as itemal.py:256-260 has it: the test is inverted, so with a
        current record a second, blank record is started and the first keeps its answers,
        and with none the assignment to answers[-1][-1] fails (IndexError). */
    method ClearAnswersAsWritten() returns (r: Result<(), DataError>)
      requires Valid()
      modifies this
      ensures Valid()
      ensures r.Err? <==> old(currentRecordId).None?
      ensures r.Err? ==> r.error == NoCurrentRecord && scores == old(scores) && answers == old(answers)
      ensures r.Ok? ==> scores == AppendToLast(old(scores), None) && answers == AppendToLast(old(answers), [])
      ensures r.Ok? ==> |answers| == old(|answers|) && answers[|answers| - 1][old(currentRecordId).value] == old(CurrentAnswers())
    {
      if currentRecordId.Some? {
        StartRecord();
        ghost var g := answers[|answers| - 1];
        assert g[|g| - 1 := []] == g;
        assert SetLast(answers, []) == answers;
        answers := SetLast(answers, []);
        return Ok(());
      }
      return Err(NoCurrentRecord);
    }

    /** clearAnswers as its documentation describes it: empty the current record's
        answers, opening a record first when none is current like the other accessors. */
    method ClearAnswers()
      requires Valid()
      modifies this
      ensures Valid() && currentRecordId.Some?
      ensures scores == Opened(old(scores), None, old(currentRecordId))
      ensures answers == SetLast(Opened(old(answers), [], old(currentRecordId)), [])
      ensures groupIds == OpenedIds(old(groupIds), old(currentRecordId))
      ensures CurrentAnswers() == []
    {
      OpenRecord();
      PutAnswers([]);
    }

    /** setAnswers (itemal.py:262-268): exactly questionCount answers replace the current
        record's answers; any other count is refused after the record has been opened. */
    method SetAnswers(newAnswers: seq<int>) returns (r: Result<(), DataError>)
      requires Valid()
      modifies this
      ensures Valid() && currentRecordId.Some?
      ensures r.Ok? <==> |newAnswers| == questionCount
      ensures r.Err? ==> r.error == InvalidAnswerList(|newAnswers|, questionCount)
      ensures r.Ok? ==> answers == SetLast(Opened(old(answers), [], old(currentRecordId)), newAnswers)
      ensures r.Err? ==> answers == Opened(old(answers), [], old(currentRecordId))
      ensures scores == Opened(old(scores), None, old(currentRecordId))
      ensures groupIds == OpenedIds(old(groupIds), old(currentRecordId))
      ensures r.Ok? ==> CurrentAnswers() == newAnswers
    {
      OpenRecord();
      if |newAnswers| != questionCount {
        return Err(InvalidAnswerList(|newAnswers|, questionCount));
      }
      PutAnswers(newAnswers);
      r := Ok(());
    }

    /** appendAnswer (itemal.py:270-276): one more answer, refused when the list is
        already full. */
    method AppendAnswer(answer: int) returns (r: Result<(), DataError>)
      requires Valid()
      modifies this
      ensures Valid() && currentRecordId.Some?
      ensures var before := Opened(old(answers), [], old(currentRecordId));
              var current := before[|before| - 1][|before[|before| - 1]| - 1];
              && (r.Ok? <==> |current| < questionCount)
              && (r.Ok? ==> answers == SetLast(before, current + [answer]))
              && (r.Err? ==> r.error == AnswerListFull && answers == before)
      ensures scores == Opened(old(scores), None, old(currentRecordId))
      ensures groupIds == OpenedIds(old(groupIds), old(currentRecordId))
      ensures |CurrentAnswers()| <= questionCount || CurrentAnswers() == []
    {
      OpenRecord();
      var current := answers[|answers| - 1][|answers[|answers| - 1]| - 1];
      if |current| >= questionCount {
        return Err(AnswerListFull);
      }
      PutAnswers(current + [answer]);
      r := Ok(());
    }

    /** appendAnswers (itemal.py:278-286): nothing at all happens for an empty list (not
        even opening a record); otherwise the answers are appended unless the list would
        then exceed questionCount. */
    method AppendAnswers(more: seq<int>) returns (r: Result<(), DataError>)
      requires Valid()
      modifies this
      ensures Valid()
      ensures more == [] ==> r.Ok? && scores == old(scores) && answers == old(answers) && groupIds == old(groupIds)
      ensures more == [] ==> currentRecordId == old(currentRecordId)
      ensures more != [] ==> currentRecordId.Some? && scores == Opened(old(scores), None, old(currentRecordId))
      ensures more != [] ==> groupIds == OpenedIds(old(groupIds), old(currentRecordId))
      ensures more != [] ==>
                var before := Opened(old(answers), [], old(currentRecordId));
                var current := before[|before| - 1][|before[|before| - 1]| - 1];
                && (r.Ok? <==> |current| + |more| <= questionCount)
                && (r.Ok? ==> answers == SetLast(before, current + more))
                && (r.Err? ==> r.error == AnswerOverflow(|more|, questionCount) && answers == before)
    {
      if |more| > 0 {
        OpenRecord();
        var current := answers[|answers| - 1][|answers[|answers| - 1]| - 1];
        if |current| + |more| > questionCount {
          return Err(AnswerOverflow(|more|, questionCount));
        }
        PutAnswers(current + more);
      }
      r := Ok(());
    }
  }
}
