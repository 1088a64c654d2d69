# ITEMAL item analysis: a verified model of its sequential core

`itemal.py` is a Python port of a 1960s FORTRAN item-analysis program. It reads a
test's answer key and every student's answers. It tallies, per item and per answer
choice, how many students chose what and with which scores. It then classifies each
item by difficulty, by distractor quality and by biserial correlation. This project
models the parts of that program that work on integers, lists and sparse arrays, and
proves what they compute:

- `SparseArray` (sparse_storage.dfy): `SparseStorage`, the sparse array of any rank
  kept as nested lists. It is a class whose concrete state is the nested list
  (`Cell` values), the high-water marks `maxDimension` and the fill value. Its ghost
  `Contents` map from keys to values is proved to be what the nested-list walk reads.
- `Students` (student_data.dfy): `StudentData`, the record keeper with parallel lists
  of scores, answers and group ids, and its current-group and current-record cursors.
- `Scoring` (scoring.dfy): the answer-key renumbering of reverse mode, the renumbering
  of student answers, and the score as the number of positions matching the key.
- `TallySpec` and `Tally` (tally_spec.dfy, tally.dfy): the per-section tally of the
  JSON reader.
  - `TallySpec` defines every counter (`ICOUNT`, `ITC`, `ITIC`, `JTOT`, `KSUM`, `ITAB`,
    `KOUNT`, `ISUM`, `ISUMSQ`) and the warnings as sums over the records read so far,
    and proves what those sums promise: ICOUNT counts the students who answered an
    item as the key does, ITC + ITIC = ISUM for every item, JTOT is the sum of ITAB
    over the groups, and only choices in [0, ICHO] are counted.
  - `Tally` is the imperative loop over groups, students and items. It updates real
    `SparseStorage` counters and is proved to keep every counter equal to its sum.
- `Classify` (classify.dfy): the threshold logic of `processTestResults` and of
  doLine630/doLine640. Ratios are exact `real`s.
- `Control`, `FormatCard`, `Numbers`, `Text` (control.dfy, format_card.dfy,
  numbers.dfy, text.dfy): the card-image control card, the answer key cards, the
  FORTRAN format card, and the reading of one student line through that format.
  They rest on models of Python 3's `int()`, `str.strip`, `str.split`/`join` and
  slicing.
- `Wrappers` (wrappers.dfy): `Option` and `Result`. A Python exception becomes an
  `Err` value or `None`.

Where the source raises, the model returns an error value instead of demanding the
input away. The exceptions are the preconditions named under "## Left out": ICHO <= 8
for the distractor flags, N != 0 for the classification steps, and counts within
[0, N] for the correlation loop.

## Model

| member | source | states |
|---|---|---|
| SparseArray.SparseStorage.constructor | itemal.py:64-71 | a new storage of rank >= 1 is empty: no lists, no high-water marks, every key reads the fill value |
| SparseArray.SparseStorage.Create | itemal.py:64-71 | construction fails exactly when the rank is below 1, with that rank in the error; otherwise the storage is fresh and empty |
| SparseArray.SparseStorage.ValueAtIndex | itemal.py:97-109 | a key of the wrong rank is an error naming both ranks; otherwise the value is what the abstract map holds, or the fill value for a key never materialised |
| SparseArray.SparseStorage.ClearAllValues | itemal.py:92-95 | the lists and marks are emptied, the fill value is kept, and every key of the rank then reads the fill value |
| SparseArray.SparseStorage.SetFillInValue | itemal.py:88-90 | only the fill value changes; cells already created as padding keep the old fill |
| SparseArray.SparseStorage.SetValueAtIndex | itemal.py:111-138 | fails with nothing changed exactly on a wrong-rank key, with an error naming both ranks; otherwise the key reads the new value, every other key of the rank reads what it read before, the nested list is the padded `Store`, and the marks are the high-water update |
| SparseArray.Descend | itemal.py:115-128 | the downward loop pads each intermediate level with empty lists, records the path, and raises the high-water marks of the levels it passes |
| SparseArray.StoreLast | itemal.py:129-138 | the last level is padded with the fill value up to the index and the value is written there; its high-water mark is raised |
| SparseArray.WriteBack | itemal.py:117-138 | putting the updated innermost list back along the path gives the whole updated nested list (what Python achieves by aliasing) |
| SparseArray.StoreRefines | itemal.py:101-138 | after a write, the nested-list walk still refines the abstract map: written key gets the value, padding keys get the fill, all else unchanged |
| SparseArray.WalkStore | itemal.py:101-138 | walking the updated list at any key of the rank gives the new value at the written key, the fill at a padding key, and the old walk elsewhere |
| SparseArray.BoundedStore | itemal.py:119-135 | the nested list never grows past the high-water marks kept in `_maxDimension` |
| SparseArray.AddValueAtIndex | itemal.py:140-142 | the key's value grows by delta and every other key is unchanged; a wrong-rank key is the error naming both ranks and changes nothing |
| SparseArray.ScaleValueAtIndex | itemal.py:144-146 | the key's value is multiplied and every other key is unchanged; a wrong-rank key is the error naming both ranks and changes nothing |
| Students.StudentData.constructor | itemal.py:181-187 | no groups, no records, no current group or record |
| Students.StudentData.TotalRecordCount | itemal.py:201-202 | the left fold of group sizes equals the number of records, in scores and in answers alike |
| Students.SumLengthsFlatten | itemal.py:201-202 | the sum of the group sizes is the length of the flattened list |
| Students.StudentData.GroupIndexForId | itemal.py:204-206 | None exactly when the id is absent; otherwise the first position holding it |
| Students.DefaultGroupNumber | itemal.py:216-219 | the default id is the first number from the start value that no group has yet |
| Students.StudentData.DropUnfinished | itemal.py:210-215 | a trailing record without a score is dropped from scores and answers alike; otherwise nothing changes |
| Students.StudentData.StartGroup | itemal.py:208-224 | the three lists stay the same length, an unfinished record is dropped first, a new empty group is added, a given id is used, and a defaulted id is a number absent before, so the ids stay distinct |
| Students.StudentData.StartRecord | itemal.py:226-232 | a blank record (no score, no answers) is added to the last group, creating a group first when there is none; flattened, exactly one record is appended |
| Students.StudentData.AppendRecord | itemal.py:230-232 | the blank record appended to the current group becomes the current record |
| Students.StudentData.Score | itemal.py:234-238 | the current record's score (opening a blank record first if needed), always within [0, questionCount] when set |
| Students.StudentData.SetScore | itemal.py:240-248 | a score outside [0, questionCount] is refused with that error after the record is opened; otherwise exactly the current record's score changes |
| Students.StudentData.IsAnswerListComplete | itemal.py:250-254 | true exactly when the current record holds questionCount answers |
| Students.StudentData.SetAnswers | itemal.py:262-268 | only exactly questionCount answers are accepted, and they replace the current record's answers and nothing else; any other count is refused with that error |
| Students.StudentData.AppendAnswer | itemal.py:270-276 | one answer is added to the current record unless it already holds questionCount, which is refused; no record exceeds questionCount |
| Students.StudentData.AppendAnswers | itemal.py:278-286 | an empty list changes nothing at all; otherwise the answers are appended unless the record would exceed questionCount, which is refused with nothing appended |
| Students.StudentData.ClearAnswersAsWritten | itemal.py:256-260 | as written: fails with no current record, and with one starts a second blank record and leaves the first one's answers in place |
| Students.StudentData.ClearAnswers | itemal.py:256-260 | as documented: the current record (opened if needed) has no answers, and nothing else changes |
| Scoring.FixupKeyInvolution | itemal.py:325-328 | renumbering the key in reverse mode twice with the same ICHO gives the key back |
| Scoring.ReverseAnswers | itemal.py:896-899 | the in-place loop renumbers every nonzero answer a to ICHO+1-a and keeps 0 |
| Scoring.FlipAnswerRange | itemal.py:896-899 | a renumbered answer is 0 exactly for 0 and ICHO+1; answers in [1, ICHO] stay in [1, ICHO]; other out-of-range answers stay out of range |
| Scoring.FlipAnswersInvolution | itemal.py:896-899 | renumbering twice restores every answer list that has no answer ICHO+1 |
| Scoring.FlipAnswersNotInvolutive | itemal.py:896-899 | the answer ICHO+1 becomes 0 and does not come back: with ICHO 4, [5] renumbered twice is [0] |
| Scoring.MatchesCountsPositions | itemal.py:891 | the score is the number of positions where the answer equals the key |
| Scoring.ReduceScore | itemal.py:891 | the reduce fails (TypeError) exactly for an empty zip; otherwise it counts the matching positions and lies in [0, ITEMN] |
| Scoring.ScoreAsWrittenMisses | itemal.py:891-899 | as written, in reverse mode a student who answers the key's choice scores 0 |
| Scoring.ScoreIndependentOfOrder | itemal.py:891-899 | with the key renumbered as fixupAnswerKey does, scoring the renumbered answers against the renumbered key counts the same matches as the original answers against the original key |
| Scoring.ScoreForward | itemal.py:891 | in forward mode the as-written and the corrected score agree |
| TallySpec.CorrectCountsStudents | itemal.py:905-908 | ICOUNT[x] is the number of students whose answer to item x equals the key, at most the number of students |
| TallySpec.ScoreSplit | itemal.py:905-910 | ITC[x] + ITIC[x] equals ISUM for every item x |
| TallySpec.OutOfRangeNotCounted | itemal.py:911-921 | JTOT, KSUM and ITAB hold nothing for a choice outside [0, ICHO] |
| TallySpec.ChoiceTotals | itemal.py:918-921 | JTOT[x, j] is the sum over the groups of ITAB[x, j, g] |
| TallySpec.GroupSizesAddUp | itemal.py:893 | the KOUNT entries of all groups add up to the number of students |
| TallySpec.ScoreSumIsCorrectSum | itemal.py:891-907 | ISUM is the sum over the items of ICOUNT when every score is the number of matches |
| TallySpec.ItemStepWarnings | itemal.py:911-916 | taking one more item into account adds exactly that item's warning, if any |
| TallySpec.ItemStep | itemal.py:905-921 | taking one more item into account changes each counter by that item's contribution and nothing else |
| Tally.SectionTally.constructor | itemal.py:1166-1187 | the counters of prepForDataRead are fresh, zero-filled storages of the right ranks, holding what no records contribute, and the key is renumbered |
| Tally.SectionTally.TallyKeyed | itemal.py:905-910 | one item: ICOUNT and ITC grow at the item for a match, ITIC otherwise, so the three keep holding their sums |
| Tally.SectionTally.TallyChoice | itemal.py:911-921 | one item: an answer outside [0, ICHO] only adds its warning; otherwise ITAB, JTOT and KSUM grow at the chosen option |
| Tally.SectionTally.TallyItem | itemal.py:905-921 | every counter and the warning list keep holding their sums when one more item is counted |
| Tally.SectionTally.TallyItems | itemal.py:905-921 | the item loop leaves every counter holding the sums over the records including this one |
| Tally.SectionTally.TallyRecordTotals | itemal.py:893-895 | KOUNT, ISUM and ISUMSQ grow by one student of this group and its score |
| Tally.StoreStudent | itemal.py:888-903 | the student's record is stored with its score and renumbered answers, and nothing else of the data changes |
| Tally.SectionTally.TallyRecord | itemal.py:884-921 | a student with other than ITEMN answers is refused with that error; otherwise the stored data and every counter account for one more record, scored with the corrected score |
| Tally.SectionTally.TallyGroup | itemal.py:882-921 | the students of one group are tallied in order; the loop fails exactly when some student's answer count is wrong |
| Tally.SectionTally.OpenGroup | itemal.py:880-881 | the group is opened with its given id, or a fresh one, and what was tallied is kept |
| Tally.SectionTally.ReadResponses | itemal.py:875-924 | succeeds exactly when every student of every group has ITEMN answers; then the stored data and every counter account for all records, scored with the corrected score, and ITN is their number |
| Tally.SectionTally.CountStudents | itemal.py:923 | ITN becomes the number of records |
| Classify.IsCloseZero | itemal.py:50-51 | isclose(x, 0.0) with the default tolerances is exact equality |
| Classify.IsCloseOne | itemal.py:1327 | isclose(count/N, 1.0), with the default tolerances of itemal.py:50-51, holds exactly when count == N, for any N below 999 999 999 |
| Classify.PassingBandPercent | itemal.py:1273-1288 | the difficulty row of a proportion in [0, 1] is the row of its percentage rounded up |
| Classify.PassingBandMonotone | itemal.py:1273-1288 | a harder item never lands in a higher difficulty row |
| Classify.StatData.CountDifficulty | itemal.py:1273-1288 | exactly one of IDO, IDTW, IDTH, IDFO, IDFI grows for a proportion of at most 1, a negative one counting in IDO; for a proportion above 1 one message is appended instead |
| Classify.StatData.CountDifficulties | itemal.py:1266-1288 | after the loop each counter grew by the number of items in its row and the messages name the items outside every row |
| Classify.EveryItemOnce | itemal.py:1273-1288 | every item is counted in exactly one row or has exactly one message |
| Classify.CountsInRange | itemal.py:1273-1288 | for counts between 0 and N no message is logged and every item is counted in a row |
| Classify.IndexBandWindows | itemal.py:1290-1301 | the first-match chain gives the largest IDI whose window holds the proportion |
| Classify.StatData.BandItems | itemal.py:1290-1301 | when KODE < 1, IDI holds the band of every item; otherwise it is left zero |
| Classify.FlagItem | itemal.py:1311-1318 | the three passes flag an option exactly when it draws too few students (the key: outside 20 %-80 %), or its students outscore the key's, or the key's students score below the mean; a key past the options reads PROP and CMEAN there as the fill value 0.0, as in a file's first section, and its column extends the row |
| Classify.KeyPastOptions | itemal.py:1311-1318 | when the key lies past the ICHO + 1 options and PROP and CMEAN read 0.0 there, as in a file's first section, its own column is flagged, the columns between are the fill value 0, and every option whose students scored above 0 is flagged, all of them when the test mean is positive |
| Classify.NoOptionsFlagKeyOnly | itemal.py:1311-1318 | with no options (a negative ICHO makes both option loops empty), only the key's column is written, flagged 2, and the CHEK threshold has no effect |
| Classify.StatData.FlagDistractors | itemal.py:1310-1318 | IDIST holds every item's flags as FlagItem defines them, with the CHEK entry of ICHO, for any key answer from 0 up and any ICHO up to 8 (a negative ICHO has no options), reading PROP and CMEAN past the options as 0.0 |
| Classify.Correlate | itemal.py:1320-1344 | an item is rated exactly when its proportion correct is positive and not 1; a flat score distribution gives biserial 0, the lowest row |
| Classify.CorrelatedCounts | itemal.py:1320-1344 | an item is rated exactly when some but not all students answered it correctly |
| Classify.ScoreBandMonotone | itemal.py:1225-1258 | a higher biserial never lands in a lower row nor gets a lower IBI |
| Classify.StatData.RateItem | itemal.py:1225-1258 | one rated item adds one to exactly its correlation row |
| Classify.StatData.RateItems | itemal.py:1320-1344 | BIS and IBI hold every item's biserial and code, and the six row counters grew by the number of rated items in each row |
| Classify.EveryRatedOnce | itemal.py:1225-1258 | the six row counters add up to the number of rated items |
| Classify.RatedItems | itemal.py:1320-1344 | the rows add up to the number of items some but not all students answered correctly |
| Numbers.IntOrDefault | itemal.py:149-154 | the number int() reads from the text, or the default exactly when int() raises |
| Numbers.ParseRender | itemal.py:149-154 | int(str(n)) == n |
| Numbers.ParseField | itemal.py:349-362 | a number written right-justified in a field of blanks reads back as that number |
| Numbers.ParseBlank | itemal.py:149-154 | a blank field is not a number, so it reads as the default |
| Control.ClampCopies | itemal.py:377-380 | the card-image copy count is clamped into [0, 2], in-range counts unchanged |
| Control.ClampsAgree | itemal.py:785-786 | the JSON reader's clamp, written the other way round, agrees with the card-image one |
| Control.ClampIdempotentMonotone | itemal.py:377-380 | clamping is idempotent and monotone |
| Control.ReadControlCard | itemal.py:343-380 | a job number of 0 ends the input; an answer order other than 1 or 2 is the ValueError; otherwise the fields come from their columns and the copy count is clamped |
| Control.ControlCardRoundTrip | itemal.py:343-380 | a card written in the columns the reader uses reads back as the same card |
| Control.BlankJobEnds | itemal.py:369-370 | a card with blank job-number columns ends the input |
| Control.ReadAnswerKey | itemal.py:385-390 | the answer-key loop reads cards until ITEMN answers are in, one answer per character; a non-digit or running out of cards fails |
| Control.KeyFromCovers | itemal.py:385-390 | a key read in full has at least ITEMN answers, each a digit from 0 to 9 |
| Control.CharValuesParse | itemal.py:389 | the card's characters are read by int() one at a time, and only digits succeed |
| Control.ChoicesAsWrittenMissesKey | itemal.py:826 | as written, the key 2, 3, 4 gets ICHO 3 while it uses choice 4 |
| Control.Choices | itemal.py:826 | as intended, ICHO is the largest answer of the key unless the range is given, and it fails only for an empty key without a range |
| Control.ChoicesAgreeFromOne | itemal.py:826 | for keys that use choice 1 the spread and the largest answer agree |
| Control.FinalCopiesRange | itemal.py:1364-1367 | for clamped counts the report is printed one to three times: three exactly when more than one copy was asked for |
| FormatCard.MatchWrite | itemal.py:398-405 | a field written as count, letter and width is matched by the pattern as that field |
| FormatCard.ParseFormatCard | itemal.py:393-405 | the loop over the card's pieces gives the fields in order or the ValueError for the first piece that is not a field |
| FormatCard.FormatCardRoundTrip | itemal.py:393-405 | a non-empty list of fields written as a format card reads back as those fields |
| FormatCard.EmptyFormatRejected | itemal.py:394-400 | the format card "()" is refused, since its one empty piece is not a field |
| FormatCard.ParseStudentDataLine | itemal.py:460-491 | the loops over fields and numbers compute the line's result: T moves the column, each I number is read, the first is the score or -1, the rest are answers |
| FormatCard.ReadField | itemal.py:468-487 | the inner loop over the numbers of one I field computes what those reads do in turn, stopping at the first error or new group |
| FormatCard.ReadNumber | itemal.py:470-487 | one number is read from its columns: not a number is the ValueError; the first number opens, continues or mismatches; later numbers are appended |
| FormatCard.FirstReadDecides | itemal.py:472-481 | a line starts a new group exactly when no score is carried and its first number is -1; a carried score that differs from the first number is the mismatch error |
| FormatCard.ReadLineShape | itemal.py:460-491 | a line read through keeps the previous answers in front, adds one answer per number after the first, and keeps or sets the score |
| FormatCard.ReadLineRoundTrip | itemal.py:460-491 | numbers written right-justified into the columns of an I-only format read back as the score and the answers |
| Text.StripIdempotent | itemal.py:394-395 | stripping twice is stripping once |
| Text.SplitJoin | itemal.py:395 | splitting the join of separator-free pieces gives the pieces back |
| Text.JoinSplit | itemal.py:395 | joining the pieces of a split gives the text back |

## Left out

- The command-line parsing and the file loop (itemal.py:1372-1515). These are I/O plumbing.
- The report layout of summarizeControlCard, printResults, doLine60 and doLine80
  (itemal.py:409-458, 560-754). These are output formatting only.
- JSON and YAML loading and dumping (itemal.py:757-1104). The JSON answer key and
  responses are inputs: `Tally.ResponseGroup` stands for one entry of "responses".
- `Control.ReadControlCard`: the date is kept as its raw text. The `strptime` check of
  it (itemal.py:383) is a library call, and a date it rejects is not modelled.
- The floating-point numerics. These are the normal-ordinate approximation, the
  biserial and point-biserial formulas, variance and deviation, KR-20 and SEMEAS
  (itemal.py:1201-1223, 1303-1308, 1346-1362).
  - The biserial and the spread test enter `Classify.RateItems` as inputs.
  - Ratios are exact reals, not IEEE doubles.
- `Classify.IsCloseOne`: proved for N below 999 999 999 only, where 1/N exceeds the
  relative tolerance; larger N are outside the model.
- `Classify.StatData.FlagDistractors`: requires ICHO <= 8. For a larger ICHO,
  `CHEK[ICHO]` (itemal.py:1312) raises, and that crash is not modelled.
- `Classify.StatData.RateItems` and its callers: processTestResults divides by N and
  N - 1. Only the classification steps are modelled, not the composed procedure with
  its divisions.
- `Classify.StatData.CountDifficulties`, `Classify.StatData.BandItems`,
  `Classify.StatData.FlagDistractors` and `Classify.StatData.RateItems` require
  N != 0. For a section without students, processTestResults raises ZeroDivisionError
  at its first division by FITN (itemal.py:1271-1273), and that crash is not modelled.
- `Classify.StatData.RateItems`: requires every ICOUNT entry to lie in [0, N]. A count
  above N gives DIFI > 1, which reaches doLine620 with Y still 0.0 and divides by it
  (itemal.py:1338-1339, 1220); a student count never exceeds N.
- `Classify.StatData.FlagDistractors`: requires every key answer to be 0 or more. This
  excludes two reverse-mode inputs that the source accepts without error.
  - A key answer of ICHO + 2 becomes KORAN -1, so k = 0. Column 0 of a storage row is
    a valid, padded cell. The source flags IDIST[i, 0] with 2, because PROP[i, 0] is
    0.0, and compares every option with CMEAN[i, 0] = 0.0 (itemal.py:1314, 1317). The
    model's IDIST rows start at option 1 and have no column 0.
  - A larger key answer gives k < 0. Python's negative indexing then reads and writes
    a column counted back from the end of the stored row instead of failing. This is
    not modelled.
- `Classify.FlagItem`, `Classify.KeyPastOptions` and `Classify.StatData.FlagDistractors`
  read PROP and CMEAN as 0.0 at a key column past the ICHO + 1 options. That is the
  fill value, and it is what a file's first section reads there.
  - PROP and CMEAN are created once per StatData (itemal.py:1136-1137), and
    prepForDataRead does not reset them (itemal.py:1166-1187).
  - A later JSON section with fewer options (a smaller ICHO, itemal.py:826) therefore
    reads, past its options, the PROP and CMEAN that an earlier section wrote.
  - The model does not carry those values from one section to the next.
- The FORTRAN path's readStudentData (itemal.py:493-553) is not modelled separately.
  - It duplicates the JSON tally.
  - It contains typos that raise AttributeError: `outData.answer` at line 520 and
    `self.statDate` at line 538.
  - Its reading of one line, parseStudentDataLine, is modelled.
- `FormatCard.ParseStudentDataLine` returns the new answer list instead of appending in
  place to the caller's list. On a ValueError the answers appended before the error
  are not modelled, since the caller discards them.
- The "Invalid field type" branch of parseStudentDataLine (itemal.py:488-489) cannot
  happen: the field pattern admits only I and T.
- The stored copies KTOT, TOT, FKSUM, PROP and CMEAN of processTestResults
  (itemal.py:1266-1272) are not modelled as storages. PROP and CMEAN enter
  `Classify.FlagItem` as rows of reals.
- The interpreter modelled is Python 3.6 or later. `int()` accepts underscores between
  digits (`Numbers.DigitRun`), and `str.strip()` also drops the separators 28 to 31
  (`Text.Whitespace`).
  - Under Python 3 the name `unicode` at itemal.py:825 and 883 is undefined. A JSON key
    or answer list given as a list of integers then raises NameError, and only the
    string form works there, converted character by character.
  - The model takes keys and answers as the integer lists that conversion produces.
    The NameError for list-valued keys and answers is not modelled.
- Negative keys into SparseStorage (Python's negative indexing) are not modelled. Keys
  are lists of naturals.
- The class-level `_allocIdx` counter (itemal.py:57-62) is global bookkeeping with no
  behaviour.
- `Tally.SectionTally.TallyRecord`, and with it `Tally.SectionTally.TallyGroup` and
  `Tally.SectionTally.ReadResponses`, score each student with the corrected score
  `Scoring.Score` (the renumbered answers against the renumbered key), not with the
  score as written at itemal.py:891 (see Findings). In reverse mode ISUM, ISUMSQ, ITC,
  ITIC, KSUM and the stored score therefore hold the corrected score. In forward mode
  the two agree (`Scoring.ScoreForward`).
- `Tally.SectionTally.ReadResponses`: its counters are sums of the corrected score, as
  the line above says; in reverse mode the source's ISUM, ISUMSQ, ITC, ITIC, KSUM and
  stored scores use the score as written instead.
- `Students.StudentData.AppendAnswers`: itemal.py:285 misplaces the parenthesis of
  `format(...)`, so the overflow raises IndexError rather than the ValueError
  intended. The model reports the overflow as an error and leaves the record unchanged.
- `Numbers.IntOrDefault`: models int() for ASCII digits, ASCII white space, one sign and
  single underscores between digits. Unicode digits and white space are left out.
- `Control.ReadAnswerKey`: its input is the sequence of non-blank, right-stripped lines
  that nextNonEmptyLineInFile (itemal.py:157-166) hands out. Running out of them stands
  for its EOFError.

## Findings

| source | as written | input that shows it | evidently intended | confidence | as-written member | corrected member |
|---|---|---|---|---|---|---|
| itemal.py:891 | the score compares the answers as read with the key that fixupAnswerKey has already renumbered | IDIG 2, ICHO 4, key [1], answers [1]: the stored key is [4], the score is 0 | score the renumbered answers against the renumbered key, as the later ICOUNT/ITC loop does | not executed; high | Scoring.ScoreAsWrittenMisses | Scoring.ScoreIndependentOfOrder |
| itemal.py:258 | `if self._currentRecordId is not None: self.startRecord()` starts a new record when one is current | a current record with answers [1, 2]: it keeps them and a second, blank record is added | open a record only when none is current, then empty its answers | not executed; high | Students.StudentData.ClearAnswersAsWritten | Students.StudentData.ClearAnswers |
| itemal.py:826 | ICHO = max(key) - min(key) + 1 | key [2, 3, 4] with no answer range: ICHO is 3 while choice 4 is used, so every correct answer 4 is reported as exceeding the choices | the number of choices, at least the largest key answer | not executed; medium | Control.ChoicesAsWrittenMissesKey | Control.Choices |
