/** The FORTRAN format card of the card-image input (itemal.py:335, 393-405) and the
    reading of one student data line through it (itemal.py:460-491). A format card
    such as `(I3,T10,5I1)` lists fields `[count]I width`, which read `count` numbers
    of `width` columns each, and `T column`, which moves to a column. */
module FormatCard {
  import opened Wrappers
  import opened Text
  import opened Numbers

  datatype Kind = I | T

  /** One field of the format card: its repeat count, its letter and its width. */
  datatype Field = Field(count: nat, kind: Kind, width: nat)

  /** The longest run of decimal digits at the start of `s`. */
  function DigitPrefix(s: string): (d: string)
    ensures |d| <= |s| && d == s[..|d|]
    ensures forall i :: 0 <= i < |d| ==> IsDigit(d[i])
    ensures |d| < |s| ==> !IsDigit(s[|d|])
  {
    if |s| > 0 && IsDigit(s[0]) then [s[0]] + DigitPrefix(s[1..]) else []
  }

  /** `fieldRegex.match(s)` for the pattern `(\d+)?([IT])(\d+)` (itemal.py:335),
      turned into a field as itemal.py:401-405 does: optional count digits (1 when
      absent), the letter, then the width digits; the match is anchored at the start
      only, so text after the width is ignored. */
  function MatchField(s: string): (r: Option<Field>)
  {
    var countDigits := DigitPrefix(s);
    MatchLetter(countDigits, s[|countDigits|..])
  }

  /** The rest of the match once the count digits are read: the letter must follow. */
  function MatchLetter(countDigits: string, rest: string): (r: Option<Field>)
    requires forall i :: 0 <= i < |countDigits| ==> IsDigit(countDigits[i])
  {
    if |rest| == 0 || (rest[0] != 'I' && rest[0] != 'T') then None
    else MatchWidth(countDigits, rest[0], DigitPrefix(rest[1..]))
  }

  /** The end of the match: at least one width digit must follow the letter. */
  function MatchWidth(countDigits: string, letter: char, widthDigits: string): (r: Option<Field>)
    requires forall i :: 0 <= i < |countDigits| ==> IsDigit(countDigits[i])
    requires forall i :: 0 <= i < |widthDigits| ==> IsDigit(widthDigits[i])
  {
    if widthDigits == [] then None
    else Some(Field(if countDigits == [] then 1 else Value(countDigits),
                    if letter == 'I' then I else T,
                    Value(widthDigits)))
  }

  function KindChar(k: Kind): char {
    if k == I then 'I' else 'T'
  }

  /** A field written back in the card's notation; a count of one is left out. */
  function WriteField(f: Field): (s: string)
    ensures |s| >= 2 && IsDigit(s[|s| - 1])
    ensures ',' !in s && (IsDigit(s[0]) || s[0] == 'I' || s[0] == 'T')
  {
    var countText := if f.count == 1 then "" else RenderNat(f.count);
    var s := countText + [KindChar(f.kind)] + RenderNat(f.width);
    assert s[|s| - 1] == RenderNat(f.width)[|RenderNat(f.width)| - 1];
    assert forall i :: 0 <= i < |s| ==> s[i] == KindChar(f.kind) || IsDigit(s[i]);
    s
  }

  /** The digit prefix of digits followed by a non-digit is those digits. */
  lemma {:induction false} DigitPrefixOf(d: string, t: string)
    requires forall i :: 0 <= i < |d| ==> IsDigit(d[i])
    requires t == [] || !IsDigit(t[0])
    ensures DigitPrefix(d + t) == d
  {
    if d != [] {
      assert (d + t)[0] == d[0] && (d + t)[1..] == d[1..] + t;
      DigitPrefixOf(d[1..], t);
    } else {
      assert d + t == t;
    }
  }

  /** Count digits, a letter and width digits match as those three parts. */
  lemma MatchParts(countText: string, letter: char, widthText: string)
    requires forall i :: 0 <= i < |countText| ==> IsDigit(countText[i])
    requires forall i :: 0 <= i < |widthText| ==> IsDigit(widthText[i])
    requires letter == 'I' || letter == 'T'
    ensures MatchField(countText + [letter] + widthText) == MatchWidth(countText, letter, widthText)
  {
    var tail := [letter] + widthText;
    var s := countText + [letter] + widthText;
    assert s == countText + tail;
    DigitPrefixOf(countText, tail);
    assert s[|countText|..] == tail;
    assert tail[1..] == widthText + [];
    DigitPrefixOf(widthText, []);
  }

  /** A written field matches as itself. */
  lemma MatchWrite(f: Field)
    ensures MatchField(WriteField(f)) == Some(f)
  {
    var countText := if f.count == 1 then "" else RenderNat(f.count);
    var widthText := RenderNat(f.width);
    MatchParts(countText, KindChar(f.kind), widthText);
    ValueOfRender(f.width);
    if f.count != 1 {
      ValueOfRender(f.count);
    }
  }

  /** The fields of the pieces of a format card, in order, or the first piece that is
      not a field (the ValueError of itemal.py:399-400). */
  function MatchFields(pieces: seq<string>): (r: Result<seq<Field>, string>)
    ensures r.Ok? ==> |r.value| == |pieces|
  {
    if |pieces| == 0 then Ok([])
    else MatchNext(MatchFields(pieces[..|pieces| - 1]), pieces[|pieces| - 1])
  }

  /** One more piece matched after those before it: an earlier failure stands, a
      piece that is not a field fails, and a field is appended. */
  function MatchNext(sofar: Result<seq<Field>, string>, piece: string): (r: Result<seq<Field>, string>)
    ensures sofar.Ok? && r.Ok? ==> |r.value| == |sofar.value| + 1
  {
    match sofar
    case Err(bad) => Err(bad)
    case Ok(fields) =>
      match MatchField(piece)
      case None => Err(piece)
      case Some(f) => Ok(fields + [f])
  }

  /** The card text as readHeader takes it apart: stripped of blanks, stripped of
      parentheses at both ends, split at the commas. */
  function Pieces(card: string): (pieces: seq<string>)
    ensures |pieces| >= 1
  {
    Split(Strip(Strip(card, Whitespace), {'(', ')'}), ',')
  }

  /** The format card reading of readHeader (itemal.py:393-405): the fields of the
      card in order, or the first piece that is not a field. */
  method ParseFormatCard(card: string) returns (r: Result<seq<Field>, string>)
    ensures r == MatchFields(Pieces(card))
  {
    var pieces := Pieces(card);
    var fmt: seq<Field> := [];
    var i := 0;
    while i < |pieces|
      invariant 0 <= i <= |pieces|
      invariant MatchFields(pieces[..i]) == Ok(fmt)
    {
      assert pieces[..i + 1][..i] == pieces[..i];
      var m := MatchField(pieces[i]);
      if m.None? {
        MatchFieldsStops(pieces, i + 1);
        return Err(pieces[i]);
      }
      fmt := fmt + [m.value];
      i := i + 1;
    }
    assert pieces[..i] == pieces;
    return Ok(fmt);
  }

  /** Once a piece fails to match, the card fails on that piece whatever follows. */
  lemma {:induction false} MatchFieldsStops(pieces: seq<string>, n: nat)
    requires n <= |pieces| && MatchFields(pieces[..n]).Err?
    ensures MatchFields(pieces) == MatchFields(pieces[..n])
    decreases |pieces| - n
  {
    if n < |pieces| {
      assert pieces[..n + 1][..n] == pieces[..n];
      MatchFieldsStops(pieces, n + 1);
    } else {
      assert pieces[..n] == pieces;
    }
  }

  /** Pieces that each match as a field match, together, as those fields. */
  lemma {:induction false} MatchAll(ps: seq<string>, fields: seq<Field>)
    requires |ps| == |fields|
    requires forall k :: 0 <= k < |ps| ==> MatchField(ps[k]) == Some(fields[k])
    ensures MatchFields(ps) == Ok(fields)
  {
    var n := |ps|;
    if n > 0 {
      assert MatchFields(ps) == MatchNext(MatchFields(ps[..n - 1]), ps[n - 1]);
      MatchAll(ps[..n - 1], fields[..n - 1]);
      assert MatchField(ps[n - 1]) == Some(fields[n - 1]);
      assert fields[..n - 1] + [fields[n - 1]] == fields;
    }
  }

  /** The written fields match as the fields themselves. */
  lemma MatchWrites(fields: seq<Field>)
    ensures MatchFields(WriteFields(fields)) == Ok(fields)
  {
    var ps := WriteFields(fields);
    forall k | 0 <= k < |ps|
      ensures MatchField(ps[k]) == Some(fields[k])
    {
      MatchWrite(fields[k]);
    }
    MatchAll(ps, fields);
  }

  function WriteFields(fields: seq<Field>): (ps: seq<string>)
    ensures |ps| == |fields|
    ensures forall k :: 0 <= k < |ps| ==> ps[k] == WriteField(fields[k])
  {
    seq(|fields|, k requires 0 <= k < |fields| => WriteField(fields[k]))
  }

  /** A format card written from its fields, in parentheses and separated by commas. */
  function WriteFormatCard(fields: seq<Field>): string
    requires |fields| >= 1
  {
    "(" + Join(WriteFields(fields), ',') + ")"
  }

  /** A written format card reads back as its fields. */
  lemma FormatCardRoundTrip(fields: seq<Field>)
    requires |fields| >= 1
    ensures MatchFields(Pieces(WriteFormatCard(fields))) == Ok(fields)
  {
    WrittenPieces(fields);
    MatchWrites(fields);
  }

  /** A written format card comes apart into the written fields. */
  lemma WrittenPieces(fields: seq<Field>)
    requires |fields| >= 1
    ensures Pieces(WriteFormatCard(fields)) == WriteFields(fields)
  {
    var ps := WriteFields(fields);
    WrittenBody(fields);
    SplitJoin(ps, ',');
    PiecesOfBody(Join(ps, ','));
  }

  /** A card is its body in parentheses: the pieces are the body's split. */
  lemma PiecesOfBody(body: string)
    requires |body| >= 1 && body[0] !in {'(', ')'} && body[|body| - 1] !in {'(', ')'}
    ensures Pieces("(" + body + ")") == Split(body, ',')
  {
    var card := "(" + body + ")";
    assert card[0] == '(' && card[|card| - 1] == ')';
    StripKeeps(card, Whitespace);
    StripParens(body);
  }

  /** The fields written and joined hold no parenthesis at either end, and no
      written field holds a comma. */
  lemma WrittenBody(fields: seq<Field>)
    requires |fields| >= 1
    ensures var body := Join(WriteFields(fields), ',');
      |body| >= 1 && body[0] !in {'(', ')'} && body[|body| - 1] !in {'(', ')'}
    ensures forall k :: 0 <= k < |fields| ==> ',' !in WriteFields(fields)[k]
  {
    JoinEnds(WriteFields(fields));
  }

  /** The parentheses around a card body are stripped, and nothing more. */
  lemma StripParens(body: string)
    requires |body| >= 1
    requires body[0] !in {'(', ')'} && body[|body| - 1] !in {'(', ')'}
    ensures Strip("(" + body + ")", {'(', ')'}) == body
  {
    var card := "(" + body + ")";
    assert card[|card| - 1] == ')' && card[..|card| - 1] == "(" + body;
    assert StripRight(card, {'(', ')'}) == StripRight("(" + body, {'(', ')'});
    assert ("(" + body)[|body|] == body[|body| - 1];
    assert StripRight("(" + body, {'(', ')'}) == "(" + body;
    assert ("(" + body)[0] == '(' && ("(" + body)[1..] == body;
    assert StripLeft("(" + body, {'(', ')'}) == StripLeft(body, {'(', ')'});
  }

  /** The joined fields start and end with no parenthesis and hold no comma inside a
      piece. */
  lemma {:induction false} JoinEnds(ps: seq<string>)
    requires |ps| >= 1
    requires forall k :: 0 <= k < |ps| ==> |ps[k]| >= 1
    requires forall k :: 0 <= k < |ps| ==> ps[k][0] != '(' && ps[k][0] != ')'
    requires forall k :: 0 <= k < |ps| ==> ps[k][|ps[k]| - 1] != '(' && ps[k][|ps[k]| - 1] != ')'
    ensures var j := Join(ps, ','); |j| >= 1 && j[0] == ps[0][0] && j[|j| - 1] == ps[|ps| - 1][|ps[|ps| - 1]| - 1]
  {
    if |ps| > 1 {
      JoinEnds(ps[1..]);
    }
  }

  /** A card with no fields between its parentheses is rejected. */
  lemma EmptyFormatRejected()
    ensures MatchFields(Pieces("()")) == Err("")
  {
    StripKeeps("()", Whitespace);
    assert StripRight("()", {'(', ')'}) == "";
    assert Split("", ',') == [""];
    assert MatchField("") == None;
  }

  // ----- Reading one student data line through the format (itemal.py:460-491) -----

  /** What the format does at one step: a `T` field moves to a column (the width is
      1-based, the column 0-based), and each of the `count` numbers of an `I` field
      is one read. */
  datatype Slot = Tab(column: int) | Read(width: nat)

  function Reads(n: nat, width: nat): (r: seq<Slot>)
    ensures |r| == n && forall k :: 0 <= k < n ==> r[k] == Read(width)
  {
    seq(n, _ => Read(width))
  }

  function FieldSlots(f: Field): seq<Slot> {
    if f.kind == T then [Tab(f.width as int - 1)] else Reads(f.count, f.width)
  }

  /** The steps of a whole format, field after field. */
  function Slots(fmt: seq<Field>): seq<Slot> {
    if |fmt| == 0 then [] else FieldSlots(fmt[0]) + Slots(fmt[1..])
  }

  /** What a line gives: a new group (the `(-1, None)` of itemal.py:478), or the
      score and the answers so far. */
  datatype Parsed = NewGroup | Line(score: Option<int>, answers: seq<int>)

  /** The ValueErrors of a line: a field `int()` rejects, at its 0-based column, or a
      score that differs from the one on the record's first line. */
  datatype LineError = NotANumber(column: int) | MismatchedScore(value: int, prevScore: int)

  /** Where the reading of a line stands: still scanning at a column with the number
      of reads done, or finished with an outcome. */
  datatype Scan =
    | Scanning(column: int, fieldIndex: nat, score: Option<int>, answers: seq<int>)
    | Done(outcome: Result<Parsed, LineError>)

  /** Reads the number in `w` columns from column `col`, as `int(line[col:col + w])`
      does; None when `int()` rejects the text. */
  type ColumnReader = (int, nat) -> Option<int>

  function ReadColumns(line: string): ColumnReader {
    (col: int, w: nat) => ParseInt(Slice(line, col, col + w))
  }

  /** One step of the reading. The first number read is the score: without a
      previous score, -1 announces a new group and anything else is the score; with
      one, it must repeat it. Every later number is an answer. */
  function Step(read: ColumnReader, prevScore: Option<int>, st: Scan, slot: Slot): Scan {
    match st
    case Done(_) => st
    case Scanning(col, idx, score, answers) =>
      match slot
      case Tab(c) => Scanning(c, idx, score, answers)
      case Read(w) => Advance(prevScore, col, idx, score, answers, w, read(col, w))
  }

  /** A read of `w` columns at `col` that gave `value` (None when `int()` rejected the
      text). */
  function Advance(prevScore: Option<int>, col: int, idx: nat, score: Option<int>, answers: seq<int>,
                   w: nat, value: Option<int>): Scan {
    match value
    case None => Done(Err(NotANumber(col)))
    case Some(v) =>
      if idx == 0 then
        if prevScore.None? then
          if v == -1 then Done(Ok(NewGroup)) else Scanning(col + w, 1, Some(v), answers)
        else if prevScore.value != v then Done(Err(MismatchedScore(v, prevScore.value)))
        else Scanning(col + w, 1, score, answers)
      else Scanning(col + w, idx + 1, score, answers + [v])
  }

  /** The steps taken one after the other. */
  function Run(read: ColumnReader, prevScore: Option<int>, st: Scan, slots: seq<Slot>): Scan
    decreases |slots|
  {
    if |slots| == 0 then st else Run(read, prevScore, Step(read, prevScore, st, slots[0]), slots[1..])
  }

  function Outcome(st: Scan): Result<Parsed, LineError> {
    match st
    case Done(r) => r
    case Scanning(_, _, score, answers) => Ok(Line(score, answers))
  }

  /** The reference reading of a line: the format's steps from column 0, with the
      previous line's score and answers. */
  function ReadLine(line: string, fmt: seq<Field>, prevScore: Option<int>, prevAnswers: seq<int>): Result<Parsed, LineError> {
    Outcome(Run(ReadColumns(line), prevScore, Scanning(0, 0, prevScore, prevAnswers), Slots(fmt)))
  }

  /** `parseStudentDataLine` (itemal.py:460-491): the fields of the format in turn,
      the numbers of each `I` field read from consecutive columns. */
  method ParseStudentDataLine(line: string, fmt: seq<Field>, prevScore: Option<int>, prevAnswers: seq<int>)
    returns (r: Result<Parsed, LineError>)
    ensures r == ReadLine(line, fmt, prevScore, prevAnswers)
  {
    ghost var read := ReadColumns(line);
    ghost var goal := Run(read, prevScore, Scanning(0, 0, prevScore, prevAnswers), Slots(fmt));
    var score := prevScore;
    var answers := prevAnswers;
    var lastIndex := 0;
    var fieldIndex: nat := 0;
    var k := 0;
    while k < |fmt|
      invariant 0 <= k <= |fmt|
      invariant Run(read, prevScore, Scanning(lastIndex, fieldIndex, score, answers), Slots(fmt[k..])) == goal
    {
      var field := fmt[k];
      ghost var after := Slots(fmt[k + 1..]);
      SlotsAt(fmt, k);
      if field.kind == T {
        RunCons(read, prevScore, Scanning(lastIndex, fieldIndex, score, answers), Tab(field.width as int - 1), after);
        lastIndex := field.width as int - 1;
        assert Run(read, prevScore, Scanning(lastIndex, fieldIndex, score, answers), after) == goal;
      } else {
        var next := ReadField(line, prevScore, lastIndex, fieldIndex, score, answers, field.count, field.width);
        RunAppend(read, prevScore, Scanning(lastIndex, fieldIndex, score, answers), Reads(field.count, field.width), after);
        if next.Done? {
          RunDone(read, prevScore, next.outcome, after);
          return next.outcome;
        }
        lastIndex, fieldIndex, score, answers := next.column, next.fieldIndex, next.score, next.answers;
        assert Run(read, prevScore, Scanning(lastIndex, fieldIndex, score, answers), after) == goal;
      }
      k := k + 1;
    }
    assert fmt[k..] == [];
    return Ok(Line(score, answers));
  }

  /** The `count` numbers of one `I` field (itemal.py:468-487), read from consecutive
      columns from `lastIndex`; the reading stops at the first error or new group. */
  method ReadField(line: string, prevScore: Option<int>, lastIndex: int, fieldIndex: nat,
                   score: Option<int>, answers: seq<int>, count: nat, width: nat) returns (next: Scan)
    ensures next == Run(ReadColumns(line), prevScore, Scanning(lastIndex, fieldIndex, score, answers), Reads(count, width))
  {
    ghost var read := ReadColumns(line);
    ghost var goal := Run(read, prevScore, Scanning(lastIndex, fieldIndex, score, answers), Reads(count, width));
    next := Scanning(lastIndex, fieldIndex, score, answers);
    var nItems := count;
    while nItems > 0
      invariant next.Scanning?
      invariant Run(read, prevScore, next, Reads(nItems, width)) == goal
    {
      ReadsStep(read, prevScore, next, nItems, width);
      next := ReadNumber(line, prevScore, next.column, next.fieldIndex, next.score, next.answers, width);
      if next.Done? {
        RunDone(read, prevScore, next.outcome, Reads(nItems - 1, width));
        return;
      }
      nItems := nItems - 1;
    }
  }

  /** One number of an `I` field (itemal.py:470-487): the columns from `lastIndex` are
      read, and the number is taken as the score or appended to the answers. */
  method ReadNumber(line: string, prevScore: Option<int>, lastIndex: int, fieldIndex: nat,
                    score: Option<int>, answers: seq<int>, width: nat) returns (next: Scan)
    ensures next == Step(ReadColumns(line), prevScore, Scanning(lastIndex, fieldIndex, score, answers), Read(width))
  {
    var value := ParseInt(Slice(line, lastIndex, lastIndex + width));
    if value.None? {
      return Done(Err(NotANumber(lastIndex)));
    }
    var v := value.value;
    var newScore := score;
    var newAnswers := answers;
    if fieldIndex == 0 {
      if prevScore.None? {
        if v == -1 {
          return Done(Ok(NewGroup));
        }
        newScore := Some(v);
      } else if prevScore.value != v {
        return Done(Err(MismatchedScore(v, prevScore.value)));
      }
    } else {
      newAnswers := answers + [v];
    }
    return Scanning(lastIndex + width, fieldIndex + 1, newScore, newAnswers);
  }

  /** The steps from field `k` on are those of field `k`, then those of the rest. */
  lemma SlotsAt(fmt: seq<Field>, k: nat)
    requires k < |fmt|
    ensures Slots(fmt[k..]) == FieldSlots(fmt[k]) + Slots(fmt[k + 1..])
  {
    assert fmt[k..][0] == fmt[k] && fmt[k..][1..] == fmt[k + 1..];
  }

  /** The first number of an `I` field read before the numbers after it. */
  lemma ReadsStep(read: ColumnReader, prevScore: Option<int>, st: Scan, n: nat, width: nat)
    requires n > 0
    ensures Run(read, prevScore, st, Reads(n, width)) == Run(read, prevScore, Step(read, prevScore, st, Read(width)), Reads(n - 1, width))
  {
    assert Reads(n, width) == [Read(width)] + Reads(n - 1, width);
    RunCons(read, prevScore, st, Read(width), Reads(n - 1, width));
  }

  /** Running a step and then the rest. */
  lemma RunCons(read: ColumnReader, prevScore: Option<int>, st: Scan, slot: Slot, rest: seq<Slot>)
    ensures Run(read, prevScore, st, [slot] + rest) == Run(read, prevScore, Step(read, prevScore, st, slot), rest)
  {
    assert ([slot] + rest)[0] == slot && ([slot] + rest)[1..] == rest;
  }

  /** Running two lists of steps is running the first and then the second. */
  lemma {:induction false} RunAppend(read: ColumnReader, prevScore: Option<int>, st: Scan, first: seq<Slot>, second: seq<Slot>)
    ensures Run(read, prevScore, st, first + second) == Run(read, prevScore, Run(read, prevScore, st, first), second)
    decreases |first|
  {
    if |first| > 0 {
      assert (first + second)[0] == first[0] && (first + second)[1..] == first[1..] + second;
      RunAppend(read, prevScore, Step(read, prevScore, st, first[0]), first[1..], second);
    } else {
      assert first + second == second;
    }
  }

  /** A finished reading stays finished: once a line has given its outcome, the
      fields after it are not read. */
  lemma {:induction false} RunDone(read: ColumnReader, prevScore: Option<int>, r: Result<Parsed, LineError>, slots: seq<Slot>)
    ensures Run(read, prevScore, Done(r), slots) == Done(r)
    decreases |slots|
  {
    if |slots| > 0 {
      RunDone(read, prevScore, r, slots[1..]);
    }
  }

  /** How many numbers the steps read. */
  function ReadCount(slots: seq<Slot>): nat {
    if |slots| == 0 then 0 else (if slots[0].Read? then 1 else 0) + ReadCount(slots[1..])
  }

  /** The first number the steps read, from column `col` on: None when there is no
      read at all or `int()` rejects the first one. */
  function FirstRead(read: ColumnReader, slots: seq<Slot>, col: int): Option<int> {
    if |slots| == 0 then None
    else match slots[0]
      case Tab(c) => FirstRead(read, slots[1..], c)
      case Read(w) => read(col, w)
  }

  /** A line that reads through keeps the answers it was given in front and adds one
      answer per number after the first. */
  lemma {:induction false} RunAnswers(read: ColumnReader, p: Option<int>, col: int, idx: nat, score: Option<int>, ans: seq<int>, slots: seq<Slot>)
    ensures var e := Run(read, p, Scanning(col, idx, score, ans), slots);
      e.Scanning? ==>
        && e.fieldIndex == idx + ReadCount(slots)
        && |e.answers| == |ans| + ReadCount(slots) - (if idx == 0 && ReadCount(slots) > 0 then 1 else 0)
        && e.answers[..|ans|] == ans
    decreases |slots|
  {
    if |slots| > 0 {
      var st := Scanning(col, idx, score, ans);
      var next := Step(read, p, st, slots[0]);
      assert Run(read, p, st, slots) == Run(read, p, next, slots[1..]);
      if next.Done? {
        RunDone(read, p, next.outcome, slots[1..]);
      } else {
        RunAnswers(read, p, next.column, next.fieldIndex, next.score, next.answers, slots[1..]);
        var e := Run(read, p, next, slots[1..]);
        if e.Scanning? && idx > 0 && slots[0].Read? {
          assert next.answers == ans + [next.answers[|ans|]];
          assert e.answers[..|ans|] == e.answers[..|ans| + 1][..|ans|];
        }
      }
    }
  }

  /** The score of a line that reads through is its first number when there was no
      previous score, and the score it started with otherwise. */
  lemma {:induction false} RunScore(read: ColumnReader, p: Option<int>, col: int, idx: nat, score: Option<int>, ans: seq<int>, slots: seq<Slot>)
    ensures var e := Run(read, p, Scanning(col, idx, score, ans), slots);
      e.Scanning? ==>
        e.score == (if idx == 0 && ReadCount(slots) > 0 && p.None? then FirstRead(read, slots, col) else score)
    decreases |slots|
  {
    if |slots| > 0 {
      var st := Scanning(col, idx, score, ans);
      var next := Step(read, p, st, slots[0]);
      assert Run(read, p, st, slots) == Run(read, p, next, slots[1..]);
      if next.Done? {
        RunDone(read, p, next.outcome, slots[1..]);
      } else {
        RunScore(read, p, next.column, next.fieldIndex, next.score, next.answers, slots[1..]);
        assert ReadCount(slots) == (if slots[0].Read? then 1 else 0) + ReadCount(slots[1..]);
        match slots[0]
        case Tab(c) =>
          assert FirstRead(read, slots, col) == FirstRead(read, slots[1..], c);
          assert next == Scanning(c, idx, score, ans);
        case Read(w) =>
          assert FirstRead(read, slots, col) == read(col, w);
          assert next.fieldIndex > 0;
          assert idx == 0 && p.None? ==> next.score == FirstRead(read, slots, col);
          assert idx != 0 || p.Some? ==> next.score == score;
      }
    }
  }

  /** A reading only ever finishes early with an error or a new group. */
  lemma {:induction false} RunStopsEarly(read: ColumnReader, p: Option<int>, st: Scan, slots: seq<Slot>)
    requires st.Done? ==> st.outcome.Err? || st.outcome.value == NewGroup
    ensures var e := Run(read, p, st, slots); e.Done? ==> e.outcome.Err? || e.outcome.value == NewGroup
    decreases |slots|
  {
    if |slots| > 0 {
      RunStopsEarly(read, p, Step(read, p, st, slots[0]), slots[1..]);
    }
  }

  /** A line announces a new group exactly when there was no previous score and the
      first number read, before any answer, is -1. */
  lemma {:induction false} RunNewGroup(read: ColumnReader, p: Option<int>, col: int, idx: nat, score: Option<int>, ans: seq<int>, slots: seq<Slot>)
    ensures Run(read, p, Scanning(col, idx, score, ans), slots) == Done(Ok(NewGroup))
        <==> idx == 0 && p.None? && FirstRead(read, slots, col) == Some(-1)
    decreases |slots|
  {
    if |slots| > 0 {
      var st := Scanning(col, idx, score, ans);
      var next := Step(read, p, st, slots[0]);
      assert Run(read, p, st, slots) == Run(read, p, next, slots[1..]);
      if next.Done? {
        RunDone(read, p, next.outcome, slots[1..]);
      } else {
        RunNewGroup(read, p, next.column, next.fieldIndex, next.score, next.answers, slots[1..]);
      }
    }
  }

  /** On a continuation line, a first number that differs from the previous score is
      rejected (the ValueError of itemal.py:480-481). */
  lemma {:induction false} RunMismatch(read: ColumnReader, q: int, col: int, score: Option<int>, ans: seq<int>, slots: seq<Slot>)
    requires FirstRead(read, slots, col).Some? && FirstRead(read, slots, col).value != q
    ensures Run(read, Some(q), Scanning(col, 0, score, ans), slots)
         == Done(Err(MismatchedScore(FirstRead(read, slots, col).value, q)))
    decreases |slots|
  {
    var st := Scanning(col, 0, score, ans);
    var next := Step(read, Some(q), st, slots[0]);
    assert Run(read, Some(q), st, slots) == Run(read, Some(q), next, slots[1..]);
    if slots[0].Tab? {
      RunMismatch(read, q, slots[0].column, score, ans, slots[1..]);
    } else {
      RunDone(read, Some(q), next.outcome, slots[1..]);
    }
  }

  /** The first number the format reads from a line. */
  function FirstNumber(line: string, fmt: seq<Field>): Option<int> {
    FirstRead(ReadColumns(line), Slots(fmt), 0)
  }

  /** What the first number of a line decides (itemal.py:472-481): -1 without a
      previous score starts a new group, and nothing else does; a number other than
      the previous score is an error. */
  lemma FirstReadDecides(line: string, fmt: seq<Field>, prevScore: Option<int>, prevAnswers: seq<int>)
    ensures ReadLine(line, fmt, prevScore, prevAnswers) == Ok(NewGroup)
        <==> prevScore.None? && FirstNumber(line, fmt) == Some(-1)
    ensures prevScore.Some? && FirstNumber(line, fmt).Some? && FirstNumber(line, fmt).value != prevScore.value
        ==> ReadLine(line, fmt, prevScore, prevAnswers) == Err(MismatchedScore(FirstNumber(line, fmt).value, prevScore.value))
  {
    RunNewGroup(ReadColumns(line), prevScore, 0, 0, prevScore, prevAnswers, Slots(fmt));
    if prevScore.Some? && FirstNumber(line, fmt).Some? && FirstNumber(line, fmt).value != prevScore.value {
      RunMismatch(ReadColumns(line), prevScore.value, 0, prevScore, prevAnswers, Slots(fmt));
    }
  }

  /** A line that is read through keeps the previous answers in front and adds one
      answer per number after the score; the score is the first number on a record's
      first line and the previous score on its continuation lines. */
  lemma ReadLineShape(line: string, fmt: seq<Field>, prevScore: Option<int>, prevAnswers: seq<int>)
    ensures var r := ReadLine(line, fmt, prevScore, prevAnswers);
      var n := ReadCount(Slots(fmt));
      r.Ok? && r.value.Line? ==>
        && |r.value.answers| == |prevAnswers| + (if n > 0 then n - 1 else 0)
        && r.value.answers[..|prevAnswers|] == prevAnswers
        && r.value.score == (if n > 0 && prevScore.None? then FirstNumber(line, fmt) else prevScore)
  {
    RunAnswers(ReadColumns(line), prevScore, 0, 0, prevScore, prevAnswers, Slots(fmt));
    RunScore(ReadColumns(line), prevScore, 0, 0, prevScore, prevAnswers, Slots(fmt));
    RunStopsEarly(ReadColumns(line), prevScore, Scanning(0, 0, prevScore, prevAnswers), Slots(fmt));
  }

  // ----- Writing a line that the format reads back -----

  function ReadSlots(ws: seq<nat>): (r: seq<Slot>)
    ensures |r| == |ws| && forall k :: 0 <= k < |ws| ==> r[k] == Read(ws[k])
  {
    seq(|ws|, k requires 0 <= k < |ws| => Read(ws[k]))
  }

  /** A format of `I` fields only. */
  predicate AllI(fmt: seq<Field>) {
    forall k :: 0 <= k < |fmt| ==> fmt[k].kind == I
  }

  /** The widths of the numbers such a format reads, in order. */
  function Widths(fmt: seq<Field>): seq<nat> {
    if |fmt| == 0 then [] else seq(fmt[0].count, _ => fmt[0].width) + Widths(fmt[1..])
  }

  lemma ReadSlotsAppend(a: seq<nat>, b: seq<nat>)
    ensures ReadSlots(a + b) == ReadSlots(a) + ReadSlots(b)
  {
    assert forall k :: 0 <= k < |a + b| ==> ReadSlots(a + b)[k] == (ReadSlots(a) + ReadSlots(b))[k];
  }

  /** A format of `I` fields reads one number per width, and moves nowhere else. */
  lemma {:induction false} SlotsOfAllI(fmt: seq<Field>)
    requires AllI(fmt)
    ensures Slots(fmt) == ReadSlots(Widths(fmt))
  {
    if |fmt| > 0 {
      SlotsOfAllI(fmt[1..]);
      var w := seq(fmt[0].count, _ => fmt[0].width);
      assert Reads(fmt[0].count, fmt[0].width) == ReadSlots(w);
      ReadSlotsAppend(w, Widths(fmt[1..]));
    }
  }

  /** Numbers that fit the widths they are to be written in. */
  predicate Fits(vs: seq<int>, ws: seq<nat>) {
    |vs| == |ws| && forall k :: 0 <= k < |vs| ==> |Render(vs[k])| <= ws[k]
  }

  /** The numbers written right-justified one after the other, each in its width. */
  function Cells(vs: seq<int>, ws: seq<nat>): (line: string)
    requires Fits(vs, ws)
    decreases |vs|
  {
    if |vs| == 0 then "" else Numbers.Field(vs[0], ws[0]) + Cells(vs[1..], ws[1..])
  }

  /** `read` finds the numbers `vs` in consecutive fields of widths `ws` from `col`. */
  predicate ReadsAt(read: ColumnReader, col: int, vs: seq<int>, ws: seq<nat>)
    requires |vs| == |ws|
    decreases |vs|
  {
    |vs| == 0 || (read(col, ws[0]) == Some(vs[0]) && ReadsAt(read, col + ws[0], vs[1..], ws[1..]))
  }

  /** Answers read after the score are appended in the order they are read. */
  lemma {:induction false} RunReads(read: ColumnReader, p: Option<int>, col: int, idx: nat, score: Option<int>, ans: seq<int>, vs: seq<int>, ws: seq<nat>)
    requires |vs| == |ws| && idx >= 1 && ReadsAt(read, col, vs, ws)
    ensures Outcome(Run(read, p, Scanning(col, idx, score, ans), ReadSlots(ws))) == Ok(Line(score, ans + vs))
    decreases |vs|
  {
    var slots := ReadSlots(ws);
    if |vs| == 0 {
      assert slots == [];
      assert ans + vs == ans;
    } else {
      assert slots[0] == Read(ws[0]) && slots[1..] == ReadSlots(ws[1..]);
      assert Step(read, p, Scanning(col, idx, score, ans), slots[0]) == Scanning(col + ws[0], idx + 1, score, ans + [vs[0]]);
      RunReads(read, p, col + ws[0], idx + 1, score, ans + [vs[0]], vs[1..], ws[1..]);
      assert ans + [vs[0]] + vs[1..] == ans + vs;
    }
  }

  /** Each number written into its columns is read back from those columns. */
  lemma {:induction false} CellsRead(line: string, pre: string, vs: seq<int>, ws: seq<nat>)
    requires Fits(vs, ws) && line == pre + Cells(vs, ws)
    ensures ReadsAt(ReadColumns(line), |pre|, vs, ws)
    decreases |vs|
  {
    if |vs| > 0 {
      var f := Numbers.Field(vs[0], ws[0]);
      var rest := Cells(vs[1..], ws[1..]);
      assert line == (pre + f) + rest;
      ParseField(vs[0], ws[0]);
      ColumnsOfCell(line, pre, f, rest);
      CellsRead(line, pre + f, vs[1..], ws[1..]);
    }
  }

  /** The columns that hold `f` read as `f` does. */
  lemma ColumnsOfCell(line: string, pre: string, f: string, rest: string)
    requires line == (pre + f) + rest
    ensures ReadColumns(line)(|pre|, |f|) == ParseInt(f)
  {
    assert line[|pre|..|pre| + |f|] == f;
    assert Slice(line, |pre|, |pre| + |f|) == f;
  }

  /** Numbers found in consecutive fields from column 0 are read as the score and the
      answers that follow it, when the first may open or continue the record. */
  lemma RunFirstThenReads(read: ColumnReader, p: Option<int>, ans: seq<int>, vs: seq<int>, ws: seq<nat>)
    requires |vs| == |ws| && |vs| >= 1 && ReadsAt(read, 0, vs, ws)
    requires p == Some(vs[0]) || (p.None? && vs[0] != -1)
    ensures Outcome(Run(read, p, Scanning(0, 0, p, ans), ReadSlots(ws))) == Ok(Line(Some(vs[0]), ans + vs[1..]))
  {
    var start := Scanning(0, 0, p, ans);
    assert ReadSlots(ws) == [Read(ws[0])] + ReadSlots(ws[1..]);
    RunCons(read, p, start, Read(ws[0]), ReadSlots(ws[1..]));
    assert Step(read, p, start, Read(ws[0])) == Scanning(ws[0], 1, Some(vs[0]), ans);
    RunReads(read, p, ws[0], 1, Some(vs[0]), ans, vs[1..], ws[1..]);
  }

  /** Numbers written right-justified into the columns of a format of `I` fields are
      read back: the first as the score (it must not be -1 on a record's first line,
      and must repeat the score on a continuation line), the rest as answers after
      those of the previous line. */
  lemma ReadLineRoundTrip(fmt: seq<Field>, vs: seq<int>, prevScore: Option<int>, prevAnswers: seq<int>)
    requires AllI(fmt) && Fits(vs, Widths(fmt)) && |vs| >= 1
    requires prevScore == Some(vs[0]) || (prevScore.None? && vs[0] != -1)
    ensures ReadLine(Cells(vs, Widths(fmt)), fmt, prevScore, prevAnswers) == Ok(Line(Some(vs[0]), prevAnswers + vs[1..]))
  {
    var ws := Widths(fmt);
    var line := Cells(vs, ws);
    SlotsOfAllI(fmt);
    assert line == "" + Cells(vs, ws);
    CellsRead(line, "", vs, ws);
    RunFirstThenReads(ReadColumns(line), prevScore, prevAnswers, vs, ws);
  }
}
