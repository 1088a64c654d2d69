/** The control information of a test: the control card of the card-image input
    (itemal.py:343-390), the number of choices derived from the answer key of the
    JSON input (itemal.py:823-826), the copy count clamps and the final copy count
    of the report (itemal.py:377-380, 785-786, 1364-1367). */
module Control {
  import opened Wrappers
  import opened Text
  import opened Numbers

  /** The values the control card carries: job number KTC, course, instructor, raw
      date, ITN students, ITEMN items, KODE, ICHO choices, IDIG answer order, IUNT
      and NCOPY copies. */
  datatype Card = Card(ktc: int, course: string, instructor: string, rawDate: string,
                       itn: int, itemn: int, kode: int, icho: int, idig: int, iunt: int,
                       ncopy: int)

  /** What reading a control card leads to: the end of the input (a job number of
      zero), the ValueError for an answer order other than 1 or 2, or the card. */
  datatype CardOutcome = EndOfTests | BadOrder(idig: int) | Read(card: Card)

  /** The copy count clamp of the card-image reader (itemal.py:377-380). */
  function ClampCopies(ncopy: int): (r: int)
    ensures 0 <= r <= 2
    ensures 0 <= ncopy <= 2 ==> r == ncopy
  {
    if ncopy < 0 then 0 else if ncopy > 2 then 2 else ncopy
  }

  /** The copy count clamp of the JSON reader (itemal.py:785-786), written its own
      way round. */
  function ClampCopiesOption(ncopy: int): (r: int)
    ensures 0 <= r <= 2
  {
    if ncopy >= 2 then 2 else if ncopy <= 0 then 0 else ncopy
  }

  /** Both readers clamp the copy count alike: nearest to the request within [0, 2]. */
  lemma ClampsAgree(ncopy: int)
    ensures ClampCopiesOption(ncopy) == ClampCopies(ncopy)
    ensures ncopy < 0 ==> ClampCopies(ncopy) == 0
    ensures ncopy > 2 ==> ClampCopies(ncopy) == 2
  {
  }

  /** Clamping twice is clamping once, and a larger request never gets fewer copies. */
  lemma ClampIdempotentMonotone(a: int, b: int)
    ensures ClampCopies(ClampCopies(a)) == ClampCopies(a)
    ensures a <= b ==> ClampCopies(a) <= ClampCopies(b)
  {
  }

  /** Reads the control card `line` (already right-stripped) field by field, each
      numeric field through `stringToIntWithDefault`; a card whose job number reads as
      zero ends the input; the answer order must be 1 or 2; the copy count is
      clamped. */
  function ReadControlCard(line: string): (r: CardOutcome)
    ensures r.Read? ==> r.card.ktc != 0 && 1 <= r.card.idig <= 2 && 0 <= r.card.ncopy <= 2
    ensures r.Read? ==> |r.card.course| <= 10 && |r.card.instructor| <= 10 && |r.card.rawDate| <= 6
  {
    var ktc := IntOrDefault(Slice(line, 0, 4), 0);
    var idig := IntOrDefault(Slice(line, 56, 61), 0);
    if ktc == 0 then EndOfTests
    else if idig != 1 && idig != 2 then BadOrder(idig)
    else
      Read(Card(ktc, Slice(line, 4, 14), Slice(line, 14, 24), Slice(line, 29, 35),
                IntOrDefault(Slice(line, 35, 41), 0), IntOrDefault(Slice(line, 41, 46), 0),
                IntOrDefault(Slice(line, 46, 51), 0), IntOrDefault(Slice(line, 51, 56), 0),
                idig, IntOrDefault(Slice(line, 61, 62), 0),
                ClampCopies(IntOrDefault(From(line, 62), 0))))
  }

  /** A card the reader accepts back unchanged: a nonzero job number, an answer order
      of 1 or 2, at most two copies, text fields of their full width and numbers that
      fit their columns. */
  predicate Writable(c: Card) {
    && c.ktc != 0 && (c.idig == 1 || c.idig == 2) && 0 <= c.ncopy <= 2
    && |c.course| == 10 && |c.instructor| == 10 && |c.rawDate| == 6
    && |Render(c.ktc)| <= 4 && |Render(c.itn)| <= 6 && |Render(c.itemn)| <= 5
    && |Render(c.kode)| <= 5 && |Render(c.icho)| <= 5 && |Render(c.idig)| <= 5
    && |Render(c.iunt)| <= 1
  }

  /** The card image of `c` in the columns the reader takes its fields from. */
  function WriteControlCard(c: Card): (line: string)
    requires Writable(c)
  {
    CardFront(c) + CardBack(c)
  }

  /** Columns 1 to 35: job number, course, instructor, five blanks and the date. */
  function CardFront(c: Card): (front: string)
    requires Writable(c)
    ensures |front| == 35
  {
    Field(c.ktc, 4) + c.course + c.instructor + "     " + c.rawDate
  }

  /** Columns 36 on: the counts and options. */
  function CardBack(c: Card): (back: string)
    requires Writable(c)
    ensures |back| == 27 + |Render(c.ncopy)|
  {
    Field(c.itn, 6) + Field(c.itemn, 5) + Field(c.kode, 5) + Field(c.icho, 5)
    + Field(c.idig, 5) + Field(c.iunt, 1) + Render(c.ncopy)
  }

  /** The fields of the front half sit in their columns. */
  lemma FrontColumns(c: Card)
    requires Writable(c)
    ensures var front := CardFront(c);
      && Slice(front, 0, 4) == Field(c.ktc, 4)
      && Slice(front, 4, 14) == c.course && Slice(front, 14, 24) == c.instructor
      && Slice(front, 29, 35) == c.rawDate
  {
    var l1 := Field(c.ktc, 4);
    var l2 := l1 + c.course;
    var l3 := l2 + c.instructor;
    var l4 := l3 + "     ";
    SliceOfLast(l4, c.rawDate);
    SliceOfAppend(l4, c.rawDate);
    SliceOfAppend(l3, "     ");
    SliceOfLast(l2, c.instructor);
    SliceOfAppend(l2, c.instructor);
    SliceOfLast(l1, c.course);
    SliceOfAppend(l1, c.course);
    assert Slice(l1, 0, 4) == l1;
  }

  /** The fields of the back half sit in their columns, counted from column 36. */
  lemma BackColumns(c: Card)
    requires Writable(c)
    ensures var back := CardBack(c);
      && Slice(back, 0, 6) == Field(c.itn, 6)
      && Slice(back, 6, 11) == Field(c.itemn, 5) && Slice(back, 11, 16) == Field(c.kode, 5)
      && Slice(back, 16, 21) == Field(c.icho, 5) && Slice(back, 21, 26) == Field(c.idig, 5)
      && Slice(back, 26, 27) == Field(c.iunt, 1) && From(back, 27) == Render(c.ncopy)
  {
    var l1 := Field(c.itn, 6);
    var l2 := l1 + Field(c.itemn, 5);
    var l3 := l2 + Field(c.kode, 5);
    var l4 := l3 + Field(c.icho, 5);
    var l5 := l4 + Field(c.idig, 5);
    var l6 := l5 + Field(c.iunt, 1);
    SliceOfLast(l6, Render(c.ncopy));
    SliceOfAppend(l6, Render(c.ncopy));
    SliceOfLast(l5, Field(c.iunt, 1));
    SliceOfAppend(l5, Field(c.iunt, 1));
    SliceOfLast(l4, Field(c.idig, 5));
    SliceOfAppend(l4, Field(c.idig, 5));
    SliceOfLast(l3, Field(c.icho, 5));
    SliceOfAppend(l3, Field(c.icho, 5));
    SliceOfLast(l2, Field(c.kode, 5));
    SliceOfAppend(l2, Field(c.kode, 5));
    SliceOfLast(l1, Field(c.itemn, 5));
    SliceOfAppend(l1, Field(c.itemn, 5));
    assert Slice(l1, 0, 6) == l1;
  }

  /** Each field of a written card sits in the columns the reader slices. */
  lemma CardColumns(c: Card)
    requires Writable(c)
    ensures var line := WriteControlCard(c);
      && Slice(line, 0, 4) == Field(c.ktc, 4)
      && Slice(line, 4, 14) == c.course && Slice(line, 14, 24) == c.instructor
      && Slice(line, 29, 35) == c.rawDate && Slice(line, 35, 41) == Field(c.itn, 6)
      && Slice(line, 41, 46) == Field(c.itemn, 5) && Slice(line, 46, 51) == Field(c.kode, 5)
      && Slice(line, 51, 56) == Field(c.icho, 5) && Slice(line, 56, 61) == Field(c.idig, 5)
      && Slice(line, 61, 62) == Field(c.iunt, 1) && From(line, 62) == Render(c.ncopy)
  {
    FrontColumns(c);
    BackColumns(c);
    SliceOfAppend(CardFront(c), CardBack(c));
    SliceOfTail(CardFront(c), CardBack(c));
  }

  /** A card written in its columns reads back as itself. */
  lemma ControlCardRoundTrip(c: Card)
    requires Writable(c)
    ensures ReadControlCard(WriteControlCard(c)) == Read(c)
  {
    CardColumns(c);
    var line := WriteControlCard(c);
    ParseField(c.ktc, 4);
    assert IntOrDefault(Slice(line, 0, 4), 0) == c.ktc;
    ParseField(c.idig, 5);
    assert IntOrDefault(Slice(line, 56, 61), 0) == c.idig;
    ParseField(c.itn, 6);
    assert IntOrDefault(Slice(line, 35, 41), 0) == c.itn;
    ParseField(c.itemn, 5);
    assert IntOrDefault(Slice(line, 41, 46), 0) == c.itemn;
    ParseField(c.kode, 5);
    assert IntOrDefault(Slice(line, 46, 51), 0) == c.kode;
    ParseField(c.icho, 5);
    assert IntOrDefault(Slice(line, 51, 56), 0) == c.icho;
    ParseField(c.iunt, 1);
    assert IntOrDefault(Slice(line, 61, 62), 0) == c.iunt;
    ParseRender(c.ncopy);
    assert ClampCopies(IntOrDefault(From(line, 62), 0)) == c.ncopy;
  }

  /** A card whose first four columns are blank ends the input. */
  lemma BlankJobEnds(line: string)
    requires forall i :: 0 <= i < 4 && i < |line| ==> line[i] == ' '
    ensures ReadControlCard(line) == EndOfTests
  {
    ParseBlank(Slice(line, 0, 4));
  }

  /** `[int(x) for x in t]`: every character read as a number, or None for the
      ValueError of the first one that is not. `int` of a single character is its
      digit (`CharValue`). */
  function CharValues(t: string): (r: Option<seq<int>>)
    ensures r.Some? ==> |r.value| == |t|
    ensures r.Some? ==> forall i :: 0 <= i < |t| ==> IsDigit(t[i]) && r.value[i] == DigitValue(t[i])
    ensures r.None? ==> exists i :: 0 <= i < |t| && !IsDigit(t[i])
  {
    if t == [] then Some([])
    else
      var rest := CharValues(t[1..]);
      if !IsDigit(t[0]) || rest.None? then None
      else Some([DigitValue(t[0]) as int] + rest.value)
  }

  /** A single character reads as a number exactly when it is a decimal digit, and
      then as that digit. */
  lemma CharValue(x: char)
    ensures ParseInt([x]) == if IsDigit(x) then Some(DigitValue(x) as int) else None
  {
    if IsDigit(x) {
      ParsePlain([x]);
      assert [x][..0] == [];
      assert Value([x]) == DigitValue(x);
    } else if x in Whitespace {
      ParseBlank([x]);
    } else {
      StripKeeps([x], Whitespace);
      assert ParseInt([x]) == ParseStripped([x]);
      assert !DigitRun([x]);
      assert !DigitRun([]);
      assert ParseUnsigned([x]) == None && ParseUnsigned([]) == None;
      assert [x][1..] == [];
    }
  }

  /** `CharValues` reads each character as `int()` does: it fails exactly when some
      character is not a number, and otherwise holds each character's number. */
  lemma CharValuesParse(t: string)
    ensures CharValues(t).Some? <==> forall i :: 0 <= i < |t| ==> ParseInt([t[i]]).Some?
    ensures CharValues(t).Some? ==> forall i :: 0 <= i < |t| ==> ParseInt([t[i]]) == Some(CharValues(t).value[i])
  {
    forall i | 0 <= i < |t| {
      CharValue(t[i]);
    }
  }

  /** Why reading the answer key stopped short. */
  datatype KeyError = KeyEndOfInput | KeyNotADigit

  /** The answer key cards as the reader takes them from the card at `at`: cards
      are read while fewer than `need` answers have been read, and each card gives
      one answer per character of its stripped text. The input is the sequence of
      cards that `nextNonEmptyLineInFile` hands out (itemal.py:157-166): its
      non-blank lines, right-stripped; running out of them is its EOFError. */
  function KeyFrom(cards: seq<string>, at: nat, need: int, acc: seq<int>): (r: Result<(seq<int>, nat), KeyError>)
    requires at <= |cards|
    decreases |cards| - at
  {
    if need <= 0 then Ok((acc, at))
    else if at == |cards| then Err(KeyEndOfInput)
    else
      var values := CharValues(Strip(cards[at], Whitespace));
      if values.None? then Err(KeyNotADigit)
      else KeyFrom(cards, at + 1, need - |values.value|, acc + values.value)
  }

  /** The answer key loop of readHeader (itemal.py:385-390): reads answer cards from
      card `at` on until at least ITEMN answers are in, and returns the key and the
      position after the last card read. */
  method ReadAnswerKey(cards: seq<string>, at: nat, itemn: int) returns (r: Result<(seq<int>, nat), KeyError>)
    requires at <= |cards|
    ensures r == KeyFrom(cards, at, itemn, [])
  {
    var nItems := itemn;
    var key: seq<int> := [];
    var pos := at;
    while nItems > 0
      invariant at <= pos <= |cards|
      invariant KeyFrom(cards, pos, nItems, key) == KeyFrom(cards, at, itemn, [])
      decreases |cards| - pos
    {
      if pos == |cards| {
        return Err(KeyEndOfInput);
      }
      var values := CharValues(Strip(cards[pos], Whitespace));
      if values.None? {
        return Err(KeyNotADigit);
      }
      key := key + values.value;
      nItems := nItems - |values.value|;
      pos := pos + 1;
    }
    return Ok((key, pos));
  }

  /** A key that is read in full has at least the answers asked for after the
      answers already read, and each answer it adds is a digit from 0 to 9. */
  lemma {:induction false} KeyFromCovers(cards: seq<string>, at: nat, need: int, acc: seq<int>,
                                         key: seq<int>, next: nat)
    requires at <= |cards|
    requires KeyFrom(cards, at, need, acc) == Ok((key, next))
    ensures |key| >= |acc| + need && key[..|acc|] == acc
    ensures forall i :: |acc| <= i < |key| ==> 0 <= key[i] <= 9
    decreases |cards| - at
  {
    if need > 0 {
      var vs := CharValues(Strip(cards[at], Whitespace)).value;
      KeyFromCovers(cards, at + 1, need - |vs|, acc + vs, key, next);
      assert key[..|acc|] == (key[..|acc + vs|])[..|acc|];
      forall i | |acc| <= i < |key|
        ensures 0 <= key[i] <= 9
      {
        if i < |acc + vs| {
          assert key[i] == (acc + vs)[i] == vs[i - |acc|];
        }
      }
    }
  }

  /** The number of answer choices ICHO for a JSON answer key (itemal.py:826) as
      written: the spread of the key, `max - min + 1`, unless the range is given;
      `max` of an empty key raises, which is None here. */
  function ChoicesAsWritten(key: seq<int>, answerRange: Option<int>): (r: Option<int>)
    ensures r.None? <==> key == [] && answerRange.None?
  {
    if answerRange.Some? then answerRange
    else if key == [] then None
    else Some(MaxOf(key) - MinOf(key) + 1)
  }

  /** The spread undercounts the choices of a key that never uses choice 1: the key
      2, 3, 4 gets three choices while its last answer is choice 4. */
  lemma ChoicesAsWrittenMissesKey()
    ensures ChoicesAsWritten([2, 3, 4], None) == Some(3)
    ensures exists i :: 0 <= i < 3 && [2, 3, 4][i] > ChoicesAsWritten([2, 3, 4], None).value
  {
    assert MaxOf([2, 3, 4]) == 4 by {
      assert MaxOf([2, 3]) == 3;
    }
    assert MinOf([2, 3, 4]) == 2 by {
      assert MinOf([2, 3]) == 2;
    }
    assert [2, 3, 4][2] == 4;
  }

  /** The number of answer choices as intended: the largest key answer, unless the
      range is given. */
  function Choices(key: seq<int>, answerRange: Option<int>): (r: Option<int>)
    ensures r.None? <==> key == [] && answerRange.None?
    ensures answerRange.None? && r.Some? ==>
      (forall i :: 0 <= i < |key| ==> key[i] <= r.value) && r.value in key
  {
    if answerRange.Some? then answerRange
    else if key == [] then None
    else Some(MaxOf(key))
  }

  /** Where the key does use choice 1, the spread and the largest answer agree. */
  lemma ChoicesAgreeFromOne(key: seq<int>)
    requires key != [] && MinOf(key) == 1
    ensures ChoicesAsWritten(key, None) == Choices(key, None)
  {
  }

  function MaxOf(s: seq<int>): (m: int)
    requires s != []
    ensures (forall i :: 0 <= i < |s| ==> s[i] <= m) && m in s
  {
    if |s| == 1 then s[0]
    else
      var rest := MaxOf(s[..|s| - 1]);
      assert forall x :: x in s[..|s| - 1] ==> x in s;
      if s[|s| - 1] > rest then s[|s| - 1] else rest
  }

  function MinOf(s: seq<int>): (m: int)
    requires s != []
    ensures (forall i :: 0 <= i < |s| ==> m <= s[i]) && m in s
  {
    if |s| == 1 then s[0]
    else
      var rest := MinOf(s[..|s| - 1]);
      assert forall x :: x in s[..|s| - 1] ==> x in s;
      if s[|s| - 1] < rest then s[|s| - 1] else rest
  }

  /** The final copy count of the report (itemal.py:1364-1367): three when more than
      one copy was asked for, else the count asked for but at least one. */
  function FinalCopies(ncopy: int, mcopy: int): (r: int)
  {
    var n := if mcopy > 1 then 3 else ncopy;
    if n == 0 then 1 else n
  }

  /** For clamped copy counts the report is printed one to three times, three times
      exactly when more than one copy was asked for, and otherwise once. */
  lemma FinalCopiesRange(ncopy: int, mcopy: int)
    requires 0 <= ncopy <= 2 && 0 <= mcopy <= 2
    ensures 1 <= FinalCopies(ncopy, mcopy) <= 3
    ensures FinalCopies(ncopy, mcopy) == 3 <==> mcopy > 1
    ensures mcopy <= 1 ==> FinalCopies(ncopy, mcopy) == if ncopy == 0 then 1 else ncopy
  {
  }
}
