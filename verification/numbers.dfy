/** Python 3's `int(s)` for decimal text (3.6 and later, which allow underscores
    between digits), which the program calls on every fixed-width field it reads,
    `stringToIntWithDefault` on top of it, and the decimal rendering of an integer
    into a right-justified field that the reads invert. */
module Numbers {
  import opened Wrappers
  import opened Text

  predicate IsDigit(c: char) {
    '0' <= c <= '9'
  }

  function DigitValue(c: char): (r: nat)
    requires IsDigit(c)
    ensures r < 10
  {
    c as int - '0' as int
  }

  function DigitChar(d: nat): (c: char)
    requires d < 10
    ensures IsDigit(c) && DigitValue(c) == d
  {
    ('0' as int + d) as char
  }

  /** The digits `int()` accepts after the sign: decimal digits, where single
      underscores may separate two digits. */
  predicate DigitRun(s: string) {
    && |s| >= 1
    && IsDigit(s[0]) && IsDigit(s[|s| - 1])
    && (forall i :: 0 <= i < |s| ==> IsDigit(s[i]) || s[i] == '_')
    && (forall i, j :: 0 <= i < |s| && 0 <= j < |s| && j == i + 1 ==> !(s[i] == '_' && s[j] == '_'))
  }

  /** The digits of a run with its underscores removed. */
  function Digits(s: string): (r: string)
    requires forall i :: 0 <= i < |s| ==> IsDigit(s[i]) || s[i] == '_'
    ensures |r| <= |s|
    ensures forall i :: 0 <= i < |r| ==> IsDigit(r[i])
  {
    if |s| == 0 then [] else (if s[0] == '_' then [] else [s[0]]) + Digits(s[1..])
  }

  /** The number a string of decimal digits denotes, most significant digit first. */
  function Value(ds: string): (r: nat)
    requires forall i :: 0 <= i < |ds| ==> IsDigit(ds[i])
  {
    if |ds| == 0 then 0 else Value(ds[..|ds| - 1]) * 10 + DigitValue(ds[|ds| - 1])
  }

  /** `int(s)` in base 10: white space around the number is ignored, one sign is
      allowed, and anything else raises ValueError, which is None here. */
  function ParseInt(s: string): Option<int> {
    ParseStripped(Strip(s, Whitespace))
  }

  /** `int()` once the white space around the text is gone: one optional sign, then
      the digits. */
  function ParseStripped(t: string): Option<int> {
    if |t| > 0 && t[0] == '-' then
      match ParseUnsigned(t[1..])
      case Some(v) => Some(-v)
      case None => None
    else if |t| > 0 && t[0] == '+' then ParseUnsigned(t[1..])
    else ParseUnsigned(t)
  }

  /** The digits after the sign. */
  function ParseUnsigned(body: string): Option<int> {
    if DigitRun(body) then Some(Value(Digits(body))) else None
  }

  /** `stringToIntWithDefault` (itemal.py:149-154): the number `s` holds, or `default`
      when `int()` rejects it. */
  function IntOrDefault(s: string, default: int): (r: int)
    ensures ParseInt(s) == Some(r) || (ParseInt(s) == None && r == default)
  {
    match ParseInt(s)
    case Some(v) => v
    case None => default
  }

  /** `str(n)` for a natural number. */
  function RenderNat(n: nat): (r: string)
    ensures |r| >= 1
    ensures forall i :: 0 <= i < |r| ==> IsDigit(r[i])
  {
    if n < 10 then [DigitChar(n)] else RenderNat(n / 10) + [DigitChar(n % 10)]
  }

  /** `str(n)`. */
  function Render(n: int): (r: string)
    ensures |r| >= 1
  {
    if n < 0 then "-" + RenderNat(-n) else RenderNat(n)
  }

  /** `n` right-justified in a field of `width` characters, as a FORTRAN `I` edit
      descriptor writes it when it fits. */
  function Field(n: int, width: nat): (r: string)
    requires |Render(n)| <= width
    ensures |r| == width
  {
    seq(width - |Render(n)|, _ => ' ') + Render(n)
  }

  /** A rendered number denotes that number. */
  lemma {:induction false} ValueOfRender(n: nat)
    ensures Value(RenderNat(n)) == n
  {
    if n >= 10 {
      var r := RenderNat(n);
      assert r[..|r| - 1] == RenderNat(n / 10);
      ValueOfRender(n / 10);
    }
  }

  /** A string of plain digits has no underscores to drop. */
  lemma {:induction false} DigitsOfPlain(s: string)
    requires forall i :: 0 <= i < |s| ==> IsDigit(s[i])
    ensures Digits(s) == s
  {
    if |s| > 0 {
      DigitsOfPlain(s[1..]);
    }
  }

  /** Digits and the minus sign are not white space. */
  lemma NotWhitespace(c: char)
    requires IsDigit(c) || c == '-'
    ensures c !in Whitespace
  {
  }

  /** Plain digits read as their value. */
  lemma ParseDigits(digits: string)
    requires |digits| >= 1 && forall i :: 0 <= i < |digits| ==> IsDigit(digits[i])
    ensures ParseUnsigned(digits) == Some(Value(digits) as int)
  {
    DigitsOfPlain(digits);
  }

  /** `int()` reads plain digits. */
  lemma ParsePlain(digits: string)
    requires |digits| >= 1 && forall i :: 0 <= i < |digits| ==> IsDigit(digits[i])
    ensures ParseInt(digits) == Some(Value(digits) as int)
  {
    ParseDigits(digits);
    NotWhitespace(digits[0]);
    NotWhitespace(digits[|digits| - 1]);
    StripKeeps(digits, Whitespace);
    assert digits[0] != '+' && digits[0] != '-';
  }

  /** `int()` reads plain digits behind a minus sign as the negated number. */
  lemma ParseMinus(digits: string)
    requires |digits| >= 1 && forall i :: 0 <= i < |digits| ==> IsDigit(digits[i])
    ensures ParseInt("-" + digits) == Some(-(Value(digits) as int))
  {
    MinusKept(digits);
    ParseNegative(digits);
  }

  /** A minus sign and digits have no white space to strip. */
  lemma MinusKept(digits: string)
    requires |digits| >= 1 && IsDigit(digits[|digits| - 1])
    ensures Strip("-" + digits, Whitespace) == "-" + digits
  {
    var minus := "-" + digits;
    assert minus[|minus| - 1] == digits[|digits| - 1];
    NotWhitespace(digits[|digits| - 1]);
    StripKeeps(minus, Whitespace);
  }

  /** A minus sign followed by plain digits, once stripped, reads as the negated
      number. */
  lemma ParseNegative(digits: string)
    requires |digits| >= 1 && forall i :: 0 <= i < |digits| ==> IsDigit(digits[i])
    ensures ParseStripped("-" + digits) == Some(-(Value(digits) as int))
  {
    var t := "-" + digits;
    assert t[1..] == digits;
    ParseDigits(digits);
    ParseSign(t, Value(digits));
  }

  /** A minus sign negates the number its digits denote. */
  lemma ParseSign(t: string, v: int)
    requires |t| >= 1 && t[0] == '-' && ParseUnsigned(t[1..]) == Some(v)
    ensures ParseStripped(t) == Some(-v)
  {
  }

  /** Reading back what `str` wrote gives the number: `int(str(n)) == n`. */
  lemma ParseRender(n: int)
    ensures ParseInt(Render(n)) == Some(n)
  {
    var m := if n < 0 then -n else n;
    if n < 0 {
      ParseMinus(RenderNat(m));
    } else {
      ParsePlain(RenderNat(m));
    }
    ValueOfRender(m);
  }

  /** Reading a right-justified field gives the number back: the blanks in front are
      white space to `int()`. */
  lemma ParseField(n: int, width: nat)
    requires |Render(n)| <= width
    ensures ParseInt(Field(n, width)) == Some(n)
  {
    var pad := seq(width - |Render(n)|, _ => ' ');
    var r := Render(n);
    assert Field(n, width) == pad + r;
    NotWhitespace(r[0]);
    NotWhitespace(r[|r| - 1]);
    assert (pad + r)[|pad + r| - 1] == r[|r| - 1];
    assert StripRight(pad + r, Whitespace) == pad + r;
    StripLeftPrefix(pad, r, Whitespace);
    StripKeeps(r, Whitespace);
    assert Strip(pad + r, Whitespace) == Strip(r, Whitespace);
    assert ParseInt(pad + r) == ParseInt(r);
    ParseRender(n);
  }

  /** A field of blanks is not a number: `int()` raises on it. */
  lemma ParseBlank(s: string)
    requires forall i :: 0 <= i < |s| ==> s[i] in Whitespace
    ensures ParseInt(s) == None
  {
    StripRightPrefix(s, Whitespace);
    assert StripRight(s, Whitespace) == [];
  }

  /** A sign followed by nothing else is not a number either. */
  lemma ParseSignAlone(sign: char)
    requires sign == '+' || sign == '-'
    ensures ParseInt([sign]) == None
  {
    StripKeeps([sign], Whitespace);
  }
}
