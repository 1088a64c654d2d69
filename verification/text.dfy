/** The string helpers of Python 3 that the program leans on when it reads cards:
    `str.strip` (with and without a set of characters), `str.split(sep)` and its
    inverse `sep.join`. Strings are sequences of characters. */
module Text {

  /** The characters `str.strip()` and `int()` treat as white space, restricted to
      the ASCII range: blank, the control characters 9 to 13 and the separators 28
      to 31. */
  const Whitespace: set<char> :=
    {' ', '\t', '\n', '\U{0B}', '\U{0C}', '\r', '\U{1C}', '\U{1D}', '\U{1E}', '\U{1F}'}

  /** `s.lstrip(cs)`: drops the longest prefix made of characters of `cs`. */
  function StripLeft(s: string, cs: set<char>): (r: string)
    ensures |r| <= |s|
    ensures r == [] || r[0] !in cs
  {
    if |s| > 0 && s[0] in cs then StripLeft(s[1..], cs) else s
  }

  /** `s.rstrip(cs)`: drops the longest suffix made of characters of `cs`. */
  function StripRight(s: string, cs: set<char>): (r: string)
    ensures |r| <= |s|
    ensures r == [] || r[|r| - 1] !in cs
  {
    if |s| > 0 && s[|s| - 1] in cs then StripRight(s[..|s| - 1], cs) else s
  }

  /** What `lstrip` keeps is the end of the string, and what it drops is made of
      characters of `cs`. (Kept out of `StripLeft`'s own contract, which every use of
      `StripLeft` would otherwise pay for.) */
  lemma {:induction false} StripLeftSuffix(s: string, cs: set<char>)
    ensures StripLeft(s, cs) == s[|s| - |StripLeft(s, cs)|..]
    ensures forall i :: 0 <= i < |s| - |StripLeft(s, cs)| ==> s[i] in cs
  {
    if |s| > 0 && s[0] in cs {
      StripLeftSuffix(s[1..], cs);
      assert s[1..][|s| - 1 - |StripLeft(s, cs)|..] == s[|s| - |StripLeft(s, cs)|..];
    }
  }

  /** What `rstrip` keeps is the start of the string, and what it drops is made of
      characters of `cs`. */
  lemma {:induction false} StripRightPrefix(s: string, cs: set<char>)
    ensures StripRight(s, cs) == s[..|StripRight(s, cs)|]
    ensures forall i :: |StripRight(s, cs)| <= i < |s| ==> s[i] in cs
  {
    if |s| > 0 && s[|s| - 1] in cs {
      StripRightPrefix(s[..|s| - 1], cs);
      assert s[..|s| - 1][..|StripRight(s, cs)|] == s[..|StripRight(s, cs)|];
    }
  }

  /** `s.strip(cs)`; `s.strip()` is `Strip(s, Whitespace)`. */
  function Strip(s: string, cs: set<char>): string {
    StripLeft(StripRight(s, cs), cs)
  }

  /** What `strip` keeps neither starts nor ends with a character of `cs`. (A lemma
      rather than part of `Strip`'s contract, so that readers of `Strip` are not
      burdened with it.) */
  lemma StripEnds(s: string, cs: set<char>)
    ensures Strip(s, cs) == [] || (Strip(s, cs)[0] !in cs && Strip(s, cs)[|Strip(s, cs)| - 1] !in cs)
  {
    StripLeftSuffix(StripRight(s, cs), cs);
  }

  /** Stripping a string that neither starts nor ends with a character of `cs`
      leaves it as it is. */
  lemma StripKeeps(s: string, cs: set<char>)
    requires s == [] || (s[0] !in cs && s[|s| - 1] !in cs)
    ensures Strip(s, cs) == s
  {
  }

  /** Stripping is idempotent. */
  lemma StripIdempotent(s: string, cs: set<char>)
    ensures Strip(Strip(s, cs), cs) == Strip(s, cs)
  {
    StripEnds(s, cs);
    StripKeeps(Strip(s, cs), cs);
  }

  /** Characters of `cs` in front of a string are stripped away with the rest of the
      prefix. */
  lemma {:induction false} StripLeftPrefix(p: string, s: string, cs: set<char>)
    requires forall i :: 0 <= i < |p| ==> p[i] in cs
    ensures StripLeft(p + s, cs) == StripLeft(s, cs)
  {
    if p != [] {
      assert (p + s)[0] == p[0] && (p + s)[1..] == p[1..] + s;
      assert StripLeft(p + s, cs) == StripLeft(p[1..] + s, cs);
      StripLeftPrefix(p[1..], s, cs);
    } else {
      assert p + s == s;
    }
  }

  /** `s.split(sep)`: the pieces between the separators, from left to right; the
      empty string splits into one empty piece. */
  function Split(s: string, sep: char): (r: seq<string>)
    ensures |r| >= 1
    ensures forall k :: 0 <= k < |r| ==> sep !in r[k]
  {
    if |s| == 0 then [""]
    else
      var rest := Split(s[1..], sep);
      if s[0] == sep then [""] + rest else [[s[0]] + rest[0]] + rest[1..]
  }

  /** `sep.join(ps)`. */
  function Join(ps: seq<string>, sep: char): string
    requires |ps| >= 1
  {
    if |ps| == 1 then ps[0] else ps[0] + [sep] + Join(ps[1..], sep)
  }

  /** Joining the pieces of a split gives the string back. */
  lemma {:induction false} JoinSplit(s: string, sep: char)
    ensures Join(Split(s, sep), sep) == s
  {
    if |s| > 0 {
      var rest := Split(s[1..], sep);
      JoinSplit(s[1..], sep);
      if s[0] != sep {
        if |rest| > 1 {
          assert Split(s, sep)[1..] == rest[1..];
          assert [s[0]] + rest[0] + [sep] + Join(rest[1..], sep) == [s[0]] + (rest[0] + [sep] + Join(rest[1..], sep));
        }
      }
    }
  }

  /** Splitting the join of pieces free of the separator gives the pieces back. */
  lemma {:induction false} SplitJoin(ps: seq<string>, sep: char)
    requires |ps| >= 1
    requires forall k :: 0 <= k < |ps| ==> sep !in ps[k]
    ensures Split(Join(ps, sep), sep) == ps
  {
    if |ps| == 1 {
      SplitAlone(ps[0], sep);
    } else {
      SplitJoin(ps[1..], sep);
      SplitAt(ps[0], Join(ps[1..], sep), ps[1..], sep);
      assert [ps[0]] + ps[1..] == ps;
    }
  }

  /** A piece free of the separator splits into itself. */
  lemma SplitAlone(p: string, sep: char)
    requires sep !in p
    ensures Split(p, sep) == [p]
  {
    SplitPiece(p, [], sep);
    assert p + [] == p;
    assert Split([], sep) == [""];
    assert p + "" == p;
  }

  /** A piece free of the separator, the separator, then a string: the piece comes
      first, then the pieces of the string. */
  lemma SplitAt(p: string, rest: string, pieces: seq<string>, sep: char)
    requires sep !in p && Split(rest, sep) == pieces
    ensures Split(p + [sep] + rest, sep) == [p] + pieces
  {
    var tail := [sep] + rest;
    assert tail[0] == sep && tail[1..] == rest;
    assert Split(tail, sep) == [""] + pieces;
    SplitPiece(p, tail, sep);
    assert p + [sep] + rest == p + tail;
    assert p + "" == p;
  }

  /** A piece free of the separator in front of `t` is glued to the first piece of
      `t`'s split. */
  lemma {:induction false} SplitPiece(p: string, t: string, sep: char)
    requires sep !in p
    ensures Split(p + t, sep) == [p + Split(t, sep)[0]] + Split(t, sep)[1..]
  {
    var x := Split(t, sep);
    if p == [] {
      assert p + t == t && p + x[0] == x[0];
      assert x == [x[0]] + x[1..];
    } else {
      assert (p + t)[0] == p[0] && (p + t)[1..] == p[1..] + t;
      SplitPiece(p[1..], t, sep);
      var rest := Split(p[1..] + t, sep);
      assert rest[0] == p[1..] + x[0] && rest[1..] == x[1..];
      assert [p[0]] + (p[1..] + x[0]) == p + x[0];
    }
  }

  /** Where Python puts a slice bound `i` in a string of length `n`: a negative bound
      counts from the end, and bounds past either end are clamped. */
  function Bound(i: int, n: nat): (r: nat)
    ensures r <= n
    ensures 0 <= i <= n ==> r == i
  {
    if i < 0 then (if i + n < 0 then 0 else i + n) else if i > n then n else i
  }

  /** `s[lo:hi]`, which never fails: bounds out of range give a shorter or empty
      string. */
  function Slice(s: string, lo: int, hi: int): (r: string)
    ensures 0 <= lo <= hi <= |s| ==> r == s[lo..hi]
    ensures 0 <= lo <= hi ==> |r| <= hi - lo
  {
    var a := Bound(lo, |s|);
    var b := Bound(hi, |s|);
    if a < b then s[a..b] else ""
  }

  /** `s[lo:]`. */
  function From(s: string, lo: int): (r: string)
    ensures 0 <= lo <= |s| ==> r == s[lo..]
  {
    s[Bound(lo, |s|)..]
  }

  /** Slicing inside the first part of a concatenation ignores the second part. */
  lemma SliceOfAppend(a: string, b: string)
    ensures forall lo, hi :: 0 <= lo <= hi <= |a| ==> Slice(a + b, lo, hi) == Slice(a, lo, hi)
  {
    forall lo, hi | 0 <= lo <= hi <= |a|
      ensures Slice(a + b, lo, hi) == Slice(a, lo, hi)
    {
      assert (a + b)[lo..hi] == a[lo..hi];
    }
  }

  /** The last part of a concatenation sits in the columns after the first part. */
  lemma SliceOfLast(a: string, m: string)
    ensures Slice(a + m, |a|, |a| + |m|) == m
    ensures From(a + m, |a|) == m
  {
    assert (a + m)[|a|..|a| + |m|] == m;
    assert (a + m)[|a|..] == m;
  }

  /** Slicing inside the second part of a concatenation is slicing that part, with
      the columns shifted by the length of the first. */
  lemma SliceOfTail(a: string, b: string)
    ensures forall lo, hi :: 0 <= lo <= hi <= |b| ==> Slice(a + b, |a| + lo, |a| + hi) == Slice(b, lo, hi)
    ensures forall lo :: 0 <= lo <= |b| ==> From(a + b, |a| + lo) == From(b, lo)
  {
    forall lo, hi | 0 <= lo <= hi <= |b|
      ensures Slice(a + b, |a| + lo, |a| + hi) == Slice(b, lo, hi)
    {
      assert (a + b)[|a| + lo..|a| + hi] == b[lo..hi];
    }
    forall lo | 0 <= lo <= |b|
      ensures From(a + b, |a| + lo) == From(b, lo)
    {
      assert (a + b)[|a| + lo..] == b[lo..];
    }
  }

  /** A string made only of characters of `cs`. */
  predicate AllIn(s: string, cs: set<char>) {
    forall i :: 0 <= i < |s| ==> s[i] in cs
  }

  /** Stripping leaves nothing exactly when every character is stripped. */
  lemma StripEmpty(s: string, cs: set<char>)
    ensures Strip(s, cs) == [] <==> AllIn(s, cs)
  {
    var right := StripRight(s, cs);
    StripRightPrefix(s, cs);
    StripLeftSuffix(right, cs);
    if right != [] {
      assert s[|right| - 1] == right[|right| - 1];
      assert Strip(s, cs) != [];
    }
  }
}
