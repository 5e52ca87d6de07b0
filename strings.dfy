/**
 * The java.lang.String and java.lang.Long operations the panel relies on,
 * each with its Java meaning spelled out: `trim`, `isBlank`, `contains`,
 * `replaceAll` for the two patterns the code uses, `split` on one
 * character, decimal rendering of integers, `Long.parseLong` and 32-bit
 * `int` addition.
 */
module Strings {
  import opened Outcomes

  /** Java's string concatenation of a possibly null String: null is rendered as "null". */
  function JavaStr(s: Option<string>): (r: string)
    ensures s.Some? ==> r == s.value
    ensures s.None? ==> r == "null"
  {
    if s.Some? then s.value else "null"
  }

  // ---------------------------------------------------------------------
  // Character classes

  /** A character of the regular-expression class `\s`: space, \t, \n, \x0B, \f or \r. */
  predicate IsRegexSpace(c: char)
  {
    c == ' ' || '\t' <= c <= '\r'
  }

  /** `Character.isWhitespace`, the test behind `String.isBlank`. */
  predicate IsJavaWhitespace(c: char)
  {
    || '\t' <= c <= '\r'
    || '\U{1C}' <= c <= ' '
    || c == '\U{1680}'
    || '\U{2000}' <= c <= '\U{2006}'
    || '\U{2008}' <= c <= '\U{200A}'
    || c == '\U{2028}' || c == '\U{2029}' || c == '\U{205F}' || c == '\U{3000}'
  }

  /** `String.isBlank`: empty, or whitespace only. */
  predicate IsBlank(s: string)
  {
    forall i :: 0 <= i < |s| ==> IsJavaWhitespace(s[i])
  }

  /** `String.contains`: `t` occurs somewhere in `s` as a contiguous piece. */
  predicate Contains(s: string, t: string)
    decreases |s|
  {
    t <= s || (|s| > 0 && Contains(s[1..], t))
  }

  // ---------------------------------------------------------------------
  // trim

  /** The leading part of `String.trim`: drop characters up to U+0020 from the front. */
  function TrimStart(s: string): (r: string)
    ensures |r| <= |s| && r == s[|s| - |r|..]
    ensures forall i :: 0 <= i < |s| - |r| ==> s[i] <= ' '
    ensures |r| == 0 || r[0] > ' '
    decreases |s|
  {
    if |s| > 0 && s[0] <= ' ' then TrimStart(s[1..]) else s
  }

  /** The trailing part of `String.trim`: drop characters up to U+0020 from the back. */
  function TrimEnd(s: string): (r: string)
    ensures |r| <= |s| && r == s[..|r|]
    ensures forall i :: |r| <= i < |s| ==> s[i] <= ' '
    ensures |r| == 0 || r[|r| - 1] > ' '
    decreases |s|
  {
    if |s| > 0 && s[|s| - 1] <= ' ' then TrimEnd(s[..|s| - 1]) else s
  }

  /** `String.trim`. */
  function Trim(s: string): string
  {
    TrimEnd(TrimStart(s))
  }

  /** Neither end of what `trim` returns can be trimmed further. */
  lemma TrimEnds(s: string)
    ensures var r := Trim(s); |r| == 0 || (r[0] > ' ' && r[|r| - 1] > ' ')
  {
    var t := TrimStart(s);
    var r := TrimEnd(t);
    assert |r| > 0 ==> r[0] == t[0];
  }

  /** `trim` removes only characters up to U+0020, and only at the two ends. */
  lemma TrimDropsOnlyControls(s: string)
    ensures var k := |s| - |TrimStart(s)|;
      && (forall i :: 0 <= i < k ==> s[i] <= ' ')
      && (forall i :: k + |Trim(s)| <= i < |s| ==> s[i] <= ' ')
  {
    var t := TrimStart(s);
    var r := TrimEnd(t);
    var k := |s| - |t|;
    assert t == s[k..];
    forall i | k + |r| <= i < |s|
      ensures s[i] <= ' '
    {
      assert s[i] == t[i - k];
    }
  }

  /** Trimming twice is trimming once. */
  lemma TrimIdempotent(s: string)
    ensures Trim(Trim(s)) == Trim(s)
  {
    var r := Trim(s);
    TrimEnds(s);
    assert TrimStart(r) == r;
    assert TrimEnd(r) == r;
  }

  // ---------------------------------------------------------------------
  // replaceAll

  /** `s.replaceAll(<c as a literal pattern>, "")`: every occurrence of `c` removed, the rest kept in order. */
  function RemoveAll(s: string, c: char): (r: string)
    ensures c !in r
    ensures |r| <= |s|
    ensures c !in s ==> r == s
    ensures forall x :: x in r ==> x in s
    decreases |s|
  {
    if s == [] then [] else (if s[0] == c then [] else [s[0]]) + RemoveAll(s[1..], c)
  }

  /** Removing is done piece by piece: the parts of a concatenation are cleaned apart. */
  lemma {:induction false} RemoveAllAppend(s: string, t: string, c: char)
    ensures RemoveAll(s + t, c) == RemoveAll(s, c) + RemoveAll(t, c)
    decreases |s|
  {
    if s == [] {
      assert s + t == t;
    } else {
      assert (s + t)[0] == s[0];
      assert (s + t)[1..] == s[1..] + t;
      RemoveAllAppend(s[1..], t, c);
    }
  }

  /** Drops the whitespace (`\s`) at the front of `s`. */
  function SkipRegexSpaces(s: string): (r: string)
    ensures |r| <= |s| && r == s[|s| - |r|..]
    ensures |r| == 0 || !IsRegexSpace(r[0])
    decreases |s|
  {
    if |s| > 0 && IsRegexSpace(s[0]) then SkipRegexSpaces(s[1..]) else s
  }

  /** `s.replaceAll("\\s+", "_")`: every maximal run of whitespace becomes one underscore. */
  function ReplaceSpaceRuns(s: string): (r: string)
    ensures forall i :: 0 <= i < |r| ==> !IsRegexSpace(r[i])
    ensures |r| <= |s|
    decreases |s|
  {
    if s == [] then []
    else if IsRegexSpace(s[0]) then "_" + ReplaceSpaceRuns(SkipRegexSpaces(s[1..]))
    else [s[0]] + ReplaceSpaceRuns(s[1..])
  }

  /** A string without whitespace is left as it is. */
  lemma {:induction false} ReplaceSpaceRunsKeepsPlain(s: string)
    requires forall i :: 0 <= i < |s| ==> !IsRegexSpace(s[i])
    ensures ReplaceSpaceRuns(s) == s
    decreases |s|
  {
    if s != [] {
      ReplaceSpaceRunsKeepsPlain(s[1..]);
    }
  }

  /** The replacement leaves nothing to replace: applying it twice is applying it once. */
  lemma ReplaceSpaceRunsIdempotent(s: string)
    ensures ReplaceSpaceRuns(ReplaceSpaceRuns(s)) == ReplaceSpaceRuns(s)
  {
    ReplaceSpaceRunsKeepsPlain(ReplaceSpaceRuns(s));
  }

  lemma {:induction false} SkipRegexSpacesOfRun(w: string, b: string)
    requires forall i :: 0 <= i < |w| ==> IsRegexSpace(w[i])
    requires b == [] || !IsRegexSpace(b[0])
    ensures SkipRegexSpaces(w + b) == b
    decreases |w|
  {
    if w == [] {
      assert w + b == b;
    } else {
      assert (w + b)[1..] == w[1..] + b;
      SkipRegexSpacesOfRun(w[1..], b);
    }
  }

  /**
   * One maximal run `w` of whitespace between a whitespace-free `a` and a
   * `b` that does not start with whitespace becomes exactly one underscore.
   */
  lemma {:induction false} ReplaceSpaceRunsOfRun(a: string, w: string, b: string)
    requires forall i :: 0 <= i < |a| ==> !IsRegexSpace(a[i])
    requires |w| > 0 && forall i :: 0 <= i < |w| ==> IsRegexSpace(w[i])
    requires b == [] || !IsRegexSpace(b[0])
    ensures ReplaceSpaceRuns(a + w + b) == a + "_" + ReplaceSpaceRuns(b)
    decreases |a|
  {
    if a == [] {
      assert a + w + b == w + b;
      assert (w + b)[0] == w[0];
      assert (w + b)[1..] == w[1..] + b;
      SkipRegexSpacesOfRun(w[1..], b);
    } else {
      assert (a + w + b)[0] == a[0];
      assert (a + w + b)[1..] == a[1..] + w + b;
      ReplaceSpaceRunsOfRun(a[1..], w, b);
      assert [a[0]] + (a[1..] + "_" + ReplaceSpaceRuns(b)) == a + "_" + ReplaceSpaceRuns(b);
    }
  }

  // ---------------------------------------------------------------------
  // Decimal integers

  function DigitChar(d: nat): (c: char)
    requires d < 10
    ensures '0' <= c <= '9' && c as int - '0' as int == d
  {
    (d + '0' as int) as char
  }

  predicate IsAsciiDigit(c: char)
  {
    '0' <= c <= '9'
  }

  predicate AllDigits(s: string)
  {
    forall i :: 0 <= i < |s| ==> IsAsciiDigit(s[i])
  }

  /** `String.valueOf` of a non-negative integer: its decimal digits, most significant first. */
  function NatToString(n: nat): (r: string)
    ensures |r| >= 1 && AllDigits(r)
    decreases n
  {
    if n < 10 then [DigitChar(n)] else NatToString(n / 10) + [DigitChar(n % 10)]
  }

  /** `String.valueOf` of an `int` or `long`: a minus sign for negative values, then the digits. */
  function IntToString(i: int): (r: string)
    ensures |r| >= 1
    ensures i < 0 <==> r[0] == '-'
  {
    if i < 0 then "-" + NatToString(-i) else NatToString(i)
  }

  /** The value of a string of decimal digits. */
  function DigitsValue(s: string): nat
    requires AllDigits(s)
    decreases |s|
  {
    if s == [] then 0 else DigitsValue(s[..|s| - 1]) * 10 + (s[|s| - 1] as int - '0' as int)
  }

  const LongMin: int := -0x8000_0000_0000_0000
  const LongMax: int := 0x7FFF_FFFF_FFFF_FFFF

  /** What follows an optional leading sign. */
  function Unsigned(s: string): (d: string)
    ensures d == s || (|s| > 0 && (s[0] == '-' || s[0] == '+') && d == s[1..])
  {
    if |s| > 0 && (s[0] == '-' || s[0] == '+') then s[1..] else s
  }

  /** The value of the digits `d`, negated when the sign character is `-`. */
  function SignedValue(sign: char, d: string): int
    requires AllDigits(d)
  {
    if sign == '-' then -(DigitsValue(d) as int) else DigitsValue(d)
  }

  /**
   * `Long.parseLong`: an optional sign followed by at least one digit, within
   * the range of a 64-bit `long`; anything else throws NumberFormatException (`None`).
   */
  function ParseLong(s: string): (r: Option<int>)
    ensures r.Some? ==> LongMin <= r.value <= LongMax
    ensures s == [] ==> r.None?
    ensures r.Some? <==> |s| > 0 && var d := Unsigned(s);
      |d| > 0 && AllDigits(d) && LongMin <= SignedValue(s[0], d) <= LongMax
    ensures r.Some? ==> r.value == SignedValue(s[0], Unsigned(s))
  {
    var signed := |s| > 0 && (s[0] == '-' || s[0] == '+');
    var digits := if signed then s[1..] else s;
    if |digits| == 0 || !AllDigits(digits) then None
    else
      var v: int := if |s| > 0 && s[0] == '-' then 0 - DigitsValue(digits) else DigitsValue(digits);
      if LongMin <= v <= LongMax then Some(v) else None
  }

  lemma {:induction false} DigitsValueOfNatToString(n: nat)
    ensures DigitsValue(NatToString(n)) == n
    decreases n
  {
    var s := NatToString(n);
    if n >= 10 {
      DigitsValueOfNatToString(n / 10);
      assert s[..|s| - 1] == NatToString(n / 10);
    }
  }

  /** Rendering a `long` in decimal and parsing it back gives the same number. */
  lemma ParseLongOfIntToString(i: int)
    requires LongMin <= i <= LongMax
    ensures ParseLong(IntToString(i)) == Some(i)
  {
    if i < 0 {
      DigitsValueOfNatToString(-i);
      assert IntToString(i)[1..] == NatToString(-i);
    } else {
      DigitsValueOfNatToString(i);
    }
  }

  // ---------------------------------------------------------------------
  // split

  /** Every piece of `s` between occurrences of `sep`, empty pieces included. */
  function Pieces(s: string, sep: char): (r: seq<string>)
    ensures |r| >= 1
    decreases |s|
  {
    if s == [] then [""]
    else
      var rest := Pieces(s[1..], sep);
      if s[0] == sep then [""] + rest else [[s[0]] + rest[0]] + rest[1..]
  }

  /** Removes the empty strings at the end of a list of pieces. */
  function DropTrailingEmpty(xs: seq<string>): (r: seq<string>)
    ensures r <= xs
    ensures |r| == 0 || r[|r| - 1] != ""
    ensures forall i :: |r| <= i < |xs| ==> xs[i] == ""
    decreases |xs|
  {
    if |xs| > 0 && xs[|xs| - 1] == "" then DropTrailingEmpty(xs[..|xs| - 1]) else xs
  }

  /**
   * `s.split(sep)` for a one-character separator: a string that does not
   * contain the separator splits into itself; otherwise the pieces, without
   * the empty ones at the end.
   */
  function Split(s: string, sep: char): seq<string>
  {
    if sep !in s then [s] else DropTrailingEmpty(Pieces(s, sep))
  }

  lemma {:induction false} PiecesOfPlainPrefix(t: string, u: string, sep: char)
    requires sep !in t
    ensures Pieces(t + u, sep) == [t + Pieces(u, sep)[0]] + Pieces(u, sep)[1..]
    decreases |t|
  {
    if t != [] {
      assert (t + u)[1..] == t[1..] + u;
      PiecesOfPlainPrefix(t[1..], u, sep);
      assert [t[0]] + (t[1..] + Pieces(u, sep)[0]) == t + Pieces(u, sep)[0];
    } else {
      assert t + u == u;
      assert t + Pieces(u, sep)[0] == Pieces(u, sep)[0];
      assert Pieces(u, sep) == [Pieces(u, sep)[0]] + Pieces(u, sep)[1..];
    }
  }

  lemma PiecesOfSeparator(u: string, sep: char)
    ensures Pieces([sep] + u, sep) == [""] + Pieces(u, sep)
  {
    assert ([sep] + u)[1..] == u;
  }

  /**
   * In a path `/<a>/<d><rest>` with `d` non-empty and free of `/`, `split("/")`
   * puts `d` at index 2, whatever `rest` holds after the next `/`.
   */
  lemma SplitThirdPiece(a: string, d: string, rest: string)
    requires '/' !in a && '/' !in d && d != ""
    requires rest == "" || rest[0] == '/'
    ensures var parts := Split("/" + a + "/" + d + rest, '/');
      |parts| >= 3 && parts[2] == d
  {
    var s := "/" + a + "/" + d + rest;
    assert s[0] == '/';
    var tail := "/" + d + rest;
    assert s == ['/'] + (a + tail);
    PiecesOfSeparator(a + tail, '/');
    PiecesOfPlainPrefix(a, tail, '/');
    assert tail == ['/'] + (d + rest);
    PiecesOfSeparator(d + rest, '/');
    PiecesOfPlainPrefix(d, rest, '/');
    if rest == "" {
      assert Pieces(rest, '/')[0] == "";
    } else {
      assert rest == ['/'] + rest[1..];
      PiecesOfSeparator(rest[1..], '/');
    }
    var xs := Pieces(s, '/');
    assert xs[2] == d;
    var r := DropTrailingEmpty(xs);
    assert |r| > 2;
  }

  // ---------------------------------------------------------------------
  // 32-bit int

  const IntMin: int := -0x8000_0000
  const IntMax: int := 0x7FFF_FFFF

  type Int32 = x: int | IntMin <= x <= IntMax

  /** Java `int` addition: the one `int` that agrees with the exact sum modulo 2^32. */
  function AddInt32(a: Int32, b: Int32): (r: Int32)
    ensures (r - (a + b)) % 0x1_0000_0000 == 0
  {
    var s := a + b;
    if s > IntMax then s - 0x1_0000_0000 else if s < IntMin then s + 0x1_0000_0000 else s
  }
}
