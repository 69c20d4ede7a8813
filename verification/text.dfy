/**
 * Python string operations the core relies on: whitespace stripping,
 * ASCII case folding, splitting and joining on one separator, and the
 * decimal integer syntax accepted by `int()`.
 */
module Text {
  import opened Wrappers

  /** Python's `str.isspace()`: the characters `str.strip()` removes. */
  predicate IsSpace(c: char) {
    || ('\U{9}' <= c <= '\U{D}')
    || ('\U{1C}' <= c <= '\U{20}')
    || c == '\U{85}' || c == '\U{A0}' || c == '\U{1680}'
    || ('\U{2000}' <= c <= '\U{200A}')
    || c == '\U{2028}' || c == '\U{2029}' || c == '\U{202F}' || c == '\U{205F}' || c == '\U{3000}'
  }

  /**
   * The Unicode White_Space property: what Rust's `str::trim` removes, and
   * so what pydantic's `str_strip_whitespace` removes. Unlike `isspace()`
   * it leaves out the separators U+001C to U+001F.
   */
  predicate IsWhiteSpace(c: char) {
    || ('\U{9}' <= c <= '\U{D}')
    || c == '\U{20}'
    || c == '\U{85}' || c == '\U{A0}' || c == '\U{1680}'
    || ('\U{2000}' <= c <= '\U{200A}')
    || c == '\U{2028}' || c == '\U{2029}' || c == '\U{202F}' || c == '\U{205F}' || c == '\U{3000}'
  }

  /** The two notions of whitespace a strip can use. */
  datatype Spaces =
    | PythonSpace  // `str.isspace()`
    | WhiteSpace   // Unicode White_Space

  predicate SpaceOf(w: Spaces, c: char) {
    if w.PythonSpace? then IsSpace(c) else IsWhiteSpace(c)
  }

  /** White_Space is Python's whitespace less exactly U+001C to U+001F. */
  lemma WhiteSpaceIsSpace(c: char)
    ensures IsWhiteSpace(c) <==> IsSpace(c) && !('\U{1C}' <= c <= '\U{1F}')
  {
  }

  /** The first position at or after `i` that does not hold whitespace, `|s|` if there is none. */
  function SkipSpaces(w: Spaces, s: string, i: nat): (j: nat)
    requires i <= |s|
    ensures i <= j <= |s|
    ensures forall k :: i <= k < j ==> SpaceOf(w, s[k])
    ensures j < |s| ==> !SpaceOf(w, s[j])
    decreases |s| - i
  {
    if i < |s| && SpaceOf(w, s[i]) then SkipSpaces(w, s, i + 1) else i
  }

  /** The end of `s[lo..j]` once its trailing whitespace is cut off. */
  function BackSpaces(w: Spaces, s: string, lo: nat, j: nat): (e: nat)
    requires lo <= j <= |s|
    ensures lo <= e <= j
    ensures forall k :: e <= k < j ==> SpaceOf(w, s[k])
    ensures e > lo ==> !SpaceOf(w, s[e - 1])
    decreases j
  {
    if j > lo && SpaceOf(w, s[j - 1]) then BackSpaces(w, s, lo, j - 1) else j
  }

  /** Where `StripBy(w, s)` starts inside `s`. */
  function StripStart(w: Spaces, s: string): (i: nat)
    ensures i <= |s|
    ensures forall k :: 0 <= k < i ==> SpaceOf(w, s[k])
    ensures i < |s| ==> !SpaceOf(w, s[i])
  {
    SkipSpaces(w, s, 0)
  }

  /** `s` without leading and trailing whitespace of kind `w`. */
  function StripBy(w: Spaces, s: string): (r: string)
    ensures StripStart(w, s) + |r| <= |s|
    ensures r == s[StripStart(w, s)..StripStart(w, s) + |r|]
    ensures forall k :: 0 <= k < StripStart(w, s) ==> SpaceOf(w, s[k])
    ensures forall k :: StripStart(w, s) + |r| <= k < |s| ==> SpaceOf(w, s[k])
    ensures |r| > 0 ==> !SpaceOf(w, r[0]) && !SpaceOf(w, r[|r| - 1])
  {
    var i := StripStart(w, s);
    var e := BackSpaces(w, s, i, |s|);
    assert e > i ==> s[i..e][0] == s[i] && s[i..e][e - i - 1] == s[e - 1];
    s[i..e]
  }

  /** Python's `s.strip()`. */
  function Strip(s: string): string {
    StripBy(PythonSpace, s)
  }

  /** pydantic's `str_strip_whitespace`. */
  function Trim(s: string): string {
    StripBy(WhiteSpace, s)
  }

  /** A string with no whitespace at either end is its own strip. */
  lemma StripNoSpace(w: Spaces, s: string)
    requires |s| > 0 ==> !SpaceOf(w, s[0]) && !SpaceOf(w, s[|s| - 1])
    ensures StripBy(w, s) == s
  {
  }

  /** The two strips part ways on an information separator: `"\x1cabc".strip()` is "abc", pydantic keeps it. */
  lemma StripsDiffer()
    ensures Strip("\U{1C}abc") == "abc"
    ensures Trim("\U{1C}abc") == "\U{1C}abc"
  {
    var s := "\U{1C}abc";
    assert SkipSpaces(PythonSpace, s, 1) == 1;
    assert StripStart(PythonSpace, s) == 1;
    assert s[1..] == "abc";
    StripNoSpace(WhiteSpace, s);
  }

  /** Where neither end holds a Python space, the two strips agree. */
  lemma StripsAgree(s: string)
    requires |s| > 0 ==> !IsSpace(s[0]) && !IsSpace(s[|s| - 1])
    ensures Strip(s) == s && Trim(s) == s
  {
    StripNoSpace(PythonSpace, s);
    StripNoSpace(WhiteSpace, s);
  }

  /** `s.rstrip(c)` for a one-character argument. */
  function RStripChar(s: string, c: char): (r: string)
    ensures r <= s
    ensures |r| > 0 ==> r[|r| - 1] != c
    ensures forall i :: |r| <= i < |s| ==> s[i] == c
    decreases |s|
  {
    if |s| > 0 && s[|s| - 1] == c then RStripChar(s[..|s| - 1], c) else s
  }

  /** ASCII lower-casing of one character (SQLite's `lower()`). */
  function LowerChar(c: char): (r: char)
    ensures 'A' <= c <= 'Z' ==> r as int == c as int + 32
    ensures !('A' <= c <= 'Z') ==> r == c
  {
    if 'A' <= c <= 'Z' then (c as int + 32) as char else c
  }

  /** ASCII lower-casing of a string, character by character. */
  function Lower(s: string): (r: string)
    ensures |r| == |s|
    ensures forall i :: 0 <= i < |s| ==> r[i] == LowerChar(s[i])
  {
    seq(|s|, i requires 0 <= i < |s| => LowerChar(s[i]))
  }

  /** `q in s` for strings: `q` occurs in `s` at some offset. */
  predicate Contains(s: string, q: string) {
    exists i :: 0 <= i <= |s| && q <= s[i..]
  }

  /** `s.split(sep)`: the pieces between occurrences of `sep`, always at least one. */
  function Split(s: string, sep: char): (r: seq<string>)
    ensures |r| >= 1
    decreases |s|
  {
    if |s| == 0 then [""]
    else
      var rest := Split(s[1..], sep);
      if s[0] == sep then [""] + rest else [[s[0]] + rest[0]] + rest[1..]
  }

  /** `sep.join(parts)` for a non-empty list of parts. */
  function Join(parts: seq<string>, sep: char): string
    requires |parts| >= 1
    decreases |parts|
  {
    if |parts| == 1 then parts[0] else parts[0] + [sep] + Join(parts[1..], sep)
  }

  /** Joining the pieces of a split gives the original string back. */
  lemma {:induction false} JoinSplit(s: string, sep: char)
    ensures Join(Split(s, sep), sep) == s
    decreases |s|
  {
    if |s| > 0 {
      var rest := Split(s[1..], sep);
      JoinSplit(s[1..], sep);
      if s[0] == sep {
        assert Split(s, sep)[1..] == rest;
        assert s == [sep] + s[1..];
      } else if |rest| > 1 {
        assert Join(rest, sep) == rest[0] + [sep] + Join(rest[1..], sep);
        assert Split(s, sep)[1..] == rest[1..];
        assert s == [s[0]] + s[1..];
      } else {
        assert s == [s[0]] + s[1..];
      }
    }
  }

  lemma {:induction false} SplitNoSep(p: string, sep: char)
    requires sep !in p
    ensures Split(p, sep) == [p]
    decreases |p|
  {
    if |p| > 0 {
      SplitNoSep(p[1..], sep);
      assert [p[0]] + p[1..] == p;
    }
  }

  lemma {:induction false} SplitCons(p: string, t: string, sep: char)
    requires sep !in p
    ensures Split(p + [sep] + t, sep) == [p] + Split(t, sep)
    decreases |p|
  {
    var s := p + [sep] + t;
    if |p| == 0 {
      assert s[1..] == t;
    } else {
      assert s[1..] == p[1..] + [sep] + t;
      SplitCons(p[1..], t, sep);
      assert [p[0]] + p[1..] == p;
    }
  }

  /** Splitting a join of separator-free parts recovers the parts. */
  lemma {:induction false} SplitJoin(parts: seq<string>, sep: char)
    requires |parts| >= 1
    requires forall k :: 0 <= k < |parts| ==> sep !in parts[k]
    ensures Split(Join(parts, sep), sep) == parts
    decreases |parts|
  {
    if |parts| == 1 {
      SplitNoSep(parts[0], sep);
    } else {
      SplitJoin(parts[1..], sep);
      SplitCons(parts[0], Join(parts[1..], sep), sep);
      assert [parts[0]] + parts[1..] == parts;
    }
  }

  predicate IsDigit(c: char) {
    '0' <= c <= '9'
  }

  function DigitValue(c: char): nat
    requires IsDigit(c)
  {
    c as int - '0' as int
  }

  function DigitChar(d: nat): (c: char)
    requires d < 10
    ensures IsDigit(c) && DigitValue(c) == d
  {
    ('0' as int + d) as char
  }

  /**
   * The decimal digit strings `int()` accepts after its sign: ASCII digits,
   * where a single underscore may separate two digits.
   */
  predicate IsDecimalLiteral(s: string) {
    && |s| > 0
    && IsDigit(s[0])
    && IsDigit(s[|s| - 1])
    && forall i :: 0 <= i < |s| ==> IsDigit(s[i]) || (s[i] == '_' && i + 1 < |s| && IsDigit(s[i + 1]))
  }

  /** The value of a digit string, skipping underscores. */
  function DecimalValue(s: string): nat
    decreases |s|
  {
    if |s| == 0 then 0
    else if IsDigit(s[|s| - 1]) then DecimalValue(s[..|s| - 1]) * 10 + DigitValue(s[|s| - 1])
    else DecimalValue(s[..|s| - 1])
  }

  /** Python's `int(s)` for a `str` argument: `None` where it raises `ValueError`. */
  function ParseInt(s: string): Option<int> {
    var t := Strip(s);
    if |t| > 0 && (t[0] == '-' || t[0] == '+') then
      if IsDecimalLiteral(t[1..]) then
        var v: int := DecimalValue(t[1..]);
        Some(if t[0] == '-' then -v else v)
      else None
    else if IsDecimalLiteral(t) then Some(DecimalValue(t))
    else None
  }

  /** `str(n)` for a non-negative integer. */
  function ShowNat(n: nat): (r: string)
    ensures |r| > 0
    ensures forall i :: 0 <= i < |r| ==> IsDigit(r[i])
  {
    if n < 10 then [DigitChar(n)] else ShowNat(n / 10) + [DigitChar(n % 10)]
  }

  /** `str(n)` for any integer. */
  function ShowInt(n: int): (r: string)
    ensures |r| > 0
  {
    if n < 0 then "-" + ShowNat(-n) else ShowNat(n)
  }

  lemma {:induction false} ShowNatValue(n: nat)
    ensures IsDecimalLiteral(ShowNat(n))
    ensures DecimalValue(ShowNat(n)) == n
  {
    if n >= 10 {
      ShowNatValue(n / 10);
      var s := ShowNat(n);
      assert s[..|s| - 1] == ShowNat(n / 10);
    }
  }

  /** `int(str(n)) == n`. */
  lemma ParseShowInt(n: int)
    ensures ParseInt(ShowInt(n)) == Some(n)
  {
    if n < 0 {
      ParseShowNegative(n);
    } else {
      ParseShowNatural(n);
    }
  }

  lemma ParseShowNegative(n: int)
    requires n < 0
    ensures ParseInt(ShowInt(n)) == Some(n)
  {
    ShowNegative(n);
    ParseNegativeLiteral(ShowInt(n));
  }

  /** `str(n)` of a negative number is a minus sign and the digits of `-n`, with no whitespace around. */
  lemma ShowNegative(n: int)
    requires n < 0
    ensures var s := ShowInt(n);
            && |s| > 0 && s[0] == '-' && Strip(s) == s
            && IsDecimalLiteral(s[1..]) && DecimalValue(s[1..]) == -n
  {
    var d := ShowNat(-n);
    ShowNatValue(-n);
    assert ShowInt(n) == "-" + d;
    SignedLiteral(d);
  }

  /** A minus sign followed by a digit string has no whitespace around it. */
  lemma SignedLiteral(d: string)
    requires IsDecimalLiteral(d)
    ensures var s := "-" + d;
            && s[0] == '-' && s[1..] == d && Strip(s) == s
  {
    var s := "-" + d;
    assert s[1..] == d;
    assert s[|s| - 1] == d[|d| - 1];
    StripNoSpace(PythonSpace, s);
  }

  /** `int("-" + digits)` for a string with no surrounding whitespace. */
  lemma ParseNegativeLiteral(s: string)
    requires |s| > 0 && s[0] == '-' && Strip(s) == s && IsDecimalLiteral(s[1..])
    ensures ParseInt(s) == Some(0 - DecimalValue(s[1..]) as int)
  {
  }

  lemma ParseShowNatural(n: nat)
    ensures ParseInt(ShowInt(n)) == Some(n)
  {
    var s := ShowInt(n);
    ShowNatValue(n);
    assert !IsSpace(s[0]) && !IsSpace(s[|s| - 1]);
    StripNoSpace(PythonSpace, s);
    assert s[0] != '-' && s[0] != '+';
  }
}
