/**
 * The Python `str` operations the core relies on: `strip`, `lower`,
 * `split(sep, 1)`, `sep.join(parts)`, and `str()` of a non-negative `int`.
 * The strip family takes the whitespace set as a parameter: Python's own
 * `str.isspace()` set, or the Unicode White_Space set pydantic trims with.
 * `lower` maps ASCII letters only.
 */
module PyStr {
  import opened Wrappers

  // ---------------------------------------------------------------------
  // Whitespace and strip
  // ---------------------------------------------------------------------

  /** Which characters a strip removes. `str.strip()` removes those for
      which `str.isspace()` holds; pydantic's `str_strip_whitespace` trims
      the characters with the Unicode White_Space property, which are the
      same except that the separators U+001C..U+001F are not among them. */
  datatype Whitespace = PythonSpace | UnicodeWhiteSpace

  predicate IsSpace(ws: Whitespace, c: char) {
    var n := c as int;
    (9 <= n <= 13) || (ws.PythonSpace? && 28 <= n <= 31) || n == 32 || n == 0x85 || n == 0xA0 || n == 0x1680
    || (0x2000 <= n <= 0x200A) || n == 0x2028 || n == 0x2029 || n == 0x202F
    || n == 0x205F || n == 0x3000
  }

  /** Neither the first nor the last character is whitespace. */
  predicate NoEdgeSpace(ws: Whitespace, s: string) {
    s == [] || (!IsSpace(ws, s[0]) && !IsSpace(ws, s[|s| - 1]))
  }

  /** `s.lstrip()`: drops the leading whitespace and nothing else. */
  function LStrip(ws: Whitespace, s: string): (r: string)
    ensures |r| <= |s| && r == s[|s| - |r|..]
    ensures forall i :: 0 <= i < |s| - |r| ==> IsSpace(ws, s[i])
    ensures r == [] || !IsSpace(ws, r[0])
  {
    if s != [] && IsSpace(ws, s[0]) then LStrip(ws, s[1..]) else s
  }

  /** `s.rstrip()`: drops the trailing whitespace and nothing else. */
  function RStrip(ws: Whitespace, s: string): (r: string)
    ensures |r| <= |s| && r == s[..|r|]
    ensures forall i :: |r| <= i < |s| ==> IsSpace(ws, s[i])
    ensures r == [] || !IsSpace(ws, r[|r| - 1])
  {
    if s != [] && IsSpace(ws, s[|s| - 1]) then RStrip(ws, s[..|s| - 1]) else s
  }

  /** `r` is `s` with `i` characters cut off at the front and the rest cut off
      at the back, and everything cut off is whitespace. */
  predicate TrimmedSlice(ws: Whitespace, s: string, r: string, i: int) {
    && 0 <= i <= |s| - |r| && r == s[i..i + |r|]
    && (forall k :: 0 <= k < i ==> IsSpace(ws, s[k]))
    && (forall k :: i + |r| <= k < |s| ==> IsSpace(ws, s[k]))
  }

  /** `s.strip()`: a slice of `s` with no whitespace at either end, such that
      everything cut off on either side is whitespace. */
  function Strip(ws: Whitespace, s: string): (r: string)
    ensures NoEdgeSpace(ws, r)
    ensures exists i :: TrimmedSlice(ws, s, r, i)
  {
    var l := LStrip(ws, s);
    TrimmedOfParts(ws, s, l, RStrip(ws, l));
    RStrip(ws, l)
  }

  /** A left cut and then a right cut, each of whitespace only, make a trimmed slice. */
  lemma TrimmedOfParts(ws: Whitespace, s: string, l: string, r: string)
    requires |l| <= |s| && l == s[|s| - |l|..] && forall k :: 0 <= k < |s| - |l| ==> IsSpace(ws, s[k])
    requires |r| <= |l| && r == l[..|r|] && forall k :: |r| <= k < |l| ==> IsSpace(ws, l[k])
    ensures TrimmedSlice(ws, s, r, |s| - |l|)
  {
    var i := |s| - |l|;
    forall k | i + |r| <= k < |s|
      ensures IsSpace(ws, s[k])
    {
      assert s[k] == l[k - i];
    }
  }

  /** Stripping a string that has no whitespace at its ends changes nothing. */
  lemma StripKeepsTrimmed(ws: Whitespace, s: string)
    requires NoEdgeSpace(ws, s)
    ensures Strip(ws, s) == s
  {
    if s != [] {
      assert !IsSpace(ws, s[0]) && !IsSpace(ws, s[|s| - 1]);
    }
    assert LStrip(ws, s) == s;
    assert RStrip(ws, s) == s;
  }

  /** Leading whitespace does not change what strip leaves. */
  lemma StripLeadingSpace(ws: Whitespace, c: char, s: string)
    requires IsSpace(ws, c)
    ensures Strip(ws, [c] + s) == Strip(ws, s)
  {
    assert ([c] + s)[1..] == s;
  }

  /** A string that does not start with whitespace is only right-stripped. */
  lemma StripNoLeading(ws: Whitespace, s: string)
    requires s != [] && !IsSpace(ws, s[0])
    ensures Strip(ws, s) == RStrip(ws, s)
  {
    assert LStrip(ws, s) == s;
  }

  /** Whatever comes before trailing whitespace decides what rstrip leaves. */
  lemma {:induction false} RStripAppend(ws: Whitespace, a: string, b: string)
    ensures RStrip(ws, b) != [] ==> RStrip(ws, a + b) == a + RStrip(ws, b)
    ensures RStrip(ws, b) == [] ==> RStrip(ws, a + b) == RStrip(ws, a)
    decreases |b|
  {
    if b == [] {
      assert a + b == a;
    } else if IsSpace(ws, b[|b| - 1]) {
      assert (a + b)[..|a + b| - 1] == a + b[..|b| - 1];
      RStripAppend(ws, a, b[..|b| - 1]);
    } else {
      assert RStrip(ws, b) == b;
    }
  }

  /** The two sets differ exactly on the four separators: stripping with
      Python's set can remove a character that pydantic's trim keeps. */
  lemma SeparatorsDiffer(s: string, c: char)
    requires NoEdgeSpace(PythonSpace, s) && s != [] && 28 <= c as int <= 31
    ensures Strip(PythonSpace, s + [c]) == s
    ensures Strip(UnicodeWhiteSpace, s + [c]) == s + [c]
  {
    SeparatorStripped(s, c);
    SeparatorKept(s, c);
  }

  lemma SeparatorStripped(s: string, c: char)
    requires NoEdgeSpace(PythonSpace, s) && s != [] && 28 <= c as int <= 31
    ensures Strip(PythonSpace, s + [c]) == s
  {
    var t := s + [c];
    assert t[0] == s[0] && !IsSpace(PythonSpace, t[0]);
    assert LStrip(PythonSpace, t) == t;
    assert IsSpace(PythonSpace, t[|t| - 1]) && t[..|t| - 1] == s;
    assert RStrip(PythonSpace, t) == RStrip(PythonSpace, s);
    StripKeepsTrimmed(PythonSpace, s);
  }

  lemma SeparatorKept(s: string, c: char)
    requires s != [] && !IsSpace(UnicodeWhiteSpace, s[0]) && 28 <= c as int <= 31
    ensures Strip(UnicodeWhiteSpace, s + [c]) == s + [c]
  {
    var t := s + [c];
    assert t[0] == s[0];
    assert LStrip(UnicodeWhiteSpace, t) == t;
    assert !IsSpace(UnicodeWhiteSpace, t[|t| - 1]);
    assert RStrip(UnicodeWhiteSpace, t) == t;
  }

  // ---------------------------------------------------------------------
  // ASCII lower-casing
  // ---------------------------------------------------------------------

  predicate IsUpper(c: char) {
    'A' <= c <= 'Z'
  }

  function LowerChar(c: char): (d: char)
    ensures !IsUpper(d)
    ensures forall ws :: IsSpace(ws, d) == IsSpace(ws, c)
    ensures !IsUpper(c) ==> d == c
  {
    if IsUpper(c) then (c as int + 32) as char else c
  }

  /** No ASCII upper-case letter occurs in `s`. */
  predicate IsLower(s: string) {
    forall i :: 0 <= i < |s| ==> !IsUpper(s[i])
  }

  /** `s.lower()` (ASCII letters only). */
  function Lower(s: string): (r: string)
    ensures |r| == |s|
    ensures forall i :: 0 <= i < |s| ==> r[i] == LowerChar(s[i])
  {
    if s == [] then [] else [LowerChar(s[0])] + Lower(s[1..])
  }

  /** `lower` works character by character, so it distributes over concatenation. */
  lemma {:induction false} LowerAppend(a: string, b: string)
    ensures Lower(a + b) == Lower(a) + Lower(b)
  {
    if a == [] {
      assert a + b == b;
    } else {
      assert (a + b)[1..] == a[1..] + b;
      LowerAppend(a[1..], b);
    }
  }

  /** The result of `lower` is lower-case, and lower-casing it again is a no-op. */
  lemma LowerIsLower(s: string)
    ensures IsLower(Lower(s))
    ensures Lower(Lower(s)) == Lower(s)
  {
    LowerOfLower(Lower(s));
  }

  lemma LowerOfLower(s: string)
    requires IsLower(s)
    ensures Lower(s) == s
  {
    assert forall i :: 0 <= i < |s| ==> Lower(s)[i] == s[i];
  }

  /** `lower` neither creates nor removes whitespace at the ends. */
  lemma LowerKeepsEdges(ws: Whitespace, s: string)
    ensures NoEdgeSpace(ws, Lower(s)) == NoEdgeSpace(ws, s)
  {
  }

  /** Every slice of a lower-case string is lower-case. */
  lemma LowerSlice(s: string, i: int, j: int)
    requires IsLower(s) && 0 <= i <= j <= |s|
    ensures IsLower(s[i..j])
  {
    assert forall k :: 0 <= k < j - i ==> s[i..j][k] == s[i + k];
  }

  /** The section name `DEFAULT` can never be written in lower case. */
  lemma LowerIsNotDefault(s: string)
    requires IsLower(s)
    ensures s != "DEFAULT"
  {
    if |s| > 0 {
      assert !IsUpper(s[0]);
    }
  }

  // ---------------------------------------------------------------------
  // split(sep, 1), prefixes and join
  // ---------------------------------------------------------------------

  /** `s.split(sep, 1)` when `sep` occurs: the part before the first `sep`
      and everything after it; `None` when `sep` does not occur. */
  function SplitOnce(s: string, sep: char): (r: Option<(string, string)>)
    ensures r.None? <==> sep !in s
    ensures r.Some? ==> s == r.value.0 + [sep] + r.value.1 && sep !in r.value.0
  {
    if s == [] then None
    else if s[0] == sep then Some(([], s[1..]))
    else
      match SplitOnce(s[1..], sep)
      case None => None
      case Some(p) => Some(([s[0]] + p.0, p.1))
  }

  /** Splitting undoes joining at the first separator. */
  lemma {:induction false} SplitOnceOf(a: string, sep: char, b: string)
    requires sep !in a
    ensures SplitOnce(a + [sep] + b, sep) == Some((a, b))
  {
    if a != [] {
      assert (a + [sep] + b)[1..] == a[1..] + [sep] + b;
      SplitOnceOf(a[1..], sep, b);
      assert [a[0]] + a[1..] == a;
    }
  }

  /** The rest of `s` after the prefix `p`, if `s` starts with `p`. */
  function DropPrefix(s: string, p: string): (r: Option<string>)
    ensures r.Some? <==> (|p| <= |s| && s[..|p|] == p)
    ensures r.Some? ==> s == p + r.value
  {
    if |p| <= |s| && s[..|p|] == p then Some(s[|p|..]) else None
  }

  lemma DropPrefixOf(p: string, x: string)
    ensures DropPrefix(p + x, p) == Some(x)
  {
    assert (p + x)[..|p|] == p;
    assert (p + x)[|p|..] == x;
  }

  /** `sep.join(parts)`. */
  function Join(parts: seq<string>, sep: string): string {
    if parts == [] then ""
    else if |parts| == 1 then parts[0]
    else parts[0] + sep + Join(parts[1..], sep)
  }

  // ---------------------------------------------------------------------
  // Decimal rendering of line numbers
  // ---------------------------------------------------------------------

  predicate IsDigit(c: char) {
    '0' <= c <= '9'
  }

  predicate AllDigits(s: string) {
    forall i :: 0 <= i < |s| ==> IsDigit(s[i])
  }

  function DigitChar(d: nat): (c: char)
    requires d < 10
    ensures IsDigit(c)
  {
    ('0' as int + d) as char
  }

  /** `str(n)` for `n >= 0`: a non-empty string of decimal digits. */
  function NatToString(n: nat): (r: string)
    ensures r != [] && AllDigits(r)
  {
    if n < 10 then [DigitChar(n)] else NatToString(n / 10) + [DigitChar(n % 10)]
  }

  /** The number a string of decimal digits denotes. */
  function DigitsValue(s: string): nat
    requires AllDigits(s)
  {
    if s == [] then 0
    else DigitsValue(s[..|s| - 1]) * 10 + (s[|s| - 1] as int - '0' as int)
  }

  /** Reading back a rendered number gives the number. */
  lemma {:induction false} NatToStringRoundTrip(n: nat)
    ensures DigitsValue(NatToString(n)) == n
  {
    if n >= 10 {
      var s := NatToString(n);
      assert s[..|s| - 1] == NatToString(n / 10);
      NatToStringRoundTrip(n / 10);
    }
  }
}
