/** The JavaScript string operations the pipeline relies on. A Dafny string
    is a sequence of Unicode scalar values, while JavaScript strings are
    sequences of UTF-16 code units: the two agree on text inside the Basic
    Multilingual Plane, and a character outside it counts once here and twice
    in JavaScript. */
module Text {

  /** The WhiteSpace and LineTerminator code points of ECMAScript, the
      characters `String.prototype.trim` removes. */
  predicate IsWhitespace(c: char) {
    || c == '\t' || c == '\n' || c == '\U{000B}' || c == '\U{000C}' || c == '\r'
    || c == ' ' || c == '\U{00A0}' || c == '\U{1680}'
    || ('\U{2000}' <= c <= '\U{200A}')
    || c == '\U{2028}' || c == '\U{2029}' || c == '\U{202F}' || c == '\U{205F}'
    || c == '\U{3000}' || c == '\U{FEFF}'
  }

  /** Every character is whitespace (the empty string included). */
  predicate Blank(s: string) {
    forall i :: 0 <= i < |s| ==> IsWhitespace(s[i])
  }

  /** Length of the longest all-whitespace prefix. */
  function LeadingBlank(s: string): (k: nat)
    ensures k <= |s| && Blank(s[..k])
    ensures k < |s| ==> !IsWhitespace(s[k])
    ensures k == |s| <==> Blank(s)
  {
    if s == [] || !IsWhitespace(s[0]) then 0
    else
      var k := 1 + LeadingBlank(s[1..]);
      assert s[..k] == [s[0]] + s[1..][..k - 1];
      k
  }

  /** Length of the longest all-whitespace suffix. */
  function TrailingBlank(s: string): (k: nat)
    ensures k <= |s| && Blank(s[|s| - k..])
    ensures k < |s| ==> !IsWhitespace(s[|s| - k - 1])
    ensures k == |s| <==> Blank(s)
  {
    if s == [] || !IsWhitespace(s[|s| - 1]) then 0
    else
      var k := 1 + TrailingBlank(s[..|s| - 1]);
      assert s[|s| - k..] == s[..|s| - 1][|s| - k..] + [s[|s| - 1]];
      k
  }

  /** `s.trim()`: whitespace removed at both ends, nothing removed inside. */
  function Trim(s: string): (r: string)
    ensures exists i, j :: 0 <= i <= j <= |s| && r == s[i..j] && Blank(s[..i]) && Blank(s[j..])
    ensures r == [] || (!IsWhitespace(r[0]) && !IsWhitespace(r[|r| - 1]))
  {
    var i := LeadingBlank(s);
    var t := s[i..];
    var b := TrailingBlank(t);
    var j := |s| - b;
    assert s[j..] == t[|t| - b..];
    assert i <= j && Blank(s[..i]) && Blank(s[j..]);
    assert i < j ==> s[i..j][0] == t[0] && s[i..j][j - i - 1] == t[|t| - b - 1];
    s[i..j]
  }

  /** `if (s.trim())` is true exactly when `s` holds a non-whitespace character. */
  lemma TrimEmptyIffBlank(s: string)
    ensures Trim(s) == [] <==> Blank(s)
  {
    var i := LeadingBlank(s);
    var t := s[i..];
    var j := |s| - TrailingBlank(t);
    assert Trim(s) == s[i..j];
    if i < |s| {
      // The first non-whitespace character survives both cuts.
      assert t[0] == s[i] && !Blank(t);
      assert Trim(s)[0] == s[i];
    }
  }

  /** The characters whose full lowercase mapping is a single ASCII letter:
      `A`..`Z` and the KELVIN SIGN (U+212A, lowercased to `k`). Every other
      character is kept as it is; its true lowercase form is not an ASCII
      letter, so comparisons with an ASCII name come out as they would after
      `toLowerCase()`. */
  function LowerChar(c: char): char {
    if 'A' <= c <= 'Z' then (c as int + 32) as char
    else if c == '\U{212A}' then 'k'
    else c
  }

  function Lower(s: string): (r: string)
    ensures |r| == |s|
    ensures forall i :: 0 <= i < |s| ==> r[i] == LowerChar(s[i])
  {
    if s == [] then [] else [LowerChar(s[0])] + Lower(s[1..])
  }

  /** Lower-casing twice changes nothing more. */
  lemma LowerIdempotent(s: string)
    ensures Lower(Lower(s)) == Lower(s)
  {
    var once := Lower(s);
    var twice := Lower(once);
    assert forall i :: 0 <= i < |s| ==> twice[i] == once[i];
  }

  function DigitChar(d: nat): (c: char)
    requires d < 10
    ensures '0' <= c <= '9'
  {
    ('0' as int + d) as char
  }

  predicate AllDigits(s: string) {
    forall i :: 0 <= i < |s| ==> '0' <= s[i] <= '9'
  }

  /** The decimal rendering of a non-negative integer, as `${n}` produces it. */
  function Decimal(n: nat): (r: string)
    ensures |r| > 0 && AllDigits(r)
    ensures r[0] == '0' ==> n == 0 && r == "0"
  {
    if n < 10 then [DigitChar(n)]
    else Decimal(n / 10) + [DigitChar(n % 10)]
  }

  /** The value a string of decimal digits denotes. */
  function DecimalValue(s: string): nat
    requires AllDigits(s)
  {
    if s == [] then 0
    else DecimalValue(s[..|s| - 1]) * 10 + (s[|s| - 1] as int - '0' as int)
  }

  /** Rendering is faithful: reading the digits back gives the number. */
  lemma {:induction false} DecimalRoundTrip(n: nat)
    ensures DecimalValue(Decimal(n)) == n
  {
    if n >= 10 {
      var r := Decimal(n);
      assert r[..|r| - 1] == Decimal(n / 10);
      DecimalRoundTrip(n / 10);
    }
  }

  /** `parts.join(sep)`. */
  function Join(parts: seq<string>, sep: string): string {
    if |parts| == 0 then ""
    else if |parts| == 1 then parts[0]
    else parts[0] + sep + Join(parts[1..], sep)
  }

  /** Joining one more part appends the separator and that part. */
  lemma {:induction false} JoinSnoc(parts: seq<string>, p: string, sep: string)
    requires |parts| > 0
    ensures Join(parts + [p], sep) == Join(parts, sep) + sep + p
  {
    if |parts| > 1 {
      assert (parts + [p])[1..] == parts[1..] + [p];
      JoinSnoc(parts[1..], p, sep);
    }
  }
}
