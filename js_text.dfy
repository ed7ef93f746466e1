/**
 * The string operations of the JavaScript runtime that the payment routes rely on:
 * truthiness of a request field, `String(n)` for a non-negative integer,
 * `padStart(2, '0')`, the `/\D/g` digit filter, `parseInt(s, 10)` and the
 * `toUpperCase()` comparison against a fixed status word.
 */
module JsText {
  import opened Wrappers

  /** A request field is truthy when it is present and not the empty string. */
  predicate Truthy(field: Option<string>) {
    field.Some? && field.value != ""
  }

  /** `[0-9]`: the class `\d` of a JavaScript regular expression. */
  predicate IsDigit(c: char) {
    '0' <= c <= '9'
  }

  predicate AllDigits(s: string) {
    forall i :: 0 <= i < |s| ==> IsDigit(s[i])
  }

  function DigitChar(d: nat): (c: char)
    requires d < 10
    ensures IsDigit(c) && c as int - '0' as int == d
  {
    ('0' as int + d) as char
  }

  function DigitOf(c: char): (d: nat)
    requires IsDigit(c)
    ensures d < 10 && DigitChar(d) == c
  {
    c as int - '0' as int
  }

  /** The number a run of decimal digits denotes (most significant digit first). */
  function DigitsValue(s: string): nat
    requires AllDigits(s)
  {
    if s == [] then 0 else DigitsValue(s[..|s| - 1]) * 10 + DigitOf(s[|s| - 1])
  }

  /** `String(n)` for a non-negative integer: its shortest decimal spelling. */
  function NatToString(n: nat): (s: string)
    ensures |s| > 0 && AllDigits(s)
    ensures s[0] == '0' ==> n == 0
    ensures n < 10 ==> |s| == 1
    ensures 10 <= n < 100 ==> |s| == 2
  {
    if n < 10 then [DigitChar(n)] else NatToString(n / 10) + [DigitChar(n % 10)]
  }

  /** `NatToString` is undone by reading the digits back. */
  lemma {:induction false} NatToStringValue(n: nat)
    ensures DigitsValue(NatToString(n)) == n
  {
    var s := NatToString(n);
    if n >= 10 {
      NatToStringValue(n / 10);
      assert s[..|s| - 1] == NatToString(n / 10);
    }
  }

  /** A leading zero does not change the value of a digit run. */
  lemma {:induction false} LeadingZeroValue(s: string)
    requires AllDigits(s)
    ensures AllDigits(['0'] + s) && DigitsValue(['0'] + s) == DigitsValue(s)
  {
    var t := ['0'] + s;
    if s != [] {
      LeadingZeroValue(s[..|s| - 1]);
      assert t[..|t| - 1] == ['0'] + s[..|s| - 1];
    }
  }

  /** `String(n).padStart(2, '0')`. */
  function Pad2(n: nat): (s: string)
    ensures AllDigits(s)
    ensures n < 100 ==> |s| == 2
    ensures n >= 10 ==> s == NatToString(n)
  {
    var d := NatToString(n);
    if |d| >= 2 then d else ['0'] + d
  }

  /** Reading a padded field back gives the number that was padded. */
  lemma PadValue(n: nat)
    ensures DigitsValue(Pad2(n)) == n
  {
    NatToStringValue(n);
    if n < 10 {
      LeadingZeroValue(NatToString(n));
    }
  }

  /** `s.replace(/\D/g, '')`: the digits of `s`, in their order. */
  function StripNonDigits(s: string): (r: string)
    ensures AllDigits(r) && |r| <= |s|
  {
    if s == [] then [] else (if IsDigit(s[0]) then [s[0]] else []) + StripNonDigits(s[1..])
  }

  /** Every digit occurs in the result as often as in `s`, and nothing else occurs. */
  lemma {:induction false} StripNonDigitsCounts(s: string, c: char)
    ensures multiset(StripNonDigits(s))[c] == if IsDigit(c) then multiset(s)[c] else 0
  {
    if s != [] {
      StripNonDigitsCounts(s[1..], c);
      assert s == [s[0]] + s[1..];
      assert multiset(s)[c] == multiset([s[0]])[c] + multiset(s[1..])[c];
    }
  }

  /** The filter works piecewise, so it keeps the order of the digits it keeps. */
  lemma {:induction false} StripNonDigitsAppend(a: string, b: string)
    ensures StripNonDigits(a + b) == StripNonDigits(a) + StripNonDigits(b)
  {
    if a == [] {
      assert a + b == b;
    } else {
      var head := if IsDigit(a[0]) then [a[0]] else [];
      assert (a + b)[0] == a[0] && (a + b)[1..] == a[1..] + b;
      calc {
        StripNonDigits(a + b);
        head + StripNonDigits(a[1..] + b);
        { StripNonDigitsAppend(a[1..], b); }
        head + (StripNonDigits(a[1..]) + StripNonDigits(b));
        (head + StripNonDigits(a[1..])) + StripNonDigits(b);
        StripNonDigits(a) + StripNonDigits(b);
      }
    }
  }

  /** A string of digits only is left as it is; in particular the filter is idempotent. */
  lemma {:induction false} StripNonDigitsOfDigits(s: string)
    requires AllDigits(s)
    ensures StripNonDigits(s) == s
  {
    if s != [] {
      StripNonDigitsOfDigits(s[1..]);
    }
  }

  lemma StripNonDigitsIdempotent(s: string)
    ensures StripNonDigits(StripNonDigits(s)) == StripNonDigits(s)
  {
    StripNonDigitsOfDigits(StripNonDigits(s));
  }

  /**
   * The characters `parseInt` skips before the number: the white space and line
   * terminators of ECMAScript (section 12.2 and 12.3 of ECMA-262), including the
   * space separators of Unicode category Zs.
   */
  predicate IsJsWhitespace(c: char) {
    c == '\t' || c == '\n' || c == '\U{000B}' || c == '\U{000C}' || c == '\r' || c == ' '
    || c == '\U{00A0}' || c == '\U{FEFF}' || c == '\U{1680}'
    || ('\U{2000}' <= c <= '\U{200A}')
    || c == '\U{2028}' || c == '\U{2029}' || c == '\U{202F}' || c == '\U{205F}' || c == '\U{3000}'
  }

  function TrimStart(s: string): (r: string)
    ensures |r| <= |s| && r == s[|s| - |r|..]
    ensures r == [] || !IsJsWhitespace(r[0])
    ensures forall i :: 0 <= i < |s| - |r| ==> IsJsWhitespace(s[i])
  {
    if s != [] && IsJsWhitespace(s[0]) then TrimStart(s[1..]) else s
  }

  /** The longest prefix of `s` made of digits. */
  function LeadingDigits(s: string): (r: string)
    ensures |r| <= |s| && r == s[..|r|] && AllDigits(r)
    ensures |r| == |s| || !IsDigit(s[|r|])
  {
    if s != [] && IsDigit(s[0]) then [s[0]] + LeadingDigits(s[1..]) else []
  }

  /** What remains after `parseInt` has skipped white space and one optional sign. */
  function Unsigned(s: string): string {
    var t := TrimStart(s);
    if t != [] && (t[0] == '-' || t[0] == '+') then t[1..] else t
  }

  function Sign(s: string): int {
    var t := TrimStart(s);
    if t != [] && t[0] == '-' then -1 else 1
  }

  /**
   * `parseInt(s, 10)`: skip leading white space, read one optional sign, then the
   * longest run of decimal digits; `None` stands for `NaN` (no digit there).
   */
  function ParseInt(s: string): (r: Option<int>)
    ensures r.None? <==> (Unsigned(s) == [] || !IsDigit(Unsigned(s)[0]))
    ensures r.Some? ==> r.value == Sign(s) * DigitsValue(LeadingDigits(Unsigned(s)))
  {
    var d := LeadingDigits(Unsigned(s));
    if d == [] then None else Some(Sign(s) * DigitsValue(d))
  }

  /** The decimal spelling of `n` is read back as `n`, whatever follows it after a non-digit. */
  lemma ParseIntOfNatToString(n: nat, rest: string)
    requires rest == [] || !IsDigit(rest[0])
    ensures ParseInt(NatToString(n) + rest) == Some(n)
  {
    var d := NatToString(n);
    var s := d + rest;
    assert s[0] == d[0];
    NothingToSkip(s);
    LeadingDigitsOf(d, rest);
    NatToStringValue(n);
  }

  /** A string that starts with a digit has no white space or sign for `parseInt` to skip. */
  lemma NothingToSkip(s: string)
    requires s != [] && IsDigit(s[0])
    ensures Unsigned(s) == s && Sign(s) == 1
  {
  }

  lemma {:induction false} LeadingDigitsOf(d: string, rest: string)
    requires AllDigits(d)
    requires rest == [] || !IsDigit(rest[0])
    ensures LeadingDigits(d + rest) == d
  {
    if d != [] {
      assert (d + rest)[1..] == d[1..] + rest;
      LeadingDigitsOf(d[1..], rest);
    }
  }

  /**
   * `toUpperCase()` one character at a time, as far as it matters for comparing the
   * result with an upper-case ASCII word: ASCII letters, and the two non-ASCII letters
   * whose upper case is an ASCII letter (dotless i and long s). Every other
   * character is left as it is, which never makes it equal to an ASCII letter.
   */
  function UpperChar(c: char): char {
    if 'a' <= c <= 'z' then (c as int - 32) as char
    else if c == '\U{0131}' then 'I'
    else if c == '\U{017F}' then 'S'
    else c
  }

  function ToUpper(s: string): (r: string)
    ensures |r| == |s|
  {
    if s == [] then [] else [UpperChar(s[0])] + ToUpper(s[1..])
  }

  /** Letter `c` is a spelling of the upper-case ASCII character `u` ignoring case. */
  predicate SameIgnoringCase(c: char, u: char) {
    c == u
    || ('A' <= u <= 'Z' && c as int == u as int + 32)
    || (u == 'I' && c == '\U{0131}')
    || (u == 'S' && c == '\U{017F}')
  }

  lemma {:induction false} ToUpperAt(s: string, i: nat)
    requires i < |s|
    ensures ToUpper(s)[i] == UpperChar(s[i])
  {
    if i > 0 {
      ToUpperAt(s[1..], i - 1);
    }
  }

  /** For an upper-case ASCII letter or `_`, the characters that upper-case to it. */
  lemma UpperCharIs(c: char, u: char)
    requires 'A' <= u <= 'Z' || u == '_'
    ensures UpperChar(c) == u <==> SameIgnoringCase(c, u)
  {
  }

  /**
   * `s.toUpperCase() === w` holds exactly for the case-insensitive spellings of `w`.
   * `w` has no `F` or `S`: sharp s (U+00DF) upper-cases to `SS`, and the ligatures
   * U+FB00-U+FB06 to `FF`, `FI`, `FL`, `FFI`, `FFL` and `ST`; these one-to-many
   * mappings are not part of `UpperChar`.
   */
  lemma ToUpperMatches(s: string, w: string)
    requires forall j :: 0 <= j < |w| ==> ('A' <= w[j] <= 'Z' || w[j] == '_')
    requires forall j :: 0 <= j < |w| ==> w[j] != 'F' && w[j] != 'S'
    ensures ToUpper(s) == w <==>
      (|s| == |w| && forall i :: 0 <= i < |s| ==> SameIgnoringCase(s[i], w[i]))
  {
    var u := ToUpper(s);
    if |s| == |w| {
      forall i | 0 <= i < |s|
        ensures u[i] == w[i] <==> SameIgnoringCase(s[i], w[i])
      {
        ToUpperAt(s, i);
        UpperCharIs(s[i], w[i]);
      }
      if forall i :: 0 <= i < |s| ==> SameIgnoringCase(s[i], w[i]) {
        assert u == w;
      }
    }
  }
}
