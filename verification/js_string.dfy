/**
 * The few ECMAScript string built-ins the modelled components use:
 * `String.prototype.trim`, `toUpperCase` (restricted to ASCII letters) and
 * `replace(/\D/g, '')`.
 */
module JsString {

  /** ECMAScript WhiteSpace and LineTerminator code points: what `trim` removes. */
  predicate IsWhiteSpace(c: char) {
    || c == '\t' || c == '\n' || c == '\U{B}' || c == '\U{C}' || c == '\r'
    || c == ' ' || c == '\U{A0}' || c == '\U{1680}'
    || ('\U{2000}' <= c <= '\U{200A}')
    || c == '\U{2028}' || c == '\U{2029}' || c == '\U{202F}' || c == '\U{205F}'
    || c == '\U{3000}' || c == '\U{FEFF}'
  }

  /** The characters the regular expression `\d` (without the `u` flag) matches. */
  predicate IsDigit(c: char) {
    '0' <= c <= '9'
  }

  predicate AllDigits(s: string) {
    forall i :: 0 <= i < |s| ==> IsDigit(s[i])
  }

  /** `s` neither starts nor ends with white space. */
  predicate IsTrimmed(s: string) {
    s == [] || (!IsWhiteSpace(s[0]) && !IsWhiteSpace(s[|s| - 1]))
  }

  /** Drops the leading white space: the result is the suffix of `s` after it. */
  function TrimStart(s: string): (r: string)
    ensures |r| <= |s| && r == s[|s| - |r|..]
    ensures r == [] || !IsWhiteSpace(r[0])
    ensures forall i :: 0 <= i < |s| - |r| ==> IsWhiteSpace(s[i])
  {
    if s != [] && IsWhiteSpace(s[0]) then TrimStart(s[1..]) else s
  }

  /** Drops the trailing white space: the result is the prefix of `s` before it. */
  function TrimEnd(s: string): (r: string)
    ensures |r| <= |s| && r == s[..|r|]
    ensures r == [] || !IsWhiteSpace(r[|r| - 1])
    ensures forall i :: |r| <= i < |s| ==> IsWhiteSpace(s[i])
  {
    if s != [] && IsWhiteSpace(s[|s| - 1]) then TrimEnd(s[..|s| - 1]) else s
  }

  /** `String.prototype.trim`. */
  function Trim(s: string): (r: string)
    ensures IsTrimmed(r)
    ensures |r| <= |s|
  {
    TrimEnd(TrimStart(s))
  }

  /** A string that has no white space at either end is left as it is. */
  lemma TrimOfTrimmed(s: string)
    requires IsTrimmed(s)
    ensures Trim(s) == s
  {
    if s != [] {
      assert TrimStart(s) == s;
      assert TrimEnd(s) == s;
    }
  }

  /** Leading white space is stripped from the front of a concatenation only. */
  lemma {:induction false} TrimStartAppend(x: string, y: string)
    ensures TrimStart(x + y) == if TrimStart(x) == [] then TrimStart(y) else TrimStart(x) + y
  {
    if x == [] {
      assert x + y == y;
    } else if IsWhiteSpace(x[0]) {
      assert (x + y)[1..] == x[1..] + y;
      TrimStartAppend(x[1..], y);
    }
  }

  /** Trailing white space is dropped one character at a time. */
  lemma TrimEndAppendWhiteSpace(y: string, c: char)
    requires IsWhiteSpace(c)
    ensures TrimEnd(y + [c]) == TrimEnd(y)
  {
    assert (y + [c])[..|y|] == y;
  }

  /** Appending one white-space character does not change the trimmed string. */
  lemma TrimAppendWhiteSpace(x: string, c: char)
    requires IsWhiteSpace(c)
    ensures Trim(x + [c]) == Trim(x)
  {
    TrimStartAppend(x, [c]);
    var t := TrimStart(x);
    if t == [] {
      assert TrimStart([c]) == TrimStart([]) == [];
    } else {
      assert TrimStart(x + [c]) == t + [c];
      TrimEndAppendWhiteSpace(t, c);
    }
  }

  /** A string that does not start with white space keeps its first character under `trim`. */
  lemma TrimKeepsFirstChar(s: string)
    requires s != [] && !IsWhiteSpace(s[0])
    ensures Trim(s) != [] && Trim(s)[0] == s[0]
  {
    assert TrimStart(s) == s;
  }

  /** `toUpperCase` on one character, for the ASCII letters only. */
  function UpperAscii(c: char): (r: char)
    ensures !('a' <= r <= 'z')
    ensures 'a' <= c <= 'z' ==> r as int == c as int - 32
    ensures !('a' <= c <= 'z') ==> r == c
  {
    if 'a' <= c <= 'z' then (c as int - 32) as char else c
  }

  /** `s.replace(/\D/g, '')`: keeps the decimal digits of `s`, in order. */
  function StripNonDigits(s: string): (r: string)
    ensures AllDigits(r) && |r| <= |s|
    ensures forall c :: IsDigit(c) ==> multiset(r)[c] == multiset(s)[c]
  {
    if s == [] then []
    else
      assert s == [s[0]] + s[1..];
      (if IsDigit(s[0]) then [s[0]] else []) + StripNonDigits(s[1..])
  }

  /** The filter works character by character: it distributes over concatenation. */
  lemma {:induction false} StripNonDigitsAppend(x: string, y: string)
    ensures StripNonDigits(x + y) == StripNonDigits(x) + StripNonDigits(y)
  {
    if x == [] {
      assert x + y == y;
    } else {
      assert (x + y)[0] == x[0];
      assert (x + y)[1..] == x[1..] + y;
      StripNonDigitsAppend(x[1..], y);
    }
  }

  /** A string of digits passes the filter unchanged, and only such a string does. */
  lemma {:induction false} StripNonDigitsFixesDigits(s: string)
    ensures StripNonDigits(s) == s <==> AllDigits(s)
  {
    if s != [] {
      StripNonDigitsFixesDigits(s[1..]);
      if !IsDigit(s[0]) {
        assert |StripNonDigits(s)| < |s|;
      }
    }
  }

  /** Filtering twice is filtering once. */
  lemma StripNonDigitsIdempotent(s: string)
    ensures StripNonDigits(StripNonDigits(s)) == StripNonDigits(s)
  {
    StripNonDigitsFixesDigits(StripNonDigits(s));
  }
}
