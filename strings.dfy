/** The JavaScript string operations the chat pipeline relies on:
    `String.prototype.trim`, `String.prototype.split` on one character,
    and `Number.prototype.toString` for the non-negative integers Date.now()
    returns. */
module Strings {

  /** ECMAScript WhiteSpace and LineTerminator code points: TAB, VT, FF, SP,
      NBSP, ZWNBSP, the other space separators, LF, CR, LS and PS. */
  predicate IsWhitespace(c: char) {
    || c == '\t' || c == '\U{000B}' || c == '\U{000C}' || c == ' '
    || c == '\U{00A0}' || c == '\U{FEFF}' || c == '\U{1680}'
    || ('\U{2000}' <= c <= '\U{200A}')
    || c == '\U{202F}' || c == '\U{205F}' || c == '\U{3000}'
    || c == '\n' || c == '\r' || c == '\U{2028}' || c == '\U{2029}'
  }

  /** Every character of `s` is white space (vacuously so for ""). */
  predicate IsBlank(s: string) {
    forall i :: 0 <= i < |s| ==> IsWhitespace(s[i])
  }

  /** Leading white space removed. */
  function TrimStart(s: string): (r: string)
    ensures |r| <= |s|
  {
    if |s| > 0 && IsWhitespace(s[0]) then TrimStart(s[1..]) else s
  }

  /** Trailing white space removed. */
  function TrimEnd(s: string): (r: string)
    ensures |r| <= |s|
  {
    if |s| > 0 && IsWhitespace(s[|s| - 1]) then TrimEnd(s[..|s| - 1]) else s
  }

  /** `s.trim()`: white space removed from both ends, so the result neither
      starts nor ends with white space. */
  function Trim(s: string): (r: string)
    ensures |r| <= |s|
    ensures r == [] || (!IsWhitespace(r[0]) && !IsWhitespace(r[|r| - 1]))
  {
    TrimShape(s);
    TrimEnd(TrimStart(s))
  }

  /** TrimStart leaves a suffix of `s` that does not start with white space,
      and everything it dropped is white space. */
  lemma {:induction false} TrimStartShape(s: string)
    ensures var r := TrimStart(s);
            && |r| <= |s|
            && (forall i :: 0 <= i < |r| ==> r[i] == s[|s| - |r| + i])
            && (forall i :: 0 <= i < |s| - |r| ==> IsWhitespace(s[i]))
            && (r == [] || !IsWhitespace(r[0]))
  {
    if |s| > 0 && IsWhitespace(s[0]) {
      var tail := s[1..];
      TrimStartShape(tail);
      var r := TrimStart(tail);
      assert TrimStart(s) == r;
      forall i | 0 <= i < |r| ensures r[i] == s[|s| - |r| + i] {
        assert r[i] == tail[|tail| - |r| + i];
      }
      forall i | 0 <= i < |s| - |r| ensures IsWhitespace(s[i]) {
        if i > 0 { assert s[i] == tail[i - 1]; }
      }
    }
  }

  /** TrimEnd leaves a prefix of `s` that does not end with white space, and
      everything it dropped is white space. */
  lemma {:induction false} TrimEndShape(s: string)
    ensures var r := TrimEnd(s);
            && |r| <= |s|
            && (forall i :: 0 <= i < |r| ==> r[i] == s[i])
            && (forall i :: |r| <= i < |s| ==> IsWhitespace(s[i]))
            && (r == [] || !IsWhitespace(r[|r| - 1]))
  {
    if |s| > 0 && IsWhitespace(s[|s| - 1]) {
      var init := s[..|s| - 1];
      TrimEndShape(init);
      var r := TrimEnd(init);
      assert TrimEnd(s) == r;
      forall i | 0 <= i < |r| ensures r[i] == s[i] {
        assert r[i] == init[i];
      }
      forall i | |r| <= i < |s| ensures IsWhitespace(s[i]) {
        if i < |s| - 1 { assert s[i] == init[i]; }
      }
    }
  }

  /** `s` is a white-space prefix of length k, then `s.trim()`, then a
      white-space suffix, and the trimmed part has non-white-space ends. */
  lemma TrimShape(s: string)
    ensures var t := TrimStart(s);
            var r := TrimEnd(t);
            var k := |s| - |t|;
            && k + |r| <= |s|
            && (forall i :: 0 <= i < |r| ==> r[i] == s[k + i])
            && (forall i :: 0 <= i < k ==> IsWhitespace(s[i]))
            && (forall i :: k + |r| <= i < |s| ==> IsWhitespace(s[i]))
            && (r == [] || (!IsWhitespace(r[0]) && !IsWhitespace(r[|r| - 1])))
  {
    var t := TrimStart(s);
    TrimStartShape(s);
    TrimEndShape(t);
    var r, k := TrimEnd(t), |s| - |t|;
    forall i | k + |r| <= i < |s| ensures IsWhitespace(s[i]) {
      assert s[i] == t[i - k];
    }
    if r != [] {
      assert r[0] == t[0];
    }
  }

  /** The guard `!input.trim()` holds exactly for all-white-space input. */
  lemma TrimEmptyIffBlank(s: string)
    ensures Trim(s) == "" <==> IsBlank(s)
  {
    TrimShape(s);
  }

  /* ---- split(sep) and its inverse, join(sep) ---- */

  /** `s.split(sep)` for a one-character separator: the maximal separator-free
      segments, in order; "" splits into [""]. */
  function Split(s: string, sep: char): (parts: seq<string>)
    ensures |parts| >= 1
  {
    if s == [] then [""]
    else
      var rest := Split(s[1..], sep);
      if s[0] == sep then [""] + rest
      else [[s[0]] + rest[0]] + rest[1..]
  }

  /** `parts.join(sep)`. */
  function Join(parts: seq<string>, sep: char): string
    requires |parts| >= 1
  {
    if |parts| == 1 then parts[0] else parts[0] + [sep] + Join(parts[1..], sep)
  }

  /** Joining the segments of a split gives back the string. */
  lemma {:induction false} JoinSplit(s: string, sep: char)
    ensures Join(Split(s, sep), sep) == s
  {
    if s != [] {
      var rest := Split(s[1..], sep);
      JoinSplit(s[1..], sep);
      if s[0] == sep {
        assert Split(s, sep)[1..] == rest;
      } else {
        JoinConsChar(s[0], rest, sep);
      }
    }
  }

  lemma JoinConsChar(c: char, parts: seq<string>, sep: char)
    requires |parts| >= 1
    ensures Join([[c] + parts[0]] + parts[1..], sep) == [c] + Join(parts, sep)
  {
  }

  /** No segment of a split contains the separator. */
  lemma {:induction false} SplitSegmentsFree(s: string, sep: char)
    ensures forall k :: 0 <= k < |Split(s, sep)| ==> sep !in Split(s, sep)[k]
  {
    if s != [] {
      SplitSegmentsFree(s[1..], sep);
      var rest := Split(s[1..], sep);
      if s[0] != sep {
        var parts := Split(s, sep);
        forall k | 0 <= k < |parts| ensures sep !in parts[k] {
          if k == 0 {
            assert parts[0] == [s[0]] + rest[0];
          } else {
            assert parts[k] == rest[k];
          }
        }
      }
    }
  }

  /** A string holding the separator splits into at least two segments. */
  lemma SplitHasSecond(s: string, sep: char)
    requires sep in s
    ensures |Split(s, sep)| >= 2
  {
  }

  /** A separator-free string does not split. */
  lemma {:induction false} SplitFree(s: string, sep: char)
    requires sep !in s
    ensures Split(s, sep) == [s]
  {
    if s != [] {
      assert s[0] in s;
      SplitFree(s[1..], sep);
      assert [s[0]] + s[1..] == s;
    }
  }

  /** Splitting at the first separator peels off the separator-free prefix. */
  lemma {:induction false} SplitAtFirst(a: string, b: string, sep: char)
    requires sep !in a
    ensures Split(a + [sep] + b, sep) == [a] + Split(b, sep)
  {
    var s := a + [sep] + b;
    if a == [] {
      assert s[1..] == b;
    } else {
      assert s[1..] == a[1..] + [sep] + b;
      SplitAtFirst(a[1..], b, sep);
      assert [a[0]] + a[1..] == a;
    }
  }

  /* ---- Number.prototype.toString for the integers Date.now() returns ---- */

  function Digit(d: nat): char
    requires d < 10
  {
    ('0' as int + d) as char
  }

  /** Base-ten digits of `n`, without leading zeros. */
  function DecimalString(n: nat): (r: string)
    ensures |r| >= 1
    ensures n >= 10 ==> |r| >= 2
  {
    if n < 10 then [Digit(n)] else DecimalString(n / 10) + [Digit(n % 10)]
  }

  /** Distinct readings give distinct decimal strings. */
  lemma {:induction false} DecimalInjective(a: nat, b: nat)
    requires DecimalString(a) == DecimalString(b)
    ensures a == b
  {
    if a >= 10 && b >= 10 {
      var sa, sb := DecimalString(a), DecimalString(b);
      assert sa[|sa| - 1] == Digit(a % 10) && sb[|sb| - 1] == Digit(b % 10);
      assert sa[..|sa| - 1] == DecimalString(a / 10);
      assert sb[..|sb| - 1] == DecimalString(b / 10);
      DecimalInjective(a / 10, b / 10);
    }
  }
}
