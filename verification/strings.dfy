/** String helpers the logger relies on through JavaScript built-ins:
    decimal rendering of a number in a template literal, the whitespace set
    of `String.prototype.trim`, `padEnd`, `indexOf`, `substr`, and the
    character classes `\w` and line terminator of JavaScript regular
    expressions. Strings are sequences of Unicode scalar values. */
module Strings {

  // ---------------------------------------------------------------------
  // Decimal digits

  predicate IsDigit(c: char) { '0' <= c <= '9' }

  predicate AllDigits(s: string) {
    forall i :: 0 <= i < |s| ==> IsDigit(s[i])
  }

  function DigitChar(d: nat): (c: char)
    requires d < 10
    ensures IsDigit(c)
  {
    ('0' as int + d) as char
  }

  function DigitValue(c: char): (d: nat)
    requires IsDigit(c)
    ensures d < 10 && DigitChar(d) == c
  {
    c as int - '0' as int
  }

  /** The decimal numeral of `n`, as `${n}` renders a non-negative integer:
      digits only, and no leading zero unless the numeral is "0". */
  function Dec(n: nat): (s: string)
    ensures |s| >= 1 && AllDigits(s)
    ensures |s| > 1 ==> s[0] != '0'
    decreases n
  {
    if n < 10 then [DigitChar(n)] else Dec(n / 10) + [DigitChar(n % 10)]
  }

  /** Reads a string of digits back as a number (the reference inverse of Dec). */
  function ParseDec(s: string): nat
    requires AllDigits(s)
    decreases |s|
  {
    if |s| == 0 then 0 else 10 * ParseDec(s[..|s| - 1]) + DigitValue(s[|s| - 1])
  }

  lemma {:induction false} DecRoundTrip(n: nat)
    ensures ParseDec(Dec(n)) == n
    decreases n
  {
    if n >= 10 {
      var s := Dec(n);
      assert s[..|s| - 1] == Dec(n / 10);
      DecRoundTrip(n / 10);
    }
  }

  /** Distinct numbers have distinct numerals. */
  lemma DecInjective(a: nat, b: nat)
    requires Dec(a) == Dec(b)
    ensures a == b
  {
    DecRoundTrip(a);
    DecRoundTrip(b);
  }

  // ---------------------------------------------------------------------
  // Prefix runs

  /** The character classes the model scans for. */
  datatype CharClass = Digits | WordChars | Colons | Spaces | Whitespace | LineChars

  predicate InClass(c: char, k: CharClass) {
    match k
    case Digits => IsDigit(c)
    case WordChars => IsWordChar(c)
    case Colons => c == ':'
    case Spaces => c == ' '
    case Whitespace => IsJsWhitespace(c)
    case LineChars => !IsLineTerminator(c)
  }

  /** Length of the longest prefix of `s` whose characters are all in `k`. */
  function Run(s: string, k: CharClass): (n: nat)
    ensures n <= |s|
    ensures forall i :: 0 <= i < n ==> InClass(s[i], k)
    ensures n < |s| ==> !InClass(s[n], k)
    decreases |s|
  {
    if |s| == 0 || !InClass(s[0], k) then 0 else 1 + Run(s[1..], k)
  }

  /** A run is determined by the first character that breaks it. */
  lemma RunStopsAt(s: string, k: CharClass, n: nat)
    requires n <= |s|
    requires forall i :: 0 <= i < n ==> InClass(s[i], k)
    requires n < |s| ==> !InClass(s[n], k)
    ensures Run(s, k) == n
  {
  }

  // ---------------------------------------------------------------------
  // Whitespace, trim and padding

  /** The characters `String.prototype.trim` removes: WhiteSpace and
      LineTerminator of ECMAScript (section 12.2 and 12.3 of ECMA-262). */
  predicate IsJsWhitespace(c: char) {
    || c == '\t' || c == '\n' || c == '\U{B}' || c == '\U{C}' || c == '\r'
    || c == ' ' || c == '\U{A0}' || c == '\U{1680}'
    || ('\U{2000}' <= c <= '\U{200A}')
    || c == '\U{2028}' || c == '\U{2029}' || c == '\U{202F}' || c == '\U{205F}'
    || c == '\U{3000}' || c == '\U{FEFF}'
  }

  /** Number of whitespace characters at the end of `s`. */
  function TrailingWhitespace(s: string): (n: nat)
    ensures n <= |s|
    ensures forall i :: |s| - n <= i < |s| ==> IsJsWhitespace(s[i])
    ensures n < |s| ==> !IsJsWhitespace(s[|s| - n - 1])
    decreases |s|
  {
    if |s| == 0 || !IsJsWhitespace(s[|s| - 1]) then 0
    else 1 + TrailingWhitespace(s[..|s| - 1])
  }

  /** `s.trim()`: `s` without its leading and trailing whitespace. */
  function Trim(s: string): (r: string)
    ensures r == "" || (!IsJsWhitespace(r[0]) && !IsJsWhitespace(r[|r| - 1]))
    ensures Run(s, Whitespace) + |r| <= |s|
    ensures r == s[Run(s, Whitespace)..Run(s, Whitespace) + |r|]
    ensures forall i :: Run(s, Whitespace) + |r| <= i < |s| ==> IsJsWhitespace(s[i])
  {
    var t := s[Run(s, Whitespace)..];
    t[..|t| - TrailingWhitespace(t)]
  }

  /** Trimming a string with no whitespace at either end leaves it unchanged. */
  lemma TrimKeeps(s: string)
    requires s == "" || (!IsJsWhitespace(s[0]) && !IsJsWhitespace(s[|s| - 1]))
    ensures Trim(s) == s
  {
    RunStopsAt(s, Whitespace, 0);
  }

  lemma TrimIdempotent(s: string)
    ensures Trim(Trim(s)) == Trim(s)
  {
    TrimKeeps(Trim(s));
  }

  /** Trailing whitespace appended to a string that does not end in
      whitespace is exactly what trim removes. */
  lemma TrimDropsTrailing(s: string, w: string)
    requires s == "" || (!IsJsWhitespace(s[0]) && !IsJsWhitespace(s[|s| - 1]))
    requires forall i :: 0 <= i < |w| ==> IsJsWhitespace(w[i])
    ensures Trim(s + w) == s
  {
    var t := s + w;
    if s == "" {
      RunStopsAt(t, Whitespace, |t|);
    } else {
      RunStopsAt(t, Whitespace, 0);
      assert t[..|s|] == s;
    }
  }

  function Spaces(n: nat): (r: string)
    ensures |r| == n && forall i :: 0 <= i < n ==> r[i] == ' '
  {
    seq(n, _ => ' ')
  }

  /** `s.padEnd(width)`: `s` followed by as many spaces as reach `width`. */
  function PadEnd(s: string, width: nat): (r: string)
    ensures |r| == if |s| >= width then |s| else width
    ensures r[..|s|] == s
    ensures forall i :: |s| <= i < |r| ==> r[i] == ' '
  {
    if |s| >= width then s else s + Spaces(width - |s|)
  }

  // ---------------------------------------------------------------------
  // Regular-expression character classes

  /** `\w` without the `u` flag: ASCII letters, digits and underscore. */
  predicate IsWordChar(c: char) {
    ('a' <= c <= 'z') || ('A' <= c <= 'Z') || IsDigit(c) || c == '_'
  }

  /** The line terminators at which `^` and `$` match under the `m` flag and
      which `.` never matches. */
  predicate IsLineTerminator(c: char) {
    c == '\n' || c == '\r' || c == '\U{2028}' || c == '\U{2029}'
  }

  predicate TerminatorFree(s: string) {
    forall c :: c in s ==> !IsLineTerminator(c)
  }

  /** The line terminators of `s`, in order. */
  function Terminators(s: string): (r: string)
    ensures TerminatorFree(s) ==> r == ""
    decreases |s|
  {
    if |s| == 0 then ""
    else (if IsLineTerminator(s[0]) then [s[0]] else "") + Terminators(s[1..])
  }

  lemma TerminatorsAppend(a: string, b: string)
    ensures Terminators(a + b) == Terminators(a) + Terminators(b)
    decreases |a|
  {
    if |a| > 0 {
      assert (a + b)[0] == a[0] && (a + b)[1..] == a[1..] + b;
      TerminatorsAppend(a[1..], b);
    } else {
      assert a + b == b;
    }
  }

  /** Rewriting one line into another line, and the rest into text with the
      same terminators, keeps the terminators of the whole. */
  lemma TerminatorsAroundLine(x: string, a: string, t: char, r: string, b: string)
    requires TerminatorFree(x) && TerminatorFree(a) && IsLineTerminator(t)
    requires Terminators(r) == Terminators(b)
    ensures Terminators(x + [t] + r) == Terminators(a + [t] + b)
  {
    TerminatorsAppend(x + [t], r);
    TerminatorsAppend(x, [t]);
    TerminatorsAppend(a + [t], b);
    TerminatorsAppend(a, [t]);
  }

  /** The first line of `s`, up to its first terminator, has none. */
  lemma LineRunTerminatorFree(s: string)
    ensures TerminatorFree(s[..Run(s, LineChars)])
  {
    var n := Run(s, LineChars);
    forall c | c in s[..n] ensures !IsLineTerminator(c) {
      var i :| 0 <= i < n && s[..n][i] == c;
      assert InClass(s[i], LineChars);
    }
  }

  /** A text with a line terminator is a first line, its terminator and
      the rest. */
  lemma FirstLine(s: string) returns (a: string, t: char, b: string)
    requires !TerminatorFree(s)
    ensures s == a + [t] + b && TerminatorFree(a) && IsLineTerminator(t)
  {
    var n := Run(s, LineChars);
    LineRunTerminatorFree(s);
    a, t, b := s[..n], s[n], s[n + 1..];
    assert s == a + [t] + b;
  }

  /** A slice holds only characters of the whole. */
  lemma SliceMembers(s: string, i: nat, j: nat)
    requires i <= j <= |s|
    ensures forall c :: c in s[i..j] ==> c in s
  {
    forall c | c in s[i..j] ensures c in s {
      var k :| 0 <= k < j - i && s[i..j][k] == c;
      assert s[i + k] == c;
    }
  }

  /** Number of occurrences of `c` in `s`. */
  function Count(s: string, c: char): nat
    decreases |s|
  {
    if |s| == 0 then 0 else (if s[0] == c then 1 else 0) + Count(s[1..], c)
  }

  /** A terminator occurs as often in a string as in its terminators. */
  lemma {:induction false} CountTerminators(s: string, c: char)
    requires IsLineTerminator(c)
    ensures Count(Terminators(s), c) == Count(s, c)
    decreases |s|
  {
    if |s| > 0 {
      CountTerminators(s[1..], c);
      var head := if IsLineTerminator(s[0]) then [s[0]] else "";
      CountAppend(head, Terminators(s[1..]), c);
    }
  }

  lemma {:induction false} CountAppend(a: string, b: string, c: char)
    ensures Count(a + b, c) == Count(a, c) + Count(b, c)
    decreases |a|
  {
    if |a| == 0 {
      assert a + b == b;
    } else {
      assert (a + b)[0] == a[0] && (a + b)[1..] == a[1..] + b;
      CountAppend(a[1..], b, c);
    }
  }

  // ---------------------------------------------------------------------
  // indexOf and substr

  /** `s.indexOf(c)`: the first index of `c`, or -1. */
  function IndexOf(s: string, c: char): (r: int)
    ensures -1 <= r < |s|
    ensures r == -1 <==> c !in s
    ensures r >= 0 ==> s[r] == c && c !in s[..r]
    decreases |s|
  {
    if |s| == 0 then -1
    else if s[0] == c then 0
    else
      var k := IndexOf(s[1..], c);
      assert s[1..][..k + 1] == s[1..k + 2] by { if k >= 0 { } }
      if k == -1 then -1 else k + 1
  }

  /** `s.substr(start, length)` for a non-negative `start`: at most `length`
      characters from `start`; a negative length yields "". */
  function Substr(s: string, start: nat, length: int): (r: string)
    ensures start <= |s| && 0 <= length && start + length <= |s| ==> r == s[start..start + length]
    ensures length <= 0 || start >= |s| ==> r == ""
  {
    if start >= |s| || length <= 0 then ""
    else if start + length >= |s| then s[start..]
    else s[start..start + length]
  }

  /** `s.substr(start)`: everything from `start` on. */
  function SubstrFrom(s: string, start: nat): (r: string)
    ensures start <= |s| ==> r == s[start..]
    ensures start >= |s| ==> r == ""
  {
    if start >= |s| then "" else s[start..]
  }
}
