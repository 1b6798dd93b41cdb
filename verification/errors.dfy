/** The error renderer of src/formatters/PrettyFormatter.ts (`formatError`
    and its three regular expressions). Every expression is anchored with
    `^` and `$` under the `m` flag and `.` never matches a line terminator,
    so each `replace` rewrites the text line by line; here each expression
    is a hand-written matcher over one line producing the groups the
    replacement callback receives, and a pass maps it over the lines while
    keeping every line terminator in place. */
module ErrorRender {
  import opened Wrappers
  import opened Strings
  import opened Color
  import opened Constants

  /** A formatter's colour table. */
  type Colors = map<Key, ColorFn>

  /** `this.colors.get(k)?.(s)` for a role key. */
  function Tint(colors: Colors, k: ColorKey, s: Option<string>): string {
    Paint(colors, RoleKey(k), s)
  }

  /** Every formatter of the table is an escape wrapper, as when the table
      was built from colour codes only. */
  ghost predicate EscapeColors(colors: Colors) {
    forall k :: k in colors ==> colors[k].Wrap? && IsEscape(colors[k].open) && IsEscape(colors[k].close)
  }

  /** Every role has a formatter. */
  ghost predicate RolesBound(colors: Colors) {
    forall k: ColorKey :: RoleKey(k) in colors
  }

  // ---------------------------------------------------------------------
  // Stack-frame lines: /^ {4}at (?:(.*?) (\(.*\))|(.*?))$/

  const FRAME_LEAD := "    at "

  /** The first alternative can match with the lazy function group ending at
      `i`: a space, then "(" ... ")" running to the end of the line. */
  predicate CallSiteAt(r: string, i: int) {
    0 <= i && i + 2 < |r| && r[i] == ' ' && r[i + 1] == '(' && r[|r| - 1] == ')'
  }

  /** The least `i >= from` where the first alternative matches. */
  function FindCallSite(r: string, from: nat): (o: Option<nat>)
    ensures o.Some? ==> from <= o.value && CallSiteAt(r, o.value)
    ensures o.Some? ==> forall j :: from <= j < o.value ==> !CallSiteAt(r, j)
    ensures o.None? ==> forall j :: from <= j ==> !CallSiteAt(r, j)
    decreases |r| - from
  {
    if from + 2 >= |r| then None
    else if CallSiteAt(r, from) then Some(from)
    else FindCallSite(r, from + 1)
  }

  /** The groups of a stack-frame match; `None` is a group that did not
      participate. */
  datatype FrameMatch = FrameMatch(typeAndFn: Option<string>, location1: Option<string>, location2: Option<string>)

  predicate IsFrameLine(l: string) {
    |l| >= 7 && l[..7] == FRAME_LEAD
  }

  /** Any line that starts with four spaces and "at " matches: with a
      function and a parenthesised location when the lazy first alternative
      finds one, otherwise with the whole rest as a bare location. */
  function FrameGroups(l: string): (r: Option<FrameMatch>)
    ensures r.Some? <==> IsFrameLine(l)
    ensures r.Some? && r.value.location2.None? ==>
      && r.value.typeAndFn.Some? && r.value.location1.Some?
      && l == FRAME_LEAD + r.value.typeAndFn.value + " " + r.value.location1.value
      && CallSiteAt(l[7..], |r.value.typeAndFn.value|)
      && forall j :: 0 <= j < |r.value.typeAndFn.value| ==> !CallSiteAt(l[7..], j)
    ensures r.Some? && r.value.location2.Some? ==>
      && r.value.typeAndFn.None? && r.value.location1.None?
      && l == FRAME_LEAD + r.value.location2.value
      && forall j :: !CallSiteAt(r.value.location2.value, j)
  {
    if IsFrameLine(l) then
      var r := l[7..];
      assert l == FRAME_LEAD + r;
      match FindCallSite(r, 0)
      case Some(i) =>
        assert r == r[..i] + " " + r[i + 1..];
        Some(FrameMatch(Some(r[..i]), Some(r[i + 1..]), None))
      case None => Some(FrameMatch(None, None, Some(r)))
    else None
  }

  /** The replacement callback at PrettyFormatter.ts:116. */
  function FrameReplacement(colors: Colors, m: FrameMatch): string {
    "    " + (Tint(colors, ERROR_AT, Some("at")) + (" " + FrameTail(colors, m)))
  }

  /** The painted groups after "at ": function, bare location, a space and
      the parenthesised location. */
  function FrameTail(colors: Colors, m: FrameMatch): string {
    Tint(colors, ERROR_TYPE_AND_FUNCTION, m.typeAndFn)
      + (Tint(colors, ERROR_LOCATION, m.location2) + (" " + Tint(colors, ERROR_LOCATION, m.location1)))
  }

  // ---------------------------------------------------------------------
  // Source-mapped lines: /^ {8}-> (.*?)$/

  const ARROW_LEAD := "        -> "

  function SourceMapGroups(l: string): (r: Option<string>)
    ensures r.Some? <==> |l| >= 11 && l[..11] == ARROW_LEAD
    ensures r.Some? ==> l == ARROW_LEAD + r.value
  {
    if |l| >= 11 && l[..11] == ARROW_LEAD then
      assert l == ARROW_LEAD + l[11..];
      Some(l[11..])
    else None
  }

  /** The replacement callback at PrettyFormatter.ts:119. */
  function SourceMapReplacement(colors: Colors, location: string): string {
    "        " + (Tint(colors, ERROR_NODEJS_SOURCE_MAP_ARROW, Some("->")) + (" "
      + Tint(colors, ERROR_NODEJS_SOURCE_MAP_LOCATION, Some(location))))
  }

  // ---------------------------------------------------------------------
  // Header lines: /^(?:(Caused by:) )?(\w+):* *(.*)$/

  const CAUSED_BY := "Caused by:"

  datatype HeaderMatch = HeaderMatch(causedBy: Option<string>, errorName: string, message: string)

  /** A run of colons followed by a run of spaces, as `:* *` matches. */
  predicate IsSeparator(s: string) {
    && (forall i :: 0 <= i < |s| ==> s[i] == ':' || s[i] == ' ')
    && (forall i, j :: 0 <= i < j < |s| && s[i] == ' ' ==> s[j] == ' ')
  }

  /** The length `:* *` takes at the start of `s`, both runs greedy: the
      character after the separator is no space, and no colon either unless
      the space run has begun. */
  function SeparatorLength(s: string): (n: nat)
    ensures n <= |s| && IsSeparator(s[..n])
    ensures n < |s| ==> s[n] != ' '
    ensures n < |s| && s[n] == ':' ==> ' ' in s[..n]
  {
    var c := Run(s, Colons);
    var sp := Run(s[c..], Spaces);
    assert forall i :: c <= i < c + sp ==> s[i] == s[c..][i - c];
    assert sp > 0 ==> s[..c + sp][c] == ' ';
    c + sp
  }

  /** The separator is the longest prefix made of colons followed by
      spaces: taking one character more never gives such a prefix. */
  lemma SeparatorLongest(s: string, m: nat)
    requires SeparatorLength(s) < m <= |s|
    ensures !IsSeparator(s[..m])
  {
  }

  /** The text after the optional "Caused by: " group: the group is tried
      first and kept only when a word follows it. */
  function HeaderTail(l: string): string {
    if |l| >= 11 && l[..11] == CAUSED_BY + " " && Run(l[11..], WordChars) > 0 then l[11..] else l
  }

  /** The name, the colons and the spaces are each as long as possible, and
      the message is the rest of the line. */
  function HeaderGroups(l: string): (r: Option<HeaderMatch>)
  {
    var tail := HeaderTail(l);
    var n := Run(tail, WordChars);
    if n == 0 then None
    else
      var after := tail[n..];
      Some(HeaderMatch(if tail != l then Some(CAUSED_BY) else None, tail[..n], after[SeparatorLength(after)..]))
  }

  /** The text the optional group consumed. */
  function HeaderLead(m: HeaderMatch): string {
    if m.causedBy.Some? then CAUSED_BY + " " else ""
  }

  /** The text `:* *` consumed in a header match. */
  function HeaderSeparator(l: string): string
    requires HeaderGroups(l).Some?
  {
    var tail := HeaderTail(l);
    var after := tail[Run(tail, WordChars)..];
    after[..SeparatorLength(after)]
  }

  /** A line matches the header expression exactly when it starts with a
      word character (the "Caused by: " marker itself starts with one). */
  lemma HeaderMatchesIff(l: string)
    ensures HeaderGroups(l).Some? <==> |l| > 0 && IsWordChar(l[0])
  {
    if HeaderTail(l) != l {
      assert l[0] == 'C';
    }
  }

  lemma HeaderLeadSplit(l: string)
    requires HeaderGroups(l).Some?
    ensures l == HeaderLead(HeaderGroups(l).value) + HeaderTail(l)
  {
    if HeaderTail(l) != l { assert l == l[..11] + l[11..]; }
  }

  lemma HeaderTailSplit(l: string)
    requires HeaderGroups(l).Some?
    ensures HeaderTail(l) == HeaderGroups(l).value.errorName + HeaderSeparator(l) + HeaderGroups(l).value.message
  {
    var tail := HeaderTail(l);
    var n := Run(tail, WordChars);
    var after := tail[n..];
    var k := SeparatorLength(after);
    var m := HeaderGroups(l).value;
    assert m.errorName == tail[..n] && m.message == after[k..] && HeaderSeparator(l) == after[..k];
    SplitThree(tail, n, k);
  }

  lemma SplitThree(s: string, n: nat, k: nat)
    requires n <= |s| && k <= |s| - n
    ensures s == s[..n] + s[n..][..k] + s[n..][k..]
  {
    var after := s[n..];
    assert after == after[..k] + after[k..];
    assert s == s[..n] + after;
    ConcatAssoc(s[..n], after[..k], after[k..]);
  }

  /** The error name is a non-empty word, the separator a run of colons
      followed by a run of spaces, and the message does not start with a
      space: `\w+`, `:*` and ` *` are each greedy. */
  lemma HeaderPartsClasses(l: string)
    requires HeaderGroups(l).Some?
    ensures |HeaderGroups(l).value.errorName| > 0
    ensures forall i :: 0 <= i < |HeaderGroups(l).value.errorName| ==> IsWordChar(HeaderGroups(l).value.errorName[i])
    ensures IsSeparator(HeaderSeparator(l))
    ensures |HeaderGroups(l).value.message| > 0 ==> HeaderGroups(l).value.message[0] != ' '
    ensures |HeaderGroups(l).value.errorName| < |HeaderTail(l)| ==>
      !IsWordChar(HeaderTail(l)[|HeaderGroups(l).value.errorName|])
    ensures |HeaderGroups(l).value.message| > 0 && HeaderGroups(l).value.message[0] == ':' ==>
      ' ' in HeaderSeparator(l)
  {
  }

  /** The usual header: the name, the message, no code. */
  lemma HeaderOfPlainError()
    ensures HeaderGroups("Error: boom") == Some(HeaderMatch(None, "Error", "boom"))
  {
    assert "Error: boom" == "Error" + (":" + (" " + "boom"));
    HeaderGroupsOf("Error", ":", " ", "boom");
  }

  /** Two colons collapse into the separator, and the message keeps the
      parenthesised code for the callback to extract. */
  lemma HeaderWithCode()
    ensures HeaderGroups("TypeError:: (E_BAD) invalid input")
      == Some(HeaderMatch(None, "TypeError", "(E_BAD) invalid input"))
  {
    assert "TypeError:: (E_BAD) invalid input" == "TypeError" + ("::" + (" " + "(E_BAD) invalid input"));
    HeaderGroupsOf("TypeError", "::", " ", "(E_BAD) invalid input");
  }

  /** A header without "Caused by: ": a word, colons, spaces and a message
      that starts with neither. Any word qualifies, "CustomError" included:
      the colon after it rules the marker out. */
  lemma HeaderGroupsOf(name: string, colons: string, spaces: string, message: string)
    requires |name| > 0 && forall i :: 0 <= i < |name| ==> IsWordChar(name[i])
    requires |colons| > 0 && forall i :: 0 <= i < |colons| ==> colons[i] == ':'
    requires forall i :: 0 <= i < |spaces| ==> spaces[i] == ' '
    requires |message| > 0 && message[0] != ':' && message[0] != ' '
    ensures HeaderGroups(name + (colons + (spaces + message))) == Some(HeaderMatch(None, name, message))
  {
    var l := name + (colons + (spaces + message));
    NoMarkerBeforeColon(name, colons + (spaces + message));
    WordRunOf(name, colons + (spaces + message));
    SeparatorOf(colons, spaces, message);
    assert colons + spaces + message == colons + (spaces + message);
    assert (colons + (spaces + message))[|colons| + |spaces|..] == message;
  }

  /** A word followed by a colon is no "Caused by: " marker: the marker has
      a space where a word longer than six has a word character, and no
      colon among its first seven characters. */
  lemma NoMarkerBeforeColon(name: string, rest: string)
    requires |name| > 0 && forall i :: 0 <= i < |name| ==> IsWordChar(name[i])
    requires |rest| > 0 && rest[0] == ':'
    ensures HeaderTail(name + rest) == name + rest
  {
    var l := name + rest;
    var m := CAUSED_BY + " ";
    assert |l| >= 11 ==> l[..11] != m by {
      if |l| >= 11 {
        var k := if |name| > 6 then 6 else |name|;
        MarkerShape();
        assert m[..7][k] == m[k] && l[..11][k] == l[k];
        assert l[k] != m[k];
      }
    }
  }

  /** The marker has a space at position 6 and no colon before it. */
  lemma MarkerShape()
    ensures |CAUSED_BY + " "| == 11 && (CAUSED_BY + " ")[6] == ' ' && ':' !in (CAUSED_BY + " ")[..7]
  {
    assert (CAUSED_BY + " ")[..7] == "Caused ";
  }

  /** A word run ends at the first character that is no word character. */
  lemma WordRunOf(w: string, rest: string)
    requires forall i :: 0 <= i < |w| ==> IsWordChar(w[i])
    requires |rest| > 0 && !IsWordChar(rest[0])
    ensures Run(w + rest, WordChars) == |w| && (w + rest)[..|w|] == w && (w + rest)[|w|..] == rest
  {
    RunStopsAt(w + rest, WordChars, |w|);
  }

  /** The separator of colons, then spaces, then a text that starts with
      neither. */
  lemma SeparatorOf(colons: string, spaces: string, rest: string)
    requires forall i :: 0 <= i < |colons| ==> colons[i] == ':'
    requires forall i :: 0 <= i < |spaces| ==> spaces[i] == ' '
    requires |rest| > 0 && rest[0] != ':' && rest[0] != ' '
    ensures SeparatorLength(colons + spaces + rest) == |colons| + |spaces|
  {
    var s := colons + spaces + rest;
    RunStopsAt(s, Colons, |colons|);
    assert s[|colons|..] == spaces + rest;
    RunStopsAt(spaces + rest, Spaces, |spaces|);
  }

  /** The match splits the line into the optional "Caused by: ", the
      error name, the separator and the message, in that order. */
  lemma HeaderGroupsShape(l: string)
    requires HeaderGroups(l).Some?
    ensures l == HeaderLead(HeaderGroups(l).value) + HeaderTail(l)
    ensures HeaderTail(l) == HeaderGroups(l).value.errorName + HeaderSeparator(l) + HeaderGroups(l).value.message
  {
    HeaderLeadSplit(l);
    HeaderTailSplit(l);
  }

  /** "Caused by: " followed by a word is taken by the optional group: the
      marker is reported and the rest of the line is matched as a header. */
  lemma CausedByTaken(t: string)
    requires |t| > 0 && IsWordChar(t[0])
    ensures HeaderTail(CAUSED_BY + " " + t) == t
    ensures HeaderGroups(CAUSED_BY + " " + t).Some?
    ensures HeaderGroups(CAUSED_BY + " " + t).value.causedBy == Some(CAUSED_BY)
  {
    var l := CAUSED_BY + " " + t;
    assert |CAUSED_BY + " "| == 11;
    assert l[..11] == CAUSED_BY + " " && l[11..] == t;
    assert InClass(t[0], WordChars);
  }

  /** After the marker the match is the one the rest of the line has on
      its own, with the marker added. */
  lemma CausedByHeaderOf(t: string, h: HeaderMatch)
    requires HeaderGroups(t) == Some(h) && h.causedBy.None?
    ensures HeaderGroups(CAUSED_BY + " " + t) == Some(h.(causedBy := Some(CAUSED_BY)))
  {
    HeaderMatchesIff(t);
    CausedByTaken(t);
  }

  /** The group is reported exactly when the line starts with "Caused by: "
      and a word character follows, and what it reports is the marker. */
  lemma CausedByIff(l: string)
    ensures (HeaderGroups(l).Some? && HeaderGroups(l).value.causedBy.Some?)
      <==> (|l| > 11 && l[..11] == CAUSED_BY + " " && IsWordChar(l[11]))
    ensures HeaderGroups(l).Some? && HeaderGroups(l).value.causedBy.Some? ==>
      HeaderGroups(l).value.causedBy == Some(CAUSED_BY)
  {
    if |l| > 11 && l[..11] == CAUSED_BY + " " && IsWordChar(l[11]) {
      assert InClass(l[11..][0], WordChars);
    }
  }

  lemma ConcatAssoc(a: string, b: string, c: string)
    ensures a + (b + c) == a + b + c
  {
  }

  /** The code extraction at PrettyFormatter.ts:122-127: a message starting
      with "(" loses everything up to its first ")", and the text between
      them is the code; without a ")" the message is kept whole. */
  function ExtractCode(message: string): (r: (string, string))
    ensures (|message| == 0 || message[0] != '(') ==> r == ("", message)
    ensures |message| > 0 && message[0] == '(' && ')' !in message ==> r == ("", message)
    ensures |message| > 0 && message[0] == '(' && ')' in message ==>
      var j := IndexOf(message, ')');
      1 <= j && r == (message[1..j], message[j + 1..])
  {
    if |message| > 0 && message[0] == '(' then
      var last := IndexOf(message, ')');
      var code := if last - 1 >= 0 then Substr(message, 1, last - 1) else "";
      (code, SubstrFrom(message, last + 1))
    else ("", message)
  }

  /** The replacement callback at PrettyFormatter.ts:121-129. */
  function HeaderReplacement(colors: Colors, m: HeaderMatch): string {
    var (code, message) := ExtractCode(m.message);
    PaintHeader(colors, m.causedBy, m.errorName, code, message)
  }

  /** The template at PrettyFormatter.ts:129. */
  function PaintHeader(colors: Colors, causedBy: Option<string>, name: string, code: string, message: string): string {
    Tint(colors, ERROR_CAUSED_BY, causedBy) + ((if causedBy.Some? then " " else "")
      + (Tint(colors, ERROR_NAME, Some(name)) + (": " + CodePart(colors, code, message))))
  }

  /** The parenthesised, coloured code of the template (nothing when the
      code is empty) and the message after it. */
  function CodePart(colors: Colors, code: string, message: string): string {
    (if code != "" then "(" else "") + (Tint(colors, ERROR_CODE, Some(code))
      + ((if code != "" then ")" else "") + message))
  }

  // ---------------------------------------------------------------------
  // Passes

  /** The three rewrites, and their single-pass combination. */
  datatype Rule = FrameRule | SourceMapRule | HeaderRule | AllRules

  /** One-pass reading of the three rules: a frame line, else a source-map
      line, else a header line, else the line unchanged. */
  function RenderLine(colors: Colors, l: string): string {
    match FrameGroups(l)
    case Some(m) => FrameReplacement(colors, m)
    case None =>
      match SourceMapGroups(l)
      case Some(loc) => SourceMapReplacement(colors, loc)
      case None =>
        match HeaderGroups(l)
        case Some(h) => HeaderReplacement(colors, h)
        case None => l
  }

  /** A rule applied to one line: the replacement of its match, or the line
      itself when the expression does not match it. */
  function RewriteLine(colors: Colors, rule: Rule, l: string): string {
    match rule
    case FrameRule => (match FrameGroups(l) case Some(m) => FrameReplacement(colors, m) case None => l)
    case SourceMapRule =>
      (match SourceMapGroups(l) case Some(loc) => SourceMapReplacement(colors, loc) case None => l)
    case HeaderRule => (match HeaderGroups(l) case Some(h) => HeaderReplacement(colors, h) case None => l)
    case AllRules => RenderLine(colors, l)
  }

  /** `text.replace(regex, callback)` for a line-anchored global regex: each
      line rewritten, each terminator kept. */
  function Replace(colors: Colors, rule: Rule, s: string): string
    decreases |s|
  {
    var n := Run(s, LineChars);
    if n == |s| then RewriteLine(colors, rule, s)
    else RewriteLine(colors, rule, s[..n]) + [s[n]] + Replace(colors, rule, s[n + 1..])
  }

  /** `formatError` on the stack text the error shows: the frame pass, then
      the source-map pass, then the header pass, each over the previous
      result. */
  function FormatError(colors: Colors, stack: string): string {
    Replace(colors, HeaderRule, Replace(colors, SourceMapRule, Replace(colors, FrameRule, stack)))
  }

  // ---------------------------------------------------------------------
  // Passes act line by line

  lemma ReplaceLine(colors: Colors, rule: Rule, a: string)
    requires TerminatorFree(a)
    ensures Replace(colors, rule, a) == RewriteLine(colors, rule, a)
  {
    RunStopsAt(a, LineChars, |a|);
  }

  lemma ReplaceSplit(colors: Colors, rule: Rule, a: string, t: char, b: string)
    requires TerminatorFree(a) && IsLineTerminator(t)
    ensures Replace(colors, rule, a + [t] + b) == RewriteLine(colors, rule, a) + [t] + Replace(colors, rule, b)
  {
    var s := a + [t] + b;
    assert s[..|a|] == a && s[|a|] == t && s[|a| + 1..] == b;
    RunStopsAt(s, LineChars, |a|);
  }

  lemma EscapeTerminatorFree(e: string)
    requires IsEscape(e)
    ensures TerminatorFree(e)
  {
    assert e == [e[0], e[1]] + e[2..|e| - 1] + [e[|e| - 1]];
  }

  lemma TintTerminatorFree(colors: Colors, k: ColorKey, s: Option<string>)
    requires EscapeColors(colors)
    requires s.Some? ==> TerminatorFree(s.value)
    ensures TerminatorFree(Tint(colors, k, s))
  {
    if RoleKey(k) in colors {
      EscapeTerminatorFree(colors[RoleKey(k)].open);
      EscapeTerminatorFree(colors[RoleKey(k)].close);
    }
  }

  lemma FrameReplacementTerminatorFree(colors: Colors, l: string)
    requires EscapeColors(colors) && TerminatorFree(l) && FrameGroups(l).Some?
    ensures TerminatorFree(FrameReplacement(colors, FrameGroups(l).value))
  {
    var m := FrameGroups(l).value;
    TintTerminatorFree(colors, ERROR_AT, Some("at"));
    TintTerminatorFree(colors, ERROR_TYPE_AND_FUNCTION, m.typeAndFn);
    TintTerminatorFree(colors, ERROR_LOCATION, m.location2);
    TintTerminatorFree(colors, ERROR_LOCATION, m.location1);
  }

  lemma SourceMapReplacementTerminatorFree(colors: Colors, l: string)
    requires EscapeColors(colors) && TerminatorFree(l) && SourceMapGroups(l).Some?
    ensures TerminatorFree(SourceMapReplacement(colors, SourceMapGroups(l).value))
  {
    TintTerminatorFree(colors, ERROR_NODEJS_SOURCE_MAP_ARROW, Some("->"));
    TintTerminatorFree(colors, ERROR_NODEJS_SOURCE_MAP_LOCATION, SourceMapGroups(l));
  }

  /** The code and the rest are both taken from the message. */
  lemma ExtractCodeFrom(message: string)
    ensures forall c :: c in ExtractCode(message).0 ==> c in message
    ensures forall c :: c in ExtractCode(message).1 ==> c in message
  {
    if |message| > 0 && message[0] == '(' && ')' in message {
      var j := IndexOf(message, ')');
      SliceMembers(message, 1, j);
      SliceMembers(message, j + 1, |message|);
    }
  }

  lemma HeaderPartsTerminatorFree(l: string)
    requires TerminatorFree(l) && HeaderGroups(l).Some?
    ensures TerminatorFree(HeaderGroups(l).value.errorName)
    ensures TerminatorFree(ExtractCode(HeaderGroups(l).value.message).0)
    ensures TerminatorFree(ExtractCode(HeaderGroups(l).value.message).1)
  {
    var m := HeaderGroups(l).value;
    HeaderGroupsShape(l);
    assert TerminatorFree(HeaderTail(l));
    assert TerminatorFree(m.errorName) && TerminatorFree(m.message);
    ExtractCodeFrom(m.message);
  }

  lemma CausedByTerminatorFree()
    ensures TerminatorFree(CAUSED_BY)
  {
    forall c | c in CAUSED_BY ensures !IsLineTerminator(c) {
      var i :| 0 <= i < |CAUSED_BY| && CAUSED_BY[i] == c;
      assert 'A' <= c <= 'z' || c == ' ' || c == ':';
    }
  }

  lemma HeaderReplacementTerminatorFree(colors: Colors, l: string)
    requires EscapeColors(colors) && TerminatorFree(l) && HeaderGroups(l).Some?
    ensures TerminatorFree(HeaderReplacement(colors, HeaderGroups(l).value))
  {
    var m := HeaderGroups(l).value;
    assert TerminatorFree(m.errorName) && TerminatorFree(ExtractCode(m.message).0)
      && TerminatorFree(ExtractCode(m.message).1) by {
      HeaderPartsTerminatorFree(l);
    }
    assert m.causedBy.Some? ==> TerminatorFree(m.causedBy.value) by {
      assert m.causedBy == None || m.causedBy == Some(CAUSED_BY);
      CausedByTerminatorFree();
    }
    HeaderPiecesTerminatorFree(colors, m);
  }

  lemma HeaderPiecesTerminatorFree(colors: Colors, m: HeaderMatch)
    requires EscapeColors(colors) && TerminatorFree(m.errorName)
    requires m.causedBy.Some? ==> TerminatorFree(m.causedBy.value)
    requires TerminatorFree(ExtractCode(m.message).0) && TerminatorFree(ExtractCode(m.message).1)
    ensures TerminatorFree(HeaderReplacement(colors, m))
  {
    var code := ExtractCode(m.message).0;
    var message := ExtractCode(m.message).1;
    var close := (if code != "" then ")" else "") + message;
    var coded := Tint(colors, ERROR_CODE, Some(code)) + close;
    var paren := (if code != "" then "(" else "") + coded;
    assert CodePart(colors, code, message) == paren;
    var named := Tint(colors, ERROR_NAME, Some(m.errorName)) + (": " + paren);
    var whole := Tint(colors, ERROR_CAUSED_BY, m.causedBy) + ((if m.causedBy.Some? then " " else "") + named);
    assert TerminatorFree(coded) by {
      TintTerminatorFree(colors, ERROR_CODE, Some(code));
    }
    assert TerminatorFree(named) by {
      TintTerminatorFree(colors, ERROR_NAME, Some(m.errorName));
    }
    assert TerminatorFree(whole) by {
      TintTerminatorFree(colors, ERROR_CAUSED_BY, m.causedBy);
    }
    assert HeaderReplacement(colors, m) == whole;
  }

  /** Under escape colours every rule maps a line to a line. */
  lemma RewriteTerminatorFree(colors: Colors, rule: Rule, l: string)
    requires EscapeColors(colors) && TerminatorFree(l)
    ensures TerminatorFree(RewriteLine(colors, rule, l))
  {
    match rule
    case FrameRule =>
      if FrameGroups(l).Some? { FrameReplacementTerminatorFree(colors, l); }
    case SourceMapRule =>
      if SourceMapGroups(l).Some? { SourceMapReplacementTerminatorFree(colors, l); }
    case HeaderRule =>
      if HeaderGroups(l).Some? { HeaderReplacementTerminatorFree(colors, l); }
    case AllRules =>
      if FrameGroups(l).Some? {
        FrameReplacementTerminatorFree(colors, l);
      } else if SourceMapGroups(l).Some? {
        SourceMapReplacementTerminatorFree(colors, l);
      } else if HeaderGroups(l).Some? {
        HeaderReplacementTerminatorFree(colors, l);
      }
  }

  /** The first character "at" is painted with is never a space: an escape
      starts with ESC, and a missing formatter renders "undefined". */
  lemma PaintedAtStart(colors: Colors)
    requires EscapeColors(colors)
    ensures |Tint(colors, ERROR_AT, Some("at"))| > 0 && Tint(colors, ERROR_AT, Some("at"))[0] != ' '
  {
  }

  /** The header pass, run after the other two, still sees each rewritten
      frame and source-map line as its own, because those start with a space,
      and the source-map pass never sees a rewritten frame line, because its
      fifth character is the start of the painted "at". */
  lemma PassesComposeOnLine(colors: Colors, l: string)
    requires EscapeColors(colors)
    ensures RewriteLine(colors, HeaderRule, RewriteLine(colors, SourceMapRule, RewriteLine(colors, FrameRule, l)))
      == RenderLine(colors, l)
  {
    match FrameGroups(l)
    case Some(m) =>
      var x := FrameReplacement(colors, m);
      PaintedAtStart(colors);
      assert x[4] != ' ';
      assert SourceMapGroups(x).None?;
      HeaderMatchesIff(x);
    case None =>
      match SourceMapGroups(l)
      case Some(loc) =>
        HeaderMatchesIff(SourceMapReplacement(colors, loc));
      case None =>
  }

  /** On a single line the three passes are the per-line classifier. */
  lemma FormatErrorOnLine(colors: Colors, a: string)
    requires EscapeColors(colors) && TerminatorFree(a)
    ensures FormatError(colors, a) == RenderLine(colors, a)
  {
    var fa := RewriteLine(colors, FrameRule, a);
    var sa := RewriteLine(colors, SourceMapRule, fa);
    assert Replace(colors, FrameRule, a) == fa && TerminatorFree(fa) by {
      ReplaceLine(colors, FrameRule, a);
      RewriteTerminatorFree(colors, FrameRule, a);
    }
    assert Replace(colors, SourceMapRule, fa) == sa && TerminatorFree(sa) by {
      ReplaceLine(colors, SourceMapRule, fa);
      RewriteTerminatorFree(colors, SourceMapRule, fa);
    }
    assert Replace(colors, HeaderRule, sa) == RenderLine(colors, a) by {
      ReplaceLine(colors, HeaderRule, sa);
      PassesComposeOnLine(colors, a);
    }
  }

  /** The three passes over a first line, a terminator and the rest. */
  lemma FormatErrorSplit(colors: Colors, a: string, t: char, b: string)
    requires EscapeColors(colors) && TerminatorFree(a) && IsLineTerminator(t)
    ensures FormatError(colors, a + [t] + b) == RenderLine(colors, a) + [t] + FormatError(colors, b)
  {
    var fa := RewriteLine(colors, FrameRule, a);
    var sa := RewriteLine(colors, SourceMapRule, fa);
    RewriteTerminatorFree(colors, FrameRule, a);
    RewriteTerminatorFree(colors, SourceMapRule, fa);
    PassesComposeOnLine(colors, a);
    ReplaceSplit(colors, FrameRule, a, t, b);
    ReplaceSplit(colors, SourceMapRule, fa, t, Replace(colors, FrameRule, b));
    ReplaceSplit(colors, HeaderRule, sa, t, Replace(colors, SourceMapRule, Replace(colors, FrameRule, b)));
  }

  /** The three sequential passes of `formatError` equal one pass of the
      per-line classifier, whenever the colours are escape wrappers. */
  lemma {:induction false} FormatErrorLineByLine(colors: Colors, s: string)
    requires EscapeColors(colors)
    ensures FormatError(colors, s) == Replace(colors, AllRules, s)
    decreases |s|
  {
    if TerminatorFree(s) {
      FormatErrorOnLine(colors, s);
      ReplaceLine(colors, AllRules, s);
    } else {
      var a, t, b := FirstLine(s);
      calc {
        FormatError(colors, s);
        { FormatErrorSplit(colors, a, t, b); }
        RenderLine(colors, a) + [t] + FormatError(colors, b);
        { FormatErrorLineByLine(colors, b); }
        RenderLine(colors, a) + [t] + Replace(colors, AllRules, b);
        { ReplaceSplit(colors, AllRules, a, t, b); }
        Replace(colors, AllRules, s);
      }
    }
  }

  lemma ReplaceKeepsTerminatorsStep(colors: Colors, rule: Rule, a: string, t: char, b: string)
    requires EscapeColors(colors) && TerminatorFree(a) && IsLineTerminator(t)
    requires Terminators(Replace(colors, rule, b)) == Terminators(b)
    ensures Terminators(Replace(colors, rule, a + [t] + b)) == Terminators(a + [t] + b)
  {
    RewriteTerminatorFree(colors, rule, a);
    ReplaceSplit(colors, rule, a, t, b);
    TerminatorsAroundLine(RewriteLine(colors, rule, a), a, t, Replace(colors, rule, b), b);
  }

  /** Every pass keeps the line terminators of the text, in order. */
  lemma {:induction false} ReplaceKeepsTerminators(colors: Colors, rule: Rule, s: string)
    requires EscapeColors(colors)
    ensures Terminators(Replace(colors, rule, s)) == Terminators(s)
    decreases |s|
  {
    if TerminatorFree(s) {
      RewriteTerminatorFree(colors, rule, s);
      ReplaceLine(colors, rule, s);
    } else {
      var a, t, b := FirstLine(s);
      ReplaceKeepsTerminators(colors, rule, b);
      ReplaceKeepsTerminatorsStep(colors, rule, a, t, b);
    }
  }

  /** `formatError` changes no line structure: the same terminators in the
      same order, hence as many "\n" as the stack had. */
  lemma FormatErrorKeepsLines(colors: Colors, stack: string)
    requires EscapeColors(colors)
    ensures Terminators(FormatError(colors, stack)) == Terminators(stack)
    ensures Count(FormatError(colors, stack), '\n') == Count(stack, '\n')
  {
    var f := Replace(colors, FrameRule, stack);
    var m := Replace(colors, SourceMapRule, f);
    ReplaceKeepsTerminators(colors, FrameRule, stack);
    ReplaceKeepsTerminators(colors, SourceMapRule, f);
    ReplaceKeepsTerminators(colors, HeaderRule, m);
    CountTerminators(stack, '\n');
    CountTerminators(FormatError(colors, stack), '\n');
  }

  // ---------------------------------------------------------------------
  // What a rendered line shows once its colours are removed

  /** A painted group shows as its text, an absent group as nothing. */
  lemma StripTint(colors: Colors, k: ColorKey, x: Option<string>, s: string)
    requires EscapeColors(colors) && RolesBound(colors)
    requires x.Some? ==> EscapeFree(x.value)
    ensures Strip(Tint(colors, k, x) + s) == (if x.Some? then x.value else "") + Strip(s)
  {
    var f := colors[RoleKey(k)];
    if x.Some? {
      StripPainted(f, x.value, s);
    } else {
      assert Tint(colors, k, x) + s == s;
    }
  }

  /** The text a group contributes: its value, or nothing when it did not
      participate. */
  function Shown(o: Option<string>): string {
    if o.Some? then o.value else ""
  }

  lemma StripFrameReplacement(colors: Colors, m: FrameMatch)
    requires EscapeColors(colors) && RolesBound(colors)
    requires m.typeAndFn.Some? ==> EscapeFree(m.typeAndFn.value)
    requires m.location1.Some? ==> EscapeFree(m.location1.value)
    requires m.location2.Some? ==> EscapeFree(m.location2.value)
    ensures Strip(FrameReplacement(colors, m))
      == "    " + ("at" + (" " + (Shown(m.typeAndFn) + (Shown(m.location2) + (" " + Shown(m.location1))))))
  {
    var at := Tint(colors, ERROR_AT, Some("at"));
    var r2 := " " + FrameTail(colors, m);
    assert Strip(r2) == " " + Strip(FrameTail(colors, m)) by {
      StripPlain(" ", FrameTail(colors, m));
    }
    StripFrameTail(colors, m);
    assert Strip(at + r2) == "at" + Strip(r2) by {
      StripTint(colors, ERROR_AT, Some("at"), r2);
    }
    assert Strip("    " + (at + r2)) == "    " + Strip(at + r2) by {
      StripPlain("    ", at + r2);
    }
  }

  lemma StripFrameTail(colors: Colors, m: FrameMatch)
    requires EscapeColors(colors) && RolesBound(colors)
    requires m.typeAndFn.Some? ==> EscapeFree(m.typeAndFn.value)
    requires m.location1.Some? ==> EscapeFree(m.location1.value)
    requires m.location2.Some? ==> EscapeFree(m.location2.value)
    ensures Strip(FrameTail(colors, m)) == Shown(m.typeAndFn) + (Shown(m.location2) + (" " + Shown(m.location1)))
  {
    var fn := Tint(colors, ERROR_TYPE_AND_FUNCTION, m.typeAndFn);
    var loc2 := Tint(colors, ERROR_LOCATION, m.location2);
    var loc1 := Tint(colors, ERROR_LOCATION, m.location1);
    var r1 := " " + loc1;
    assert Strip(r1) == " " + Shown(m.location1) by {
      assert loc1 + "" == loc1;
      StripTint(colors, ERROR_LOCATION, m.location1, "");
      StripPlain(" ", loc1);
      assert Strip("") == "";
      assert Shown(m.location1) + "" == Shown(m.location1);
    }
    assert Strip(loc2 + r1) == Shown(m.location2) + Strip(r1) by {
      StripTint(colors, ERROR_LOCATION, m.location2, r1);
    }
    assert Strip(fn + (loc2 + r1)) == Shown(m.typeAndFn) + Strip(loc2 + r1) by {
      StripTint(colors, ERROR_TYPE_AND_FUNCTION, m.typeAndFn, loc2 + r1);
    }
  }

  /** A frame with a call site shows exactly as written; a bare frame shows
      with one trailing space, left by the empty fourth group. */
  lemma FrameShows(colors: Colors, l: string)
    requires EscapeColors(colors) && RolesBound(colors)
    requires EscapeFree(l) && IsFrameLine(l)
    ensures Strip(RenderLine(colors, l)) == if FrameGroups(l).value.location2.Some? then l + " " else l
  {
    var m := FrameGroups(l).value;
    if m.location2.Some? {
      BareFrameShows(colors, m, l);
    } else {
      CallSiteFrameShows(colors, m, l);
    }
  }

  lemma BareFrameShows(colors: Colors, m: FrameMatch, l: string)
    requires EscapeColors(colors) && RolesBound(colors) && EscapeFree(l)
    requires m.typeAndFn.None? && m.location1.None? && m.location2.Some? && l == FRAME_LEAD + m.location2.value
    ensures Strip(FrameReplacement(colors, m)) == l + " "
  {
    var r := m.location2.value;
    assert EscapeFree(r);
    StripFrameReplacement(colors, m);
    assert "    " + ("at" + (" " + ("" + (r + (" " + ""))))) == l + " ";
  }

  lemma CallSiteFrameShows(colors: Colors, m: FrameMatch, l: string)
    requires EscapeColors(colors) && RolesBound(colors) && EscapeFree(l)
    requires m.typeAndFn.Some? && m.location1.Some? && m.location2.None?
    requires l == FRAME_LEAD + m.typeAndFn.value + " " + m.location1.value
    ensures Strip(FrameReplacement(colors, m)) == l
  {
    var f := m.typeAndFn.value;
    var c := m.location1.value;
    assert EscapeFree(f) && EscapeFree(c) by {
      assert forall x :: x in f || x in c ==> x in l;
    }
    assert "    " + ("at" + (" " + (f + ("" + (" " + c))))) == l by {
      assert "" + (" " + c) == " " + c;
      assert "    " + ("at" + (" " + (f + (" " + c)))) == FRAME_LEAD + f + " " + c;
    }
    StripFrameReplacement(colors, m);
  }

  /** A source-map line shows exactly as written. */
  lemma SourceMapShows(colors: Colors, l: string)
    requires EscapeColors(colors) && RolesBound(colors)
    requires EscapeFree(l) && SourceMapGroups(l).Some? && !IsFrameLine(l)
    ensures Strip(RenderLine(colors, l)) == l
  {
    var loc := SourceMapGroups(l).value;
    assert EscapeFree(loc) by {
      assert forall x :: x in loc ==> x in l;
    }
    assert RenderLine(colors, l) == SourceMapReplacement(colors, loc) by {
      assert FrameGroups(l).None?;
    }
    assert Strip(SourceMapReplacement(colors, loc)) == l by {
      StripSourceMapReplacement(colors, loc);
      assert "        " + ("->" + (" " + loc)) == ARROW_LEAD + loc;
    }
  }

  /** The plain text of a rewritten source-map line. */
  lemma StripSourceMapReplacement(colors: Colors, loc: string)
    requires EscapeColors(colors) && RolesBound(colors) && EscapeFree(loc)
    ensures Strip(SourceMapReplacement(colors, loc)) == "        " + ("->" + (" " + loc))
  {
    var arrow := Tint(colors, ERROR_NODEJS_SOURCE_MAP_ARROW, Some("->"));
    var painted := Tint(colors, ERROR_NODEJS_SOURCE_MAP_LOCATION, Some(loc));
    var r1 := " " + painted;
    assert Strip(painted) == loc by {
      StripTint(colors, ERROR_NODEJS_SOURCE_MAP_LOCATION, Some(loc), "");
      assert painted + "" == painted;
      assert Strip("") == "";
      assert loc + "" == loc;
    }
    assert Strip(r1) == " " + loc by {
      StripPlain(" ", painted);
    }
    assert Strip(arrow + r1) == "->" + Strip(r1) by {
      StripTint(colors, ERROR_NODEJS_SOURCE_MAP_ARROW, Some("->"), r1);
    }
    StripPlain("        ", arrow + r1);
  }

  /** How an extracted code is shown: in parentheses, or not at all. */
  function CodeShown(code: string): string {
    if code != "" then "(" + code + ")" else ""
  }

  /** The code part of a header, followed by the rest of the message. */
  lemma StripCodePart(colors: Colors, code: string, rest: string)
    requires EscapeColors(colors) && RolesBound(colors)
    requires EscapeFree(code) && EscapeFree(rest)
    ensures Strip(CodePart(colors, code, rest)) == CodeShown(code) + rest
  {
    if code == "" {
      StripNoCode(colors, rest);
    } else {
      StripCodeInParens(colors, code, rest);
      assert "(" + (code + (")" + rest)) == CodeShown(code) + rest;
    }
  }

  lemma StripNoCode(colors: Colors, rest: string)
    requires EscapeColors(colors) && RolesBound(colors) && EscapeFree(rest)
    ensures Strip("" + (Tint(colors, ERROR_CODE, Some("")) + ("" + rest))) == CodeShown("") + rest
  {
    assert Tint(colors, ERROR_CODE, Some("")) == "";
    assert "" + ("" + ("" + rest)) == rest;
    StripKeeps(rest);
  }

  lemma StripCodeInParens(colors: Colors, code: string, rest: string)
    requires EscapeColors(colors) && RolesBound(colors)
    requires EscapeFree(code) && EscapeFree(rest)
    ensures Strip("(" + (Tint(colors, ERROR_CODE, Some(code)) + (")" + rest))) == "(" + (code + (")" + rest))
  {
    var p3 := Tint(colors, ERROR_CODE, Some(code));
    assert Strip(")" + rest) == ")" + rest by {
      StripKeeps(rest);
      StripPlain(")", rest);
    }
    assert Strip(p3 + (")" + rest)) == code + (")" + rest) by {
      StripTint(colors, ERROR_CODE, Some(code), ")" + rest);
    }
    StripPlain("(", p3 + (")" + rest));
  }

  lemma StripPaintHeader(colors: Colors, causedBy: Option<string>, name: string, code: string, rest: string)
    requires EscapeColors(colors) && RolesBound(colors)
    requires causedBy.Some? ==> EscapeFree(causedBy.value)
    requires EscapeFree(name) && EscapeFree(code) && EscapeFree(rest)
    ensures Strip(PaintHeader(colors, causedBy, name, code, rest))
      == (if causedBy.Some? then causedBy.value + " " else "") + (name + (": " + (CodeShown(code) + rest)))
  {
    var p1 := Tint(colors, ERROR_CAUSED_BY, causedBy);
    var p2 := Tint(colors, ERROR_NAME, Some(name));
    var sp := if causedBy.Some? then " " else "";
    var r3 := CodePart(colors, code, rest);
    var named := p2 + (": " + r3);
    var shown := name + (": " + (CodeShown(code) + rest));
    assert PaintHeader(colors, causedBy, name, code, rest) == p1 + (sp + named);
    assert Strip(named) == shown by {
      StripNamePart(colors, name, code, rest);
    }
    if causedBy.Some? {
      assert Strip(sp + named) == " " + shown by {
        StripPlain(" ", named);
      }
      StripTint(colors, ERROR_CAUSED_BY, causedBy, sp + named);
    } else {
      assert sp + named == named;
      StripTint(colors, ERROR_CAUSED_BY, causedBy, named);
    }
  }

  /** The error name and what follows it in a header. */
  lemma StripNamePart(colors: Colors, name: string, code: string, rest: string)
    requires EscapeColors(colors) && RolesBound(colors)
    requires EscapeFree(name) && EscapeFree(code) && EscapeFree(rest)
    ensures Strip(Tint(colors, ERROR_NAME, Some(name)) + (": " + CodePart(colors, code, rest)))
      == name + (": " + (CodeShown(code) + rest))
  {
    var r3 := CodePart(colors, code, rest);
    assert Strip(": " + r3) == ": " + (CodeShown(code) + rest) by {
      StripCodePart(colors, code, rest);
      StripPlain(": ", r3);
    }
    StripTint(colors, ERROR_NAME, Some(name), ": " + r3);
  }

  lemma StripHeaderReplacement(colors: Colors, m: HeaderMatch)
    requires EscapeColors(colors) && RolesBound(colors)
    requires m.causedBy == None || m.causedBy == Some(CAUSED_BY)
    requires EscapeFree(m.errorName) && EscapeFree(m.message)
    ensures Strip(HeaderReplacement(colors, m))
      == HeaderLead(m) + (m.errorName + (": " + (CodeShown(ExtractCode(m.message).0) + ExtractCode(m.message).1)))
  {
    var code := ExtractCode(m.message).0;
    var rest := ExtractCode(m.message).1;
    ExtractCodeFrom(m.message);
    assert EscapeFree(code) && EscapeFree(rest);
    assert EscapeFree(CAUSED_BY);
    StripPaintHeader(colors, m.causedBy, m.errorName, code, rest);
    assert HeaderReplacement(colors, m) == PaintHeader(colors, m.causedBy, m.errorName, code, rest);
    if m.causedBy.Some? {
      assert CAUSED_BY + " " + (m.errorName + (": " + (CodeShown(code) + rest)))
        == HeaderLead(m) + (m.errorName + (": " + (CodeShown(code) + rest)));
    }
  }

  /** A header line shows as the optional "Caused by: ", the name, ": ", the
      code in parentheses when there is one, and the rest of the message. */
  lemma HeaderShows(colors: Colors, l: string)
    requires EscapeColors(colors) && RolesBound(colors) && EscapeFree(l)
    requires !IsFrameLine(l) && SourceMapGroups(l).None? && HeaderGroups(l).Some?
    ensures Strip(RenderLine(colors, l))
      == HeaderLead(HeaderGroups(l).value) + (HeaderGroups(l).value.errorName
        + (": " + (CodeShown(ExtractCode(HeaderGroups(l).value.message).0) + ExtractCode(HeaderGroups(l).value.message).1)))
  {
    var m := HeaderGroups(l).value;
    assert EscapeFree(m.errorName) && EscapeFree(m.message) by {
      HeaderGroupsShape(l);
      assert forall x :: x in m.errorName || x in m.message ==> x in HeaderTail(l);
      assert forall x :: x in HeaderTail(l) ==> x in l;
    }
    StripHeaderReplacement(colors, m);
  }

  /** The code extraction shows a message as written unless it starts with
      an empty "()", which it drops. */
  lemma CodeShownKeeps(message: string)
    requires !(|message| >= 2 && message[..2] == "()")
    ensures CodeShown(ExtractCode(message).0) + ExtractCode(message).1 == message
  {
    if |message| > 0 && message[0] == '(' && ')' in message {
      var j := IndexOf(message, ')');
      assert message == "(" + message[1..j] + ")" + message[j + 1..];
    }
  }

  lemma EmptyCodeDropped(message: string)
    requires |message| >= 2 && message[..2] == "()"
    ensures CodeShown(ExtractCode(message).0) + ExtractCode(message).1 == message[2..]
  {
    assert message[1] == ')' && ')' in message;
    assert IndexOf(message, ')') == 1;
  }

  /** A header written as "Name: message" shows exactly as written. */
  lemma HeaderShowsAsWritten(colors: Colors, l: string)
    requires EscapeColors(colors) && RolesBound(colors) && EscapeFree(l)
    requires !IsFrameLine(l) && SourceMapGroups(l).None? && HeaderGroups(l).Some?
    requires HeaderSeparator(l) == ": "
    requires !(|HeaderGroups(l).value.message| >= 2 && HeaderGroups(l).value.message[..2] == "()")
    ensures Strip(RenderLine(colors, l)) == l
  {
    var m := HeaderGroups(l).value;
    assert HeaderLead(m) + (m.errorName + (": " + m.message)) == l by {
      HeaderGroupsShape(l);
      ConcatAssoc(m.errorName, ": ", m.message);
    }
    CodeShownKeeps(m.message);
    HeaderShows(colors, l);
  }

  /** A line that is only a name, such as "Error", gains ": ". */
  lemma BareNameShows(colors: Colors, l: string)
    requires EscapeColors(colors) && RolesBound(colors) && EscapeFree(l)
    requires |l| > 0 && forall i :: 0 <= i < |l| ==> IsWordChar(l[i])
    ensures Strip(RenderLine(colors, l)) == l + ": "
  {
    assert !IsFrameLine(l) && SourceMapGroups(l).None? by {
      assert l[0] != ' ';
    }
    assert HeaderTail(l) == l by {
      if |l| >= 11 {
        assert l[..11][6] == l[6] && IsWordChar(l[6]);
        assert (CAUSED_BY + " ")[6] == ' ';
      }
    }
    RunStopsAt(l, WordChars, |l|);
    var m := HeaderGroups(l).value;
    assert m == HeaderMatch(None, l, "") by {
      assert l[..|l|] == l && l[|l|..] == "";
    }
    assert ExtractCode("") == ("", "");
    assert "" + (l + (": " + (CodeShown("") + ""))) == l + ": ";
    HeaderShows(colors, l);
  }

  /** Any other line, one that does not start with a word character and is
      neither a frame nor a source-map line, is left as it is. */
  lemma OtherLinesUnchanged(colors: Colors, l: string)
    requires !IsFrameLine(l) && SourceMapGroups(l).None?
    requires |l| == 0 || !IsWordChar(l[0])
    ensures RenderLine(colors, l) == l
  {
    HeaderMatchesIff(l);
  }
}
