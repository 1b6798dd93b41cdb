/** Worked examples of src/formatters/PrettyFormatter.ts with the default
    colour table of src/util/constants.ts, escapes kept: which role paints
    which segment, with which SGR code, and where the parentheses of a
    location or a code fall relative to the escapes. */
module Examples {
  import opened Wrappers
  import opened Strings
  import opened Color
  import opened Constants
  import opened Records
  import opened ErrorRender
  import opened Pretty

  /** A formatter built without options. */
  function DefaultPretty(cache: Cache): PrettyFormatter
    requires CacheValid(cache)
  {
    DefaultFormatter(cache);
    NewPrettyFormatter(PrettyOptions(Absent, Absent), cache).value
  }

  /** The colour table of a formatter built without options. */
  function DefaultTable(cache: Cache): Colors
    requires CacheValid(cache)
  {
    DefaultPretty(cache).colors
  }

  /** Each entry of the default table becomes the escape wrapper of its
      code in a formatter built without options. */
  lemma DefaultBinding(cache: Cache, i: nat)
    requires CacheValid(cache) && i < |DefaultColors|
    ensures DefaultColors[i].1.Code? && InCatalogue(DefaultColors[i].1.code)
    ensures DefaultColors[i].0 in DefaultTable(cache)
    ensures DefaultTable(cache)[DefaultColors[i].0] == EscapeFor(DefaultColors[i].1.code)
  {
    DefaultColorsShape();
    var options := PrettyOptions(Absent, Absent);
    assert Coalesce(options.colors, []) == [];
    assert KeysOf<Key>([]) == {};
    NewPrettyFormatterColors(options, cache);
    LastBindingAt(DefaultColors, i);
    assert DefaultColors[i].0 in KeysOf(DefaultColors);
  }

  /** `key` is bound to the escape wrapper of the catalogued code `c`. */
  ghost predicate BoundTo(colors: Colors, key: Key, c: int) {
    key in colors && InCatalogue(c) && colors[key] == EscapeFor(c)
  }

  /** The bindings the examples rely on, as constants.ts:40-56 sets them:
      INFO and the logger name blue, the timestamp gray, the process id
      bright magenta, a "Caused by:" background red, an error name
      underlined, a code magenta, "at" yellow, the function cyan, a
      location dim, a source-map arrow green and its location dim. */
  ghost predicate DefaultPaints(colors: Colors) {
    && EscapeColors(colors) && RolesBound(colors)
    && BoundTo(colors, LevelKey(INFO), BLUE)
    && BoundTo(colors, RoleKey(LOG_LOGGER_NAME), BLUE)
    && BoundTo(colors, RoleKey(LOG_TIMESTAMP), GRAY)
    && BoundTo(colors, RoleKey(LOG_PROCESS_ID), BRIGHT_MAGENTA)
    && BoundTo(colors, RoleKey(ERROR_CAUSED_BY), BG_RED)
    && BoundTo(colors, RoleKey(ERROR_NAME), UNDERLINE)
    && BoundTo(colors, RoleKey(ERROR_CODE), MAGENTA)
    && BoundTo(colors, RoleKey(ERROR_AT), YELLOW)
    && BoundTo(colors, RoleKey(ERROR_TYPE_AND_FUNCTION), CYAN)
    && BoundTo(colors, RoleKey(ERROR_LOCATION), DIM)
    && BoundTo(colors, RoleKey(ERROR_NODEJS_SOURCE_MAP_ARROW), GREEN)
    && BoundTo(colors, RoleKey(ERROR_NODEJS_SOURCE_MAP_LOCATION), DIM)
  }

  lemma DefaultBound(cache: Cache, i: nat, key: Key, c: int)
    requires CacheValid(cache) && i < |DefaultColors| && DefaultColors[i] == (key, Code(c))
    ensures BoundTo(DefaultTable(cache), key, c)
  {
    DefaultBinding(cache, i);
  }

  /** The entries of constants.ts:40-56 the examples use, by position. */
  lemma DefaultEntries()
    ensures DefaultColors[1] == (LevelKey(INFO), Code(BLUE))
    ensures DefaultColors[6] == (RoleKey(LOG_LOGGER_NAME), Code(BLUE))
    ensures DefaultColors[7] == (RoleKey(LOG_TIMESTAMP), Code(GRAY))
    ensures DefaultColors[8] == (RoleKey(LOG_PROCESS_ID), Code(BRIGHT_MAGENTA))
    ensures DefaultColors[9] == (RoleKey(ERROR_CAUSED_BY), Code(BG_RED))
    ensures DefaultColors[10] == (RoleKey(ERROR_NAME), Code(UNDERLINE))
    ensures DefaultColors[11] == (RoleKey(ERROR_CODE), Code(MAGENTA))
    ensures DefaultColors[12] == (RoleKey(ERROR_AT), Code(YELLOW))
    ensures DefaultColors[13] == (RoleKey(ERROR_TYPE_AND_FUNCTION), Code(CYAN))
    ensures DefaultColors[14] == (RoleKey(ERROR_LOCATION), Code(DIM))
    ensures DefaultColors[15] == (RoleKey(ERROR_NODEJS_SOURCE_MAP_ARROW), Code(GREEN))
    ensures DefaultColors[16] == (RoleKey(ERROR_NODEJS_SOURCE_MAP_LOCATION), Code(DIM))
  {
    var roles := DefaultColors[6..];
    assert roles == [
      (Num(101), Code(BLUE)), (Num(102), Code(GRAY)), (Num(103), Code(BRIGHT_MAGENTA)),
      (Num(200), Code(BG_RED)), (Num(201), Code(UNDERLINE)), (Num(202), Code(MAGENTA)),
      (Num(203), Code(YELLOW)), (Num(204), Code(CYAN)), (Num(205), Code(DIM)),
      (Num(900), Code(GREEN)), (Num(901), Code(DIM))];
  }

  /** The formatter built without options paints as the default table says. */
  lemma DefaultTablePaints(cache: Cache)
    requires CacheValid(cache)
    ensures DefaultPaints(DefaultTable(cache))
  {
    DefaultFormatter(cache);
    DefaultLinePaints(cache);
    DefaultHeaderPaints(cache);
    DefaultFramePaints(cache);
    DefaultSourceMapPaints(cache);
  }

  lemma DefaultLinePaints(cache: Cache)
    requires CacheValid(cache)
    ensures BoundTo(DefaultTable(cache), LevelKey(INFO), BLUE)
    ensures BoundTo(DefaultTable(cache), RoleKey(LOG_LOGGER_NAME), BLUE)
    ensures BoundTo(DefaultTable(cache), RoleKey(LOG_TIMESTAMP), GRAY)
    ensures BoundTo(DefaultTable(cache), RoleKey(LOG_PROCESS_ID), BRIGHT_MAGENTA)
  {
    DefaultEntries();
    DefaultBound(cache, 7, RoleKey(LOG_TIMESTAMP), GRAY);
    DefaultBound(cache, 1, LevelKey(INFO), BLUE);
    DefaultBound(cache, 6, RoleKey(LOG_LOGGER_NAME), BLUE);
    DefaultBound(cache, 8, RoleKey(LOG_PROCESS_ID), BRIGHT_MAGENTA);
  }

  lemma DefaultHeaderPaints(cache: Cache)
    requires CacheValid(cache)
    ensures BoundTo(DefaultTable(cache), RoleKey(ERROR_CAUSED_BY), BG_RED)
    ensures BoundTo(DefaultTable(cache), RoleKey(ERROR_NAME), UNDERLINE)
    ensures BoundTo(DefaultTable(cache), RoleKey(ERROR_CODE), MAGENTA)
  {
    DefaultEntries();
    DefaultBound(cache, 9, RoleKey(ERROR_CAUSED_BY), BG_RED);
    DefaultBound(cache, 10, RoleKey(ERROR_NAME), UNDERLINE);
    DefaultBound(cache, 11, RoleKey(ERROR_CODE), MAGENTA);
  }

  lemma DefaultFramePaints(cache: Cache)
    requires CacheValid(cache)
    ensures BoundTo(DefaultTable(cache), RoleKey(ERROR_AT), YELLOW)
    ensures BoundTo(DefaultTable(cache), RoleKey(ERROR_TYPE_AND_FUNCTION), CYAN)
    ensures BoundTo(DefaultTable(cache), RoleKey(ERROR_LOCATION), DIM)
  {
    DefaultEntries();
    DefaultBound(cache, 12, RoleKey(ERROR_AT), YELLOW);
    DefaultBound(cache, 13, RoleKey(ERROR_TYPE_AND_FUNCTION), CYAN);
    DefaultBound(cache, 14, RoleKey(ERROR_LOCATION), DIM);
  }

  lemma DefaultSourceMapPaints(cache: Cache)
    requires CacheValid(cache)
    ensures BoundTo(DefaultTable(cache), RoleKey(ERROR_NODEJS_SOURCE_MAP_ARROW), GREEN)
    ensures BoundTo(DefaultTable(cache), RoleKey(ERROR_NODEJS_SOURCE_MAP_LOCATION), DIM)
  {
    DefaultEntries();
    DefaultBound(cache, 15, RoleKey(ERROR_NODEJS_SOURCE_MAP_ARROW), GREEN);
    DefaultBound(cache, 16, RoleKey(ERROR_NODEJS_SOURCE_MAP_LOCATION), DIM);
  }

  // ---------------------------------------------------------------------
  // Escapes

  lemma SgrOneDigit(n: nat)
    requires n < 10
    ensures Sgr(n) == [ESC, '[', DigitChar(n), 'm']
  {
  }

  lemma SgrTwoDigits(n: nat)
    requires 10 <= n < 100
    ensures Sgr(n) == [ESC, '[', DigitChar(n / 10), DigitChar(n % 10), 'm']
  {
    assert Dec(n) == [DigitChar(n / 10), DigitChar(n % 10)];
  }

  /** The wrappers of the codes a header uses, as literals. */
  lemma HeaderEscapes()
    ensures EscapeFor(UNDERLINE) == Wrap("\U{1B}[4m", "\U{1B}[24m")
    ensures EscapeFor(MAGENTA) == Wrap("\U{1B}[35m", "\U{1B}[39m")
  {
    SgrOneDigit(4);
    SgrTwoDigits(24);
    SgrTwoDigits(35);
    SgrTwoDigits(39);
  }

  /** The wrapper of the "Caused by:" code, as literals. */
  lemma CausedByEscapes()
    ensures EscapeFor(BG_RED) == Wrap("\U{1B}[41m", "\U{1B}[49m")
  {
    SgrTwoDigits(41);
    SgrTwoDigits(49);
  }

  /** The wrapper of the source-map arrow code, as literals. */
  lemma SourceMapEscapes()
    ensures EscapeFor(GREEN) == Wrap("\U{1B}[32m", "\U{1B}[39m")
  {
    SgrTwoDigits(32);
    SgrTwoDigits(39);
  }

  /** The wrappers of the codes a stack frame uses, as literals. */
  lemma FrameEscapes()
    ensures EscapeFor(YELLOW) == Wrap("\U{1B}[33m", "\U{1B}[39m")
    ensures EscapeFor(CYAN) == Wrap("\U{1B}[36m", "\U{1B}[39m")
    ensures EscapeFor(DIM) == Wrap("\U{1B}[2m", "\U{1B}[22m")
  {
    SgrTwoDigits(33);
    SgrTwoDigits(36);
    SgrTwoDigits(39);
    SgrOneDigit(2);
    SgrTwoDigits(22);
  }

  /** The wrappers of the codes a log line uses, as literals. */
  lemma LineEscapes()
    ensures EscapeFor(BLUE) == Wrap("\U{1B}[34m", "\U{1B}[39m")
    ensures EscapeFor(BRIGHT_MAGENTA) == Wrap("\U{1B}[95m", "\U{1B}[39m")
    ensures EscapeFor(GRAY) == Wrap("\U{1B}[90m", "\U{1B}[39m")
  {
    SgrTwoDigits(34);
    SgrTwoDigits(95);
    SgrTwoDigits(90);
    SgrTwoDigits(39);
  }

  /** Role `k` is the wrapper that puts `o` before a text and `c` after it. */
  predicate WrapsWith(colors: Colors, k: ColorKey, o: string, c: string) {
    RoleKey(k) in colors && colors[RoleKey(k)] == Wrap(o, c)
  }

  /** Role `k` is some wrapper, which paints nothing for an absent or empty
      text. */
  predicate Wraps(colors: Colors, k: ColorKey) {
    RoleKey(k) in colors && colors[RoleKey(k)].Wrap?
  }

  /** The header roles of the default table, escapes written out. */
  predicate HeaderWraps(colors: Colors) {
    && WrapsWith(colors, ERROR_CAUSED_BY, "\U{1B}[41m", "\U{1B}[49m")
    && WrapsWith(colors, ERROR_NAME, "\U{1B}[4m", "\U{1B}[24m")
    && WrapsWith(colors, ERROR_CODE, "\U{1B}[35m", "\U{1B}[39m")
  }

  /** The stack-frame roles of the default table, escapes written out. */
  predicate FrameWraps(colors: Colors) {
    && WrapsWith(colors, ERROR_AT, "\U{1B}[33m", "\U{1B}[39m")
    && WrapsWith(colors, ERROR_TYPE_AND_FUNCTION, "\U{1B}[36m", "\U{1B}[39m")
    && WrapsWith(colors, ERROR_LOCATION, "\U{1B}[2m", "\U{1B}[22m")
  }

  /** The default bindings of the error roles, with their escapes spelled
      out. */
  lemma DefaultErrorWraps(colors: Colors)
    requires DefaultPaints(colors)
    ensures HeaderWraps(colors) && FrameWraps(colors)
  {
    HeaderEscapes();
    CausedByEscapes();
    FrameEscapes();
  }

  /** The source-map roles of the default table, escapes written out. */
  predicate SourceMapWraps(colors: Colors) {
    && WrapsWith(colors, ERROR_NODEJS_SOURCE_MAP_ARROW, "\U{1B}[32m", "\U{1B}[39m")
    && WrapsWith(colors, ERROR_NODEJS_SOURCE_MAP_LOCATION, "\U{1B}[2m", "\U{1B}[22m")
  }

  lemma DefaultSourceMapWraps(colors: Colors)
    requires DefaultPaints(colors)
    ensures SourceMapWraps(colors)
  {
    SourceMapEscapes();
    FrameEscapes();
  }

  /** The log-line roles of the default table, escapes written out. */
  predicate LineWraps(colors: Colors) {
    && LevelKey(INFO) in colors && colors[LevelKey(INFO)] == Wrap("\U{1B}[34m", "\U{1B}[39m")
    && WrapsWith(colors, LOG_PROCESS_ID, "\U{1B}[95m", "\U{1B}[39m")
    && WrapsWith(colors, LOG_LOGGER_NAME, "\U{1B}[34m", "\U{1B}[39m")
    && WrapsWith(colors, LOG_TIMESTAMP, "\U{1B}[90m", "\U{1B}[39m")
  }

  lemma DefaultLineWraps(colors: Colors)
    requires DefaultPaints(colors)
    ensures LineWraps(colors)
  {
    LineEscapes();
  }

  // ---------------------------------------------------------------------
  // Log lines

  /** The logger name between its escapes, inside parentheses each painted
      by the gray wrapper `Color.get` returns. */
  lemma LoggerNamePainted(f: PrettyFormatter, name: string, cache: Cache, go: string, gc: string, no: string, nc: string)
    requires CacheValid(cache) && EscapeFor(GRAY) == Wrap(go, gc)
    requires WrapsWith(f.colors, LOG_LOGGER_NAME, no, nc) && name != ""
    ensures FormatLoggerName(f, name, cache).0 == go + "(" + gc + no + name + nc + go + ")" + gc
  {
    var first := Get(cache, GRAY);
    assert first.value == Wrap(go, gc) && CacheValid(first.cache);
    assert Get(first.cache, GRAY).value == Wrap(go, gc);
    calc {
      FormatLoggerName(f, name, cache).0;
      (go + "(" + gc) + ((no + name + nc) + (go + ")" + gc));
      go + "(" + gc + no + name + nc + go + ")" + gc;
    }
  }

  /** A line without timestamp, prefix or suffix: the level column between
      the level's escapes, the process id between its escapes, a space, the
      logger name as `formatLoggerName` paints it, then ": " and the
      trimmed message. */
  lemma LinePainted(f: PrettyFormatter, data: LogData, name: string, pid: nat, cache: Cache,
                    column: string, digits: string, named: string, message: string,
                    lo: string, lc: string, po: string, pc: string)
    requires LevelKey(data.level) in f.colors && f.colors[LevelKey(data.level)] == Wrap(lo, lc)
    requires WrapsWith(f.colors, LOG_PROCESS_ID, po, pc)
    requires !TimestampShown(data.timestamp) && !TextShown(data.prefix) && !TextShown(data.suffix)
    requires PadEnd(LevelName(data.level), 6) == column && Dec(pid) == digits
    requires FormatLoggerName(f, name, cache).0 == named
    requires Trim(FormatMessage(f.colors, data.input)) == message
    ensures Format(f, data, name, pid, "", cache).0 == lo + column + lc + po + digits + pc + " " + named + ": " + message
  {
    assert FormatLevel(f, data.level) == lo + column + lc;
    assert FormatPid(f, pid) == po + digits + pc;
    assert TimestampPart(f, data, "") == "" && PrefixPart(data) == "" && SuffixPart(data) == "";
    calc {
      Format(f, data, name, pid, "", cache).0;
      "" + ((lo + column + lc) + ((po + digits + pc) + (" " + (named + (": " + ("" + (message + "")))))));
      { LineFlat(lo, column, lc, po, digits, pc, named, message); }
      lo + column + lc + po + digits + pc + " " + named + ": " + message;
    }
  }

  lemma LineFlat(lo: string, column: string, lc: string, po: string, digits: string, pc: string,
                 named: string, message: string)
    ensures "" + ((lo + column + lc) + ((po + digits + pc) + (" " + (named + (": " + ("" + (message + "")))))))
      == lo + column + lc + po + digits + pc + " " + named + ": " + message
  {
  }

  /** `info("hello", "world")` from logger "app" in process 1234, without a
      timestamp, under the default line colours: "INFO" padded and blue,
      the process id bright magenta, the logger name blue inside gray
      parentheses, and the message plain. */
  lemma InfoLinePainted(f: PrettyFormatter, cache: Cache)
    requires CacheValid(cache) && LineWraps(f.colors)
    ensures Format(f, LogData(INFO, Absent, Absent, Absent, Absent, [Text("hello"), Text("world")]), "app", 1234, "", cache).0
      == "\U{1B}[34m" + "INFO  " + "\U{1B}[39m" + "\U{1B}[95m" + "1234" + "\U{1B}[39m" + " "
        + ("\U{1B}[90m" + "(" + "\U{1B}[39m" + "\U{1B}[34m" + "app" + "\U{1B}[39m" + "\U{1B}[90m" + ")" + "\U{1B}[39m")
        + ": " + "hello world"
  {
    var input := [Text("hello"), Text("world")];
    HelloWorld(f.colors);
    ExampleLevelColumn();
    ExamplePid();
    LineEscapes();
    LoggerNamePainted(f, "app", cache, "\U{1B}[90m", "\U{1B}[39m", "\U{1B}[34m", "\U{1B}[39m");
    LinePainted(f, LogData(INFO, Absent, Absent, Absent, Absent, input), "app", 1234, cache,
      "INFO  ", "1234",
      "\U{1B}[90m" + "(" + "\U{1B}[39m" + "\U{1B}[34m" + "app" + "\U{1B}[39m" + "\U{1B}[90m" + ")" + "\U{1B}[39m",
      "hello world", "\U{1B}[34m", "\U{1B}[39m", "\U{1B}[95m", "\U{1B}[39m");
  }

  /** The message of `info("hello", "world")`. */
  lemma HelloWorld(colors: Colors)
    ensures Trim(FormatMessage(colors, [Text("hello"), Text("world")])) == "hello world"
  {
    var input := [Text("hello"), Text("world")];
    PlainTexts(input);
    WordsEscapeFree(colors, input);
    ExampleMessage();
  }

  /** The same line from a formatter built without options. */
  lemma DefaultInfoLine(cache: Cache)
    requires CacheValid(cache)
    ensures Format(DefaultPretty(cache), LogData(INFO, Absent, Absent, Absent, Absent, [Text("hello"), Text("world")]),
        "app", 1234, "", cache).0
      == "\U{1B}[34m" + "INFO  " + "\U{1B}[39m" + "\U{1B}[95m" + "1234" + "\U{1B}[39m" + " "
        + ("\U{1B}[90m" + "(" + "\U{1B}[39m" + "\U{1B}[34m" + "app" + "\U{1B}[39m" + "\U{1B}[90m" + ")" + "\U{1B}[39m")
        + ": " + "hello world"
  {
    var f := DefaultPretty(cache);
    DefaultLineWrapsOf(cache);
    InfoLinePainted(f, cache);
  }

  /** The log-line escapes of a formatter built without options. */
  lemma DefaultLineWrapsOf(cache: Cache)
    requires CacheValid(cache)
    ensures LineWraps(DefaultTable(cache))
  {
    DefaultTablePaints(cache);
    DefaultLineWraps(DefaultTable(cache));
  }

  // ---------------------------------------------------------------------
  // Error stacks

  /** A line that does not start with a space is neither a frame nor a
      source-mapped line: when it matches the header expression it is
      rendered as a header. */
  lemma HeaderLineRendered(colors: Colors, l: string, h: HeaderMatch)
    requires |l| > 0 && l[0] != ' ' && HeaderGroups(l) == Some(h)
    ensures RenderLine(colors, l) == HeaderReplacement(colors, h)
  {
    assert FrameGroups(l).None? by {
      assert |l| >= 7 ==> l[..7][0] == l[0];
    }
    assert SourceMapGroups(l).None? by {
      assert |l| >= 11 ==> l[..11][0] == l[0];
    }
  }

  /** A header without "Caused by:" and without a code: the name between
      the error-name escapes, then ": " and the message as it is. */
  lemma UncodedHeaderPainted(colors: Colors, name: string, message: string, o: string, c: string)
    requires Wraps(colors, ERROR_CAUSED_BY) && Wraps(colors, ERROR_CODE)
    requires WrapsWith(colors, ERROR_NAME, o, c)
    requires name != "" && (|message| == 0 || message[0] != '(')
    ensures HeaderReplacement(colors, HeaderMatch(None, name, message)) == o + name + c + ": " + message
  {
    calc {
      HeaderReplacement(colors, HeaderMatch(None, name, message));
      PaintHeader(colors, None, name, "", message);
      "" + ("" + ((o + name + c) + (": " + ("" + ("" + ("" + message))))));
      o + name + c + ": " + message;
    }
  }

  /** A header without "Caused by:" whose message starts with a code: the
      name between the error-name escapes, ": (", the code between the
      code escapes, ")" and the rest of the message. */
  lemma CodedHeaderPainted(colors: Colors, name: string, message: string, code: string, rest: string,
                           o: string, c: string, co: string, cc: string)
    requires Wraps(colors, ERROR_CAUSED_BY)
    requires WrapsWith(colors, ERROR_NAME, o, c) && WrapsWith(colors, ERROR_CODE, co, cc)
    requires name != "" && code != "" && ExtractCode(message) == (code, rest)
    ensures HeaderReplacement(colors, HeaderMatch(None, name, message))
      == o + name + c + ": " + "(" + co + code + cc + ")" + rest
  {
    calc {
      HeaderReplacement(colors, HeaderMatch(None, name, message));
      PaintHeader(colors, None, name, code, rest);
      "" + ("" + ((o + name + c) + (": " + ("(" + ((co + code + cc) + (")" + rest))))));
      o + name + c + ": " + "(" + co + code + cc + ")" + rest;
    }
  }

  /** `IndexOf` finds the first occurrence. */
  lemma FirstAt(s: string, c: char, k: nat)
    requires k < |s| && s[k] == c && c !in s[..k]
    ensures IndexOf(s, c) == k
  {
  }

  /** The code of "(E_BAD) invalid input" is what lies between the
      parentheses; the message keeps the space after ")". */
  lemma CodeOfBadInput()
    ensures ExtractCode("(E_BAD) invalid input") == ("E_BAD", " invalid input")
  {
    var m := "(E_BAD) invalid input";
    assert m[..6] == "(E_BAD";
    FirstAt(m, ')', 6);
    assert m[1..6] == "E_BAD" && m[7..] == " invalid input";
  }

  /** A header without a code: the name underlined, ": " and the message
      plain, and nothing where "Caused by:" and the code would go. */
  lemma PlainHeaderPainted(colors: Colors)
    requires HeaderWraps(colors)
    ensures RenderLine(colors, "Error: boom") == "\U{1B}[4m" + "Error" + "\U{1B}[24m" + ": " + "boom"
  {
    HeaderOfPlainError();
    HeaderLineRendered(colors, "Error: boom", HeaderMatch(None, "Error", "boom"));
    UncodedHeaderPainted(colors, "Error", "boom", "\U{1B}[4m", "\U{1B}[24m");
  }

  /** A header with a code: the name underlined, and the code magenta
      inside plain parentheses, followed by the rest of the message. */
  lemma CodeHeaderPainted(colors: Colors)
    requires HeaderWraps(colors)
    ensures RenderLine(colors, "TypeError:: (E_BAD) invalid input")
      == "\U{1B}[4m" + "TypeError" + "\U{1B}[24m" + ": " + "(" + "\U{1B}[35m" + "E_BAD" + "\U{1B}[39m" + ")" + " invalid input"
  {
    HeaderWithCode();
    HeaderLineRendered(colors, "TypeError:: (E_BAD) invalid input",
      HeaderMatch(None, "TypeError", "(E_BAD) invalid input"));
    CodeOfBadInput();
    CodedHeaderPainted(colors, "TypeError", "(E_BAD) invalid input", "E_BAD", " invalid input",
      "\U{1B}[4m", "\U{1B}[24m", "\U{1B}[35m", "\U{1B}[39m");
  }

  /** A frame with a call site: "at" between its escapes, the function
      between the function escapes, and the location, parentheses included,
      between the location escapes; the absent bare location adds nothing. */
  lemma CallFramePainted(colors: Colors, fn: string, loc: string,
                         ao: string, ac: string, fo: string, fc: string, lo: string, lc: string)
    requires WrapsWith(colors, ERROR_AT, ao, ac)
    requires WrapsWith(colors, ERROR_TYPE_AND_FUNCTION, fo, fc)
    requires WrapsWith(colors, ERROR_LOCATION, lo, lc)
    requires fn != "" && loc != ""
    ensures FrameReplacement(colors, FrameMatch(Some(fn), Some(loc), None))
      == "    " + ao + "at" + ac + " " + fo + fn + fc + " " + lo + loc + lc
  {
    calc {
      FrameReplacement(colors, FrameMatch(Some(fn), Some(loc), None));
      "    " + ((ao + "at" + ac) + (" " + ((fo + fn + fc) + ("" + (" " + (lo + loc + lc))))));
      "    " + ao + "at" + ac + " " + fo + fn + fc + " " + lo + loc + lc;
    }
  }

  /** "    at foo (file.js:1:1)" takes the first alternative: the function
      is "foo" and the location keeps its parentheses. */
  lemma FrameOfFoo()
    ensures FrameGroups("    at foo (file.js:1:1)")
      == Some(FrameMatch(Some("foo"), Some("(file.js:1:1)"), None))
  {
    var l := "    at foo (file.js:1:1)";
    assert l[..7] == FRAME_LEAD;
    var r := l[7..];
    assert r == "foo (file.js:1:1)";
    assert FindCallSite(r, 0) == Some(3) by {
      assert !CallSiteAt(r, 0) && !CallSiteAt(r, 1) && !CallSiteAt(r, 2);
      assert CallSiteAt(r, 3);
    }
    assert r[..3] == "foo" && r[4..] == "(file.js:1:1)";
  }

  /** A frame: "at" yellow, the function cyan, and the location dim with
      its parentheses inside the dim escapes. */
  lemma FramePainted(colors: Colors)
    requires FrameWraps(colors)
    ensures RenderLine(colors, "    at foo (file.js:1:1)")
      == "    " + "\U{1B}[33m" + "at" + "\U{1B}[39m" + " " + "\U{1B}[36m" + "foo" + "\U{1B}[39m"
        + " " + "\U{1B}[2m" + "(file.js:1:1)" + "\U{1B}[22m"
  {
    FrameOfFoo();
    CallFramePainted(colors, "foo", "(file.js:1:1)",
      "\U{1B}[33m", "\U{1B}[39m", "\U{1B}[36m", "\U{1B}[39m", "\U{1B}[2m", "\U{1B}[22m");
  }

  lemma StackLines()
    ensures TerminatorFree("Error: boom") && TerminatorFree("    at foo (file.js:1:1)")
  {
  }

  /** A two-line stack: the header line and the frame line each painted,
      the newline between them kept. */
  lemma StackPainted(colors: Colors)
    requires EscapeColors(colors) && HeaderWraps(colors) && FrameWraps(colors)
    ensures FormatError(colors, "Error: boom" + "\n" + "    at foo (file.js:1:1)")
      == ("\U{1B}[4m" + "Error" + "\U{1B}[24m" + ": " + "boom")
        + "\n"
        + ("    " + "\U{1B}[33m" + "at" + "\U{1B}[39m" + " " + "\U{1B}[36m" + "foo" + "\U{1B}[39m"
          + " " + "\U{1B}[2m" + "(file.js:1:1)" + "\U{1B}[22m")
  {
    StackLines();
    FormatErrorSplit(colors, "Error: boom", '\n', "    at foo (file.js:1:1)");
    FormatErrorOnLine(colors, "    at foo (file.js:1:1)");
    PlainHeaderPainted(colors);
    FramePainted(colors);
  }

  /** The stack and the coded header as a formatter built without options
      renders them. */
  lemma DefaultStackPainted(cache: Cache)
    requires CacheValid(cache)
    ensures FormatError(DefaultTable(cache), "Error: boom" + "\n" + "    at foo (file.js:1:1)")
      == ("\U{1B}[4m" + "Error" + "\U{1B}[24m" + ": " + "boom")
        + "\n"
        + ("    " + "\U{1B}[33m" + "at" + "\U{1B}[39m" + " " + "\U{1B}[36m" + "foo" + "\U{1B}[39m"
          + " " + "\U{1B}[2m" + "(file.js:1:1)" + "\U{1B}[22m")
    ensures RenderLine(DefaultTable(cache), "TypeError:: (E_BAD) invalid input")
      == "\U{1B}[4m" + "TypeError" + "\U{1B}[24m" + ": " + "(" + "\U{1B}[35m" + "E_BAD" + "\U{1B}[39m" + ")" + " invalid input"
  {
    var t := DefaultTable(cache);
    assert EscapeColors(t) && HeaderWraps(t) && FrameWraps(t) by {
      DefaultTablePaints(cache);
      DefaultErrorWraps(t);
    }
    StackPainted(t);
    CodeHeaderPainted(t);
  }

  // ---------------------------------------------------------------------
  // "Caused by:" headers

  /** A header after "Caused by: " without a code: the marker between the
      "Caused by:" escapes, a plain space, the name between the error-name
      escapes, then ": " and the message as it is. */
  lemma CausedByHeaderPainted(colors: Colors, name: string, message: string,
                              bo: string, bc: string, o: string, c: string)
    requires Wraps(colors, ERROR_CODE)
    requires WrapsWith(colors, ERROR_CAUSED_BY, bo, bc) && WrapsWith(colors, ERROR_NAME, o, c)
    requires name != "" && (|message| == 0 || message[0] != '(')
    ensures HeaderReplacement(colors, HeaderMatch(Some(CAUSED_BY), name, message))
      == bo + "Caused by:" + bc + " " + o + name + c + ": " + message
  {
    calc {
      HeaderReplacement(colors, HeaderMatch(Some(CAUSED_BY), name, message));
      PaintHeader(colors, Some(CAUSED_BY), name, "", message);
      (bo + "Caused by:" + bc) + (" " + ((o + name + c) + (": " + ("" + ("" + ("" + message))))));
      bo + "Caused by:" + bc + " " + o + name + c + ": " + message;
    }
  }

  /** "Caused by: Error: boom": the marker on a red background, a plain
      space, the name underlined and the message plain. */
  lemma CausedByPainted(colors: Colors)
    requires HeaderWraps(colors)
    ensures RenderLine(colors, "Caused by:" + " " + "Error: boom")
      == "\U{1B}[41m" + "Caused by:" + "\U{1B}[49m" + " " + "\U{1B}[4m" + "Error" + "\U{1B}[24m" + ": " + "boom"
  {
    var h := HeaderMatch(Some(CAUSED_BY), "Error", "boom");
    HeaderOfPlainError();
    CausedByHeaderOf("Error: boom", HeaderMatch(None, "Error", "boom"));
    HeaderLineRendered(colors, "Caused by:" + " " + "Error: boom", h);
    CausedByHeaderPainted(colors, "Error", "boom", "\U{1B}[41m", "\U{1B}[49m", "\U{1B}[4m", "\U{1B}[24m");
  }

  // ---------------------------------------------------------------------
  // Source-mapped lines

  /** A source-mapped line: eight spaces, the arrow between the arrow
      escapes, a plain space, and the location between the source-map
      location escapes. */
  lemma SourceMapPainted(colors: Colors, loc: string, ao: string, ac: string, lo: string, lc: string)
    requires WrapsWith(colors, ERROR_NODEJS_SOURCE_MAP_ARROW, ao, ac)
    requires WrapsWith(colors, ERROR_NODEJS_SOURCE_MAP_LOCATION, lo, lc)
    requires loc != ""
    ensures SourceMapReplacement(colors, loc) == "        " + ao + "->" + ac + " " + lo + loc + lc
  {
    calc {
      SourceMapReplacement(colors, loc);
      "        " + ((ao + "->" + ac) + (" " + (lo + loc + lc)));
      "        " + ao + "->" + ac + " " + lo + loc + lc;
    }
  }

  /** "        -> a.ts:1:1": not a frame (no "at"), so the source-map rule
      paints the arrow green and the location dim. */
  lemma SourceMapLinePainted(colors: Colors)
    requires SourceMapWraps(colors)
    ensures RenderLine(colors, "        -> " + "a.ts:1:1")
      == "        " + "\U{1B}[32m" + "->" + "\U{1B}[39m" + " " + "\U{1B}[2m" + "a.ts:1:1" + "\U{1B}[22m"
  {
    var l := "        -> " + "a.ts:1:1";
    assert FrameGroups(l).None? by {
      assert l[..7][4] == ' ';
    }
    assert SourceMapGroups(l) == Some("a.ts:1:1") by {
      assert l[..11] == ARROW_LEAD && l[11..] == "a.ts:1:1";
    }
    SourceMapPainted(colors, "a.ts:1:1", "\U{1B}[32m", "\U{1B}[39m", "\U{1B}[2m", "\U{1B}[22m");
  }

  lemma MarkerLines()
    ensures TerminatorFree("Caused by:" + " " + "Error: boom") && TerminatorFree("        -> " + "a.ts:1:1")
  {
  }

  /** The "Caused by:" header and the source-mapped line as a formatter
      built without options renders them. */
  lemma DefaultMarkersPainted(cache: Cache)
    requires CacheValid(cache)
    ensures FormatError(DefaultTable(cache), "Caused by:" + " " + "Error: boom")
      == "\U{1B}[41m" + "Caused by:" + "\U{1B}[49m" + " " + "\U{1B}[4m" + "Error" + "\U{1B}[24m" + ": " + "boom"
    ensures FormatError(DefaultTable(cache), "        -> " + "a.ts:1:1")
      == "        " + "\U{1B}[32m" + "->" + "\U{1B}[39m" + " " + "\U{1B}[2m" + "a.ts:1:1" + "\U{1B}[22m"
  {
    var t := DefaultTable(cache);
    assert EscapeColors(t) && HeaderWraps(t) && SourceMapWraps(t) by {
      DefaultTablePaints(cache);
      DefaultErrorWraps(t);
      DefaultSourceMapWraps(t);
    }
    MarkerLines();
    FormatErrorOnLine(t, "Caused by:" + " " + "Error: boom");
    FormatErrorOnLine(t, "        -> " + "a.ts:1:1");
    CausedByPainted(t);
    SourceMapLinePainted(t);
  }

  // ---------------------------------------------------------------------
  // Timestamps

  /** With a truthy timestamp the line starts with the rendered date
      between the timestamp escapes and a plain space, followed by the line
      the record would give without a timestamp. */
  lemma TimestampPainted(f: PrettyFormatter, data: LogData, name: string, pid: nat, rendered: string,
                         cache: Cache, o: string, c: string)
    requires TimestampShown(data.timestamp) && WrapsWith(f.colors, LOG_TIMESTAMP, o, c) && rendered != ""
    ensures Format(f, data, name, pid, rendered, cache).0
      == o + rendered + c + " " + Format(f, data.(timestamp := Absent), name, pid, "", cache).0
  {
    TimestampSegment(f, data, name, pid, rendered, cache);
    assert Format(f, data.(timestamp := Absent), name, pid, rendered, cache).0
      == Format(f, data.(timestamp := Absent), name, pid, "", cache).0;
  }

  /** `info("hello", "world")` at the clock reading 1700000000000, which
      the date library renders as "22:13:20 14-11-2023" in UTC: the date
      gray, a space, then the same line as without a timestamp. */
  lemma DefaultTimestampLine(cache: Cache)
    requires CacheValid(cache)
    ensures Format(DefaultPretty(cache),
        LogData(INFO, Val(TsNumber(1700000000000)), Absent, Absent, Absent, [Text("hello"), Text("world")]),
        "app", 1234, "22:13:20 14-11-2023", cache).0
      == "\U{1B}[90m" + "22:13:20 14-11-2023" + "\U{1B}[39m" + " "
        + ("\U{1B}[34m" + "INFO  " + "\U{1B}[39m" + "\U{1B}[95m" + "1234" + "\U{1B}[39m" + " "
          + ("\U{1B}[90m" + "(" + "\U{1B}[39m" + "\U{1B}[34m" + "app" + "\U{1B}[39m" + "\U{1B}[90m" + ")" + "\U{1B}[39m")
          + ": " + "hello world")
  {
    var f := DefaultPretty(cache);
    var data := LogData(INFO, Val(TsNumber(1700000000000)), Absent, Absent, Absent, [Text("hello"), Text("world")]);
    DefaultLineWrapsOf(cache);
    TimestampPainted(f, data, "app", 1234, "22:13:20 14-11-2023", cache, "\U{1B}[90m", "\U{1B}[39m");
    InfoLinePainted(f, cache);
  }
}
