/** The pretty formatter of src/formatters/PrettyFormatter.ts: its
    construction from options and the colour defaults, and `format`, which
    lays a log record out as one coloured line:

      [timestamp ]LEVEL pid (name): [prefix ｜]message[｜ suffix]

    The rendered timestamp and the process id come from outside (the date
    library and the process) and are parameters here. */
module Pretty {
  import opened Wrappers
  import opened Strings
  import opened Color
  import opened Constants
  import opened Records
  import opened ErrorRender

  const DEFAULT_DATE_FORMAT := "HH:mm:ss DD-MM-YYYY"

  /** The fullwidth vertical line that fences prefix and suffix. */
  const FENCE: char := '\U{FF5C}'

  /** `PrettyFormatterOptions`. */
  datatype PrettyOptions = PrettyOptions(colors: Prop<Entries<Key>>, dateFormat: Prop<string>)

  datatype PrettyFormatter = PrettyFormatter(colors: Colors, dateFormat: string)

  /** The constructor: the user's colours over the default table, and the
      date format or its default. Building the table throws exactly when a
      user code is not catalogued, since every default code is. */
  function NewPrettyFormatter(options: PrettyOptions, cache: Cache): (r: Resolved<PrettyFormatter>)
    ensures CacheValid(cache) ==> CacheValid(r.cache)
    ensures CacheValid(cache) ==> (r.Got? <==> CodesKnown(Coalesce(options.colors, [])))
    ensures r.Got? ==> r.value.dateFormat == Coalesce(options.dateFormat, DEFAULT_DATE_FORMAT)
  {
    DefaultColorsShape();
    match CreateFormatters(Coalesce(options.colors, []), Some(DefaultColors), cache)
    case Threw(e, after) => Threw(e, after)
    case Got(colors, after) => Got(PrettyFormatter(colors, Coalesce(options.dateFormat, DEFAULT_DATE_FORMAT)), after)
  }

  /** Every binding of a table built from codes only is an escape wrapper. */
  predicate CodesOnly(entries: Entries<Key>) {
    forall i :: 0 <= i < |entries| ==> entries[i].1.Code?
  }

  /** A formatter built over a valid cache binds the default keys and the
      user's, lets each user binding override the default for its key, and
      keeps the defaults elsewhere. */
  lemma NewPrettyFormatterColors(options: PrettyOptions, cache: Cache)
    requires CacheValid(cache) && CodesKnown(Coalesce(options.colors, []))
    ensures NewPrettyFormatter(options, cache).Got?
    ensures NewPrettyFormatter(options, cache).value.colors.Keys
      == KeysOf(DefaultColors) + KeysOf(Coalesce(options.colors, []))
    ensures forall k :: k in NewPrettyFormatter(options, cache).value.colors ==>
      NewPrettyFormatter(options, cache).value.colors[k]
        == Resolve(Overlay(Coalesce(options.colors, []), DefaultColors, k))
  {
    DefaultColorsShape();
    CreateFormattersContents(Coalesce(options.colors, []), DefaultColors, cache);
  }

  /** Every level and every role has a formatter, and when the user gives
      colour codes only, every formatter is an escape wrapper. */
  lemma NewPrettyFormatterBindings(options: PrettyOptions, cache: Cache)
    requires CacheValid(cache) && CodesKnown(Coalesce(options.colors, []))
    ensures NewPrettyFormatter(options, cache).Got?
    ensures forall l: Level :: LevelKey(l) in NewPrettyFormatter(options, cache).value.colors
    ensures RolesBound(NewPrettyFormatter(options, cache).value.colors)
    ensures CodesOnly(Coalesce(options.colors, [])) ==> EscapeColors(NewPrettyFormatter(options, cache).value.colors)
  {
    var user := Coalesce(options.colors, []);
    DefaultColorsShape();
    NewPrettyFormatterColors(options, cache);
    var colors := NewPrettyFormatter(options, cache).value.colors;
    if CodesOnly(user) {
      forall k | k in colors ensures colors[k].Wrap? && IsEscape(colors[k].open) && IsEscape(colors[k].close) {
        if k in KeysOf(user) {
          LastBindingCodes(user, k);
        } else {
          var i :| 0 <= i < |DefaultColors| && DefaultColors[i].0 == k;
          LastBindingAt(DefaultColors, i);
        }
        assert Overlay(user, DefaultColors, k).Code?;
      }
    }
  }

  /** In a table of codes only, every last binding is a code. */
  lemma {:induction false} LastBindingCodes(entries: Entries<Key>, k: Key)
    requires CodesOnly(entries) && k in KeysOf(entries)
    ensures LastBinding(entries, k).value.Code?
    decreases |entries|
  {
    KeysOfCons(entries);
    if k in KeysOf(entries[1..]) {
      assert CodesOnly(entries[1..]) by {
        forall i | 0 <= i < |entries[1..]| ensures entries[1..][i].1.Code? {
          assert entries[1..][i] == entries[i + 1];
        }
      }
      LastBindingCodes(entries[1..], k);
    }
  }

  /** With no options the formatter has the default colours and date format
      and construction cannot throw. */
  lemma DefaultFormatter(cache: Cache)
    requires CacheValid(cache)
    ensures NewPrettyFormatter(PrettyOptions(Absent, Absent), cache).Got?
    ensures NewPrettyFormatter(PrettyOptions(Absent, Absent), cache).value.dateFormat == "HH:mm:ss DD-MM-YYYY"
    ensures NewPrettyFormatter(PrettyOptions(Absent, Absent), cache).value.colors.Keys == KeysOf(DefaultColors)
    ensures EscapeColors(NewPrettyFormatter(PrettyOptions(Absent, Absent), cache).value.colors)
    ensures RolesBound(NewPrettyFormatter(PrettyOptions(Absent, Absent), cache).value.colors)
  {
    var options := PrettyOptions(Absent, Absent);
    assert Coalesce(options.colors, []) == [];
    assert NewPrettyFormatter(options, cache).value.colors.Keys == KeysOf(DefaultColors) by {
      NewPrettyFormatterColors(options, cache);
      assert KeysOf<Key>([]) == {};
    }
    assert CodesOnly([]);
    NewPrettyFormatterBindings(options, cache);
  }

  // ---------------------------------------------------------------------
  // The parts of a line

  /** `formatLevel`: the level name padded to six columns, in its colour. */
  function FormatLevel(f: PrettyFormatter, level: Level): string {
    Paint(f.colors, LevelKey(level), Some(PadEnd(LevelName(level), 6)))
  }

  /** `formatPid`: the process id in decimal, in its colour. */
  function FormatPid(f: PrettyFormatter, pid: nat): string {
    Tint(f.colors, LOG_PROCESS_ID, Some(Dec(pid)))
  }

  /** `formatTimestamp` applied to the date library's rendering. */
  function FormatTimestamp(f: PrettyFormatter, rendered: string): string {
    Tint(f.colors, LOG_TIMESTAMP, Some(rendered))
  }

  /** `formatLoggerName`: the name in its colour inside gray parentheses,
      each parenthesis painted by `Color.get(GRAY)`, which may fill the
      cache. */
  function FormatLoggerName(f: PrettyFormatter, name: string, cache: Cache): (r: (string, Cache))
    ensures CacheValid(cache) ==> CacheValid(r.1) && GRAY in r.1 && cache.Keys <= r.1.Keys
  {
    var first := Get(cache, GRAY);
    var second := Get(first.cache, GRAY);
    (Apply(first.value, Some("(")) + (Tint(f.colors, LOG_LOGGER_NAME, Some(name)) + Apply(second.value, Some(")"))),
     second.cache)
  }

  /** How an argument reads in a message: `${x}` followed by a space, or for
      an error its rendered stack with nothing after it. */
  function ArgPiece(colors: Colors, a: Arg): string {
    match a
    case Text(s) => s + " "
    case Null => "null "
    case Config(_) => "[object Object] "
    case Err(stack) => FormatError(colors, stack)
  }

  /** `formatMessage`: the pieces of the arguments, in order. */
  function FormatMessage(colors: Colors, input: seq<Arg>): string
    decreases |input|
  {
    if |input| == 0 then "" else ArgPiece(colors, input[0]) + FormatMessage(colors, input[1..])
  }

  /** The message of a concatenation of argument lists is the concatenation
      of their messages. */
  lemma {:induction false} FormatMessageAppend(colors: Colors, a: seq<Arg>, b: seq<Arg>)
    ensures FormatMessage(colors, a + b) == FormatMessage(colors, a) + FormatMessage(colors, b)
    decreases |a|
  {
    if |a| == 0 {
      assert a + b == b;
    } else {
      assert (a + b)[0] == a[0] && (a + b)[1..] == a[1..] + b;
      FormatMessageAppend(colors, a[1..], b);
    }
  }

  function PrefixPart(data: LogData): string {
    if TextShown(data.prefix) then data.prefix.v + " " + [FENCE] else ""
  }

  function SuffixPart(data: LogData): string {
    if TextShown(data.suffix) then [FENCE] + " " + data.suffix.v else ""
  }

  function TimestampPart(f: PrettyFormatter, data: LogData, rendered: string): string {
    if TimestampShown(data.timestamp) then FormatTimestamp(f, rendered) + " " else ""
  }

  /** `format`: the line for `data` logged by the logger `name`, with the
      cache as `Color.get` leaves it. The record's `extra` is not read. */
  function Format(f: PrettyFormatter, data: LogData, name: string, pid: nat, rendered: string, cache: Cache)
    : (r: (string, Cache))
    ensures CacheValid(cache) ==> CacheValid(r.1) && GRAY in r.1 && cache.Keys <= r.1.Keys
  {
    var (loggerName, after) := FormatLoggerName(f, name, cache);
    (TimestampPart(f, data, rendered) + (FormatLevel(f, data.level) + (FormatPid(f, pid) + (" " + (loggerName
      + (": " + (PrefixPart(data) + (Trim(FormatMessage(f.colors, data.input)) + SuffixPart(data)))))))),
     after)
  }

  // ---------------------------------------------------------------------
  // What a line shows

  /** An argument that is not an error, as `${x}` renders it. */
  function ArgText(a: Arg): string
    requires !a.Err?
  {
    match a
    case Text(s) => s
    case Null => "null"
    case Config(_) => "[object Object]"
  }

  /** Arguments that are plain values whose texts hold no escape. */
  predicate PlainArgs(input: seq<Arg>) {
    forall i :: 0 <= i < |input| ==> !input[i].Err? && EscapeFree(ArgText(input[i]))
  }

  /** The words of a message without errors, each followed by one space. */
  function Words(input: seq<Arg>): string
    requires forall i :: 0 <= i < |input| ==> !input[i].Err?
    decreases |input|
  {
    if |input| == 0 then "" else ArgText(input[0]) + " " + Words(input[1..])
  }

  lemma {:induction false} WordsEscapeFree(colors: Colors, input: seq<Arg>)
    requires PlainArgs(input)
    ensures FormatMessage(colors, input) == Words(input)
    ensures EscapeFree(Words(input))
    decreases |input|
  {
    if |input| > 0 {
      WordsEscapeFree(colors, input[1..]);
    }
  }

  /** The line a reader sees for a record whose arguments are all plain
      values: no colours, the level name padded to six columns, the process
      id, the logger name in parentheses, the fences and the trimmed
      message. */
  function PlainLine(data: LogData, name: string, pid: nat, rendered: string): string
    requires forall i :: 0 <= i < |data.input| ==> !data.input[i].Err?
  {
    (if TimestampShown(data.timestamp) then rendered + " " else "")
      + (PadEnd(LevelName(data.level), 6) + (Dec(pid) + (" " + ("(" + (name + (")" + (": "
      + ((if TextShown(data.prefix) then data.prefix.v + " \U{FF5C}" else "")
      + (Trim(Words(data.input)) + (if TextShown(data.suffix) then "\U{FF5C} " + data.suffix.v else ""))))))))))
  }

  /** The prefix and suffix segments: the prefix, a space and the fence
      character U+FF5C, and the fence, a space and the suffix. */
  lemma FencesAsWritten(data: LogData)
    ensures PrefixPart(data) == if TextShown(data.prefix) then data.prefix.v + " \U{FF5C}" else ""
    ensures SuffixPart(data) == if TextShown(data.suffix) then "\U{FF5C} " + data.suffix.v else ""
  {
    if TextShown(data.prefix) {
      assert data.prefix.v + " " + [FENCE] == data.prefix.v + " \U{FF5C}";
    }
    if TextShown(data.suffix) {
      assert [FENCE] + " " + data.suffix.v == "\U{FF5C} " + data.suffix.v;
    }
  }

  /** The level column: one of the level names, padded with spaces. */
  lemma LevelColumnPlain(l: Level)
    ensures EscapeFree(PadEnd(LevelName(l), 6))
  {
    match l
    case ERROR => assert PadEnd(LevelName(l), 6) == "ERROR ";
    case WARN => assert PadEnd(LevelName(l), 6) == "WARN  ";
    case SILLY => assert PadEnd(LevelName(l), 6) == "SILLY ";
    case INFO => assert PadEnd(LevelName(l), 6) == "INFO  ";
    case DEBUG => assert PadEnd(LevelName(l), 6) == "DEBUG ";
    case TRACE => assert PadEnd(LevelName(l), 6) == "TRACE ";
  }

  /** A painted piece followed by more text shows as the piece's text. */
  lemma StripPaint(colors: Colors, key: Key, x: string, s: string)
    requires EscapeColors(colors) && key in colors && EscapeFree(x)
    ensures Strip(Paint(colors, key, Some(x)) + s) == x + Strip(s)
  {
    StripPainted(colors[key], x, s);
  }

  lemma StripLoggerName(f: PrettyFormatter, name: string, cache: Cache, s: string)
    requires EscapeColors(f.colors) && RolesBound(f.colors) && CacheValid(cache) && EscapeFree(name)
    ensures Strip(FormatLoggerName(f, name, cache).0 + s) == "(" + (name + (")" + Strip(s)))
  {
    var first := Get(cache, GRAY);
    var second := Get(first.cache, GRAY);
    var open := Apply(first.value, Some("("));
    var painted := Tint(f.colors, LOG_LOGGER_NAME, Some(name));
    var close := Apply(second.value, Some(")"));
    assert FormatLoggerName(f, name, cache).0 + s == open + (painted + (close + s));
    StripPainted(second.value, ")", s);
    StripTint(f.colors, LOG_LOGGER_NAME, Some(name), close + s);
    StripPainted(first.value, "(", painted + (close + s));
  }

  lemma StripTimestamp(f: PrettyFormatter, data: LogData, rendered: string, s: string)
    requires EscapeColors(f.colors) && RolesBound(f.colors) && EscapeFree(rendered)
    ensures Strip(TimestampPart(f, data, rendered) + s)
      == (if TimestampShown(data.timestamp) then rendered + " " else "") + Strip(s)
  {
    if TimestampShown(data.timestamp) {
      assert TimestampPart(f, data, rendered) + s == FormatTimestamp(f, rendered) + (" " + s);
      StripPlain(" ", s);
      StripTint(f.colors, LOG_TIMESTAMP, Some(rendered), " " + s);
    } else {
      assert TimestampPart(f, data, rendered) + s == s;
    }
  }

  /** The tail of a line after the logger name, with no colours in it. */
  lemma StripTail(data: LogData, message: string)
    requires EscapeFree(PrefixPart(data)) && EscapeFree(message) && EscapeFree(SuffixPart(data))
    ensures Strip(": " + (PrefixPart(data) + (message + SuffixPart(data))))
      == ": " + (PrefixPart(data) + (message + SuffixPart(data)))
  {
    var t := ": " + (PrefixPart(data) + (message + SuffixPart(data)));
    assert EscapeFree(t);
    StripKeeps(t);
  }

  lemma FenceFree(data: LogData)
    requires data.prefix.Val? ==> EscapeFree(data.prefix.v)
    requires data.suffix.Val? ==> EscapeFree(data.suffix.v)
    ensures EscapeFree(PrefixPart(data)) && EscapeFree(SuffixPart(data))
  {
  }

  /** With escape colours, plain arguments and escape-free texts, the line
      `format` builds shows exactly the plain line: colouring changes how a
      line looks and never what it says. */
  lemma FormatShowsPlainLine(f: PrettyFormatter, data: LogData, name: string, pid: nat, rendered: string, cache: Cache)
    requires EscapeColors(f.colors) && RolesBound(f.colors) && LevelKey(data.level) in f.colors
    requires CacheValid(cache)
    requires PlainArgs(data.input)
    requires EscapeFree(name) && EscapeFree(rendered)
    requires data.prefix.Val? ==> EscapeFree(data.prefix.v)
    requires data.suffix.Val? ==> EscapeFree(data.suffix.v)
    ensures Strip(Format(f, data, name, pid, rendered, cache).0) == PlainLine(data, name, pid, rendered)
  {
    var message := Trim(Words(data.input));
    assert Trim(FormatMessage(f.colors, data.input)) == message && EscapeFree(message) by {
      WordsEscapeFree(f.colors, data.input);
      assert forall x :: x in message ==> x in Words(data.input);
    }
    var tail := PrefixPart(data) + (message + SuffixPart(data));
    var afterLevel := FormatPid(f, pid) + (" " + (FormatLoggerName(f, name, cache).0 + (": " + tail)));
    var column := PadEnd(LevelName(data.level), 6);
    var afterTs := FormatLevel(f, data.level) + afterLevel;
    assert Format(f, data, name, pid, rendered, cache).0 == TimestampPart(f, data, rendered) + afterTs;
    assert Strip(afterLevel) == Dec(pid) + (" " + ("(" + (name + (")" + (": " + tail))))) by {
      StripAfterLevel(f, data, name, pid, message, cache);
    }
    assert Strip(afterTs) == column + Strip(afterLevel) by {
      LevelColumnPlain(data.level);
      StripPaint(f.colors, LevelKey(data.level), column, afterLevel);
    }
    StripTimestamp(f, data, rendered, afterTs);
    FencesAsWritten(data);
  }

  /** The part of a line after the level column. */
  lemma StripAfterLevel(f: PrettyFormatter, data: LogData, name: string, pid: nat, message: string, cache: Cache)
    requires EscapeColors(f.colors) && RolesBound(f.colors) && CacheValid(cache)
    requires EscapeFree(name) && EscapeFree(message)
    requires data.prefix.Val? ==> EscapeFree(data.prefix.v)
    requires data.suffix.Val? ==> EscapeFree(data.suffix.v)
    ensures Strip(FormatPid(f, pid) + (" " + (FormatLoggerName(f, name, cache).0
      + (": " + (PrefixPart(data) + (message + SuffixPart(data)))))))
      == Dec(pid) + (" " + ("(" + (name + (")" + (": " + (PrefixPart(data) + (message + SuffixPart(data))))))))
  {
    FenceFree(data);
    var tail := ": " + (PrefixPart(data) + (message + SuffixPart(data)));
    var loggerName := FormatLoggerName(f, name, cache).0;
    StripTail(data, message);
    StripLoggerName(f, name, cache, tail);
    StripPlain(" ", loggerName + tail);
    assert EscapeFree(Dec(pid)) by {
      assert forall x :: x in Dec(pid) ==> IsDigit(x);
    }
    StripTint(f.colors, LOG_PROCESS_ID, Some(Dec(pid)), " " + (loggerName + tail));
  }

  // ---------------------------------------------------------------------
  // Segments

  /** The timestamp segment is there exactly when the record's timestamp is
      truthy (so `false`, `undefined`, a missing one and 0 all omit it), and
      it is the only part the timestamp affects. */
  lemma TimestampSegment(f: PrettyFormatter, data: LogData, name: string, pid: nat, rendered: string, cache: Cache)
    ensures TimestampShown(data.timestamp) ==>
      Format(f, data, name, pid, rendered, cache).0
        == FormatTimestamp(f, rendered) + " " + Format(f, data.(timestamp := Absent), name, pid, rendered, cache).0
    ensures !TimestampShown(data.timestamp) ==>
      Format(f, data, name, pid, rendered, cache).0 == Format(f, data.(timestamp := Absent), name, pid, rendered, cache).0
  {
    var bare := data.(timestamp := Absent);
    var (loggerName, _) := FormatLoggerName(f, name, cache);
    var rest := FormatLevel(f, data.level) + (FormatPid(f, pid) + (" " + (loggerName
      + (": " + (PrefixPart(data) + (Trim(FormatMessage(f.colors, data.input)) + SuffixPart(data)))))));
    assert Format(f, bare, name, pid, rendered, cache).0 == rest by {
      assert TimestampPart(f, bare, rendered) == "";
    }
    assert Format(f, data, name, pid, rendered, cache).0 == TimestampPart(f, data, rendered) + rest;
  }

  /** The record's `extra` field plays no part in the line. */
  lemma ExtraIgnored(f: PrettyFormatter, data: LogData, e: Prop<Arg>, name: string, pid: nat, rendered: string, cache: Cache)
    ensures Format(f, data.(extra := e), name, pid, rendered, cache) == Format(f, data, name, pid, rendered, cache)
  {
    assert TimestampPart(f, data.(extra := e), rendered) == TimestampPart(f, data, rendered);
    assert PrefixPart(data.(extra := e)) == PrefixPart(data) && SuffixPart(data.(extra := e)) == SuffixPart(data);
  }

  /** A message of one value that has no whitespace at either end shows as
      that value: the trailing space `formatMessage` adds is trimmed away. */
  lemma MessageOfOneText(colors: Colors, s: string)
    requires s == "" || (!IsJsWhitespace(s[0]) && !IsJsWhitespace(s[|s| - 1]))
    ensures Trim(FormatMessage(colors, [Text(s)])) == s
  {
    assert FormatMessage(colors, [Text(s)]) == s + " " by {
      assert [Text(s)][1..] == [];
      assert FormatMessage(colors, []) == "";
    }
    TrimDropsTrailing(s, " ");
  }

  /** An error argument contributes its rendered stack with no space after
      it, so text logged after an error runs straight on. */
  lemma ErrorThenText(colors: Colors, stack: string, s: string)
    ensures FormatMessage(colors, [Err(stack), Text(s)]) == FormatError(colors, stack) + (s + " ")
  {
    var input := [Err(stack), Text(s)];
    assert input[1..] == [Text(s)] && [Text(s)][1..] == [];
    assert FormatMessage(colors, [Text(s)]) == s + " " by {
      assert FormatMessage(colors, []) == "";
    }
    assert ArgPiece(colors, input[0]) == FormatError(colors, stack);
  }

  /** `info("hello", "world")` from logger "app" in process 1234, without a
      timestamp, shows as "INFO  1234 (app): hello world": the level column
      is six wide and the process id follows it directly. */
  lemma ExamplePlainLine()
    ensures PlainLine(LogData(INFO, Absent, Absent, Absent, Absent, [Text("hello"), Text("world")]), "app", 1234, "")
      == "INFO  1234 (app): hello world"
  {
    var input := [Text("hello"), Text("world")];
    ExampleMessage();
    ExampleLevelColumn();
    ExamplePid();
    PlainLineOf(LogData(INFO, Absent, Absent, Absent, Absent, input), "app", 1234, "INFO  ", "1234", "hello world");
    ExampleLineText();
  }

  /** A plain line without timestamp, prefix or suffix, from its parts. */
  lemma PlainLineOf(data: LogData, name: string, pid: nat, column: string, digits: string, message: string)
    requires forall i :: 0 <= i < |data.input| ==> !data.input[i].Err?
    requires !TimestampShown(data.timestamp) && !TextShown(data.prefix) && !TextShown(data.suffix)
    requires PadEnd(LevelName(data.level), 6) == column && Dec(pid) == digits && Trim(Words(data.input)) == message
    ensures PlainLine(data, name, pid, "") == column + (digits + (" " + ("(" + (name + (")" + (": " + message))))))
  {
    var rest := column + (digits + (" " + ("(" + (name + (")" + (": " + message))))));
    assert PrefixPart(data) + (Trim(Words(data.input)) + SuffixPart(data)) == message by {
      assert PrefixPart(data) == "" && SuffixPart(data) == "";
      assert message + "" == message;
      assert "" + message == message;
    }
    assert PlainLine(data, name, pid, "") == "" + rest;
    assert "" + rest == rest;
  }

  lemma ExampleLevelColumn()
    ensures PadEnd(LevelName(INFO), 6) == "INFO  "
  {
    assert LevelName(INFO) == "INFO";
  }

  lemma ExamplePid()
    ensures Dec(1234) == "1234"
  {
    assert Dec(1) == "1";
    assert Dec(12) == "12";
    assert Dec(123) == "123";
  }

  lemma ExampleMessage()
    ensures Trim(Words([Text("hello"), Text("world")])) == "hello world"
  {
    ExampleWords();
    TrimDropsTrailing("hello world", " ");
  }

  lemma ExampleWords()
    ensures Words([Text("hello"), Text("world")]) == "hello world" + " "
  {
    var input := [Text("hello"), Text("world")];
    assert input[1..] == [Text("world")] && input[1..][1..] == [];
    assert "hello world" + " " == "hello world ";
  }

  lemma ExampleLineText()
    ensures "INFO  " + ("1234" + (" " + ("(" + ("app" + (")" + (": " + "hello world")))))) == "INFO  1234 (app): hello world"
  {
    ExampleNamed();
    assert "1234" + (" " + "(app): hello world") == "1234 (app): hello world";
  }

  lemma ExampleNamed()
    ensures "(" + ("app" + (")" + (": " + "hello world"))) == "(app): hello world"
  {
    assert ": " + "hello world" == ": hello world";
  }

  /** Texts of lower-case letters are plain values. */
  lemma PlainTexts(input: seq<Arg>)
    requires forall i :: 0 <= i < |input| ==> input[i].Text? && forall c :: c in input[i].s ==> 'a' <= c <= 'z'
    ensures PlainArgs(input)
  {
  }

  /** The same line as any formatter with escape colours writes it, the
      default one included. */
  lemma ExampleInfoLine(f: PrettyFormatter, cache: Cache)
    requires EscapeColors(f.colors) && RolesBound(f.colors) && LevelKey(INFO) in f.colors
    requires CacheValid(cache)
    ensures Strip(Format(f, LogData(INFO, Absent, Absent, Absent, Absent, [Text("hello"), Text("world")]), "app", 1234, "", cache).0)
      == "INFO  1234 (app): hello world"
  {
    var input := [Text("hello"), Text("world")];
    assert PlainArgs(input) by {
      PlainTexts(input);
    }
    assert EscapeFree("app") && EscapeFree("");
    FormatShowsPlainLine(f, LogData(INFO, Absent, Absent, Absent, Absent, input), "app", 1234, "", cache);
    ExamplePlainLine();
  }

  /** The default formatter meets the conditions of the example. */
  lemma DefaultFormatterPlain(cache: Cache)
    requires CacheValid(cache)
    ensures var f := NewPrettyFormatter(PrettyOptions(Absent, Absent), cache);
      f.Got? && EscapeColors(f.value.colors) && RolesBound(f.value.colors) && LevelKey(INFO) in f.value.colors
  {
    DefaultFormatter(cache);
    NewPrettyFormatterBindings(PrettyOptions(Absent, Absent), cache);
  }
}
