# A verified model of the dimensional-fun logger

This project models the core of the TypeScript logger `@dimensional-fun/logger` in Dafny and proves properties of the model. The modelled core covers:

- **Logger.** A `Logger` is created with a name and a list of transports. Each level method (`error`, `warn`, `info`, `debug`, `trace`, `silly`) builds a log record (`LogData`) and hands it to every transport. If the first argument is an object made by `config()`, its fields override the record's defaults.
- **Transports.** A transport either skips a record or formats it and prints it. The decision depends only on its `enabled` option. The console transport writes the formatted line to standard output or standard error, according to the record's level and a threshold.
- **Pretty formatter.** The pretty formatter lays a record out as one coloured line: timestamp, level, process id, `(name)`, the prefix, the message and the suffix. It renders an `Error` argument's stack with three line-anchored regular expressions, which colour the stack-frame lines, the source-mapped lines and the header lines.
- **Colours.** Colours are ANSI SGR escape sequences (`ESC[<code>m`), each closed by its delimiter code. `Color.get` memoises one formatter per code in a cache. `createFormatters` lays the user's colour table over the 17-entry default table.

## Modules

Each Dafny module follows one source file:

| file | module | source |
|---|---|---|
| `wrappers.dfy` | `Wrappers` | `Option`, used for partial results |
| `strings.dfy` | `Strings` | the JavaScript built-ins the source relies on: `${n}` for a number, `trim`, `padEnd`, `indexOf`, `substr`, `\w`, line terminators |
| `color.dfy` | `Color` | `src/util/Color.ts` |
| `constants.dfy` | `Constants` | `src/util/constants.ts` |
| `records.dfy` | `Records` | `LogData` and `LogConfigData`, object spread, `??` and truthiness |
| `errors.dfy` | `ErrorRender` | `formatError` and its three regular expressions, in `src/formatters/PrettyFormatter.ts` |
| `pretty.dfy` | `Pretty` | the rest of `src/formatters/PrettyFormatter.ts` |
| `transport.dfy` | `Transports` | `src/transports/Transport.ts` |
| `console.dfy` | `ConsoleTransports` | `src/transports/ConsoleTransport.ts` |
| `logger.dfy` | `Logging` | `src/Logger.ts` |
| `examples.dfy` | `Examples` | worked examples of `src/formatters/PrettyFormatter.ts` under the default table of `src/util/constants.ts`, with the escapes kept |

### How the model represents the source

- **Shared colour cache.** `Color.formatters` is a static, mutable map. Here it is a `Cache` value, threaded through every call that may fill it. `CacheValid` says that every cached formatter is the escape wrapper for its code.
- **Colour functions.** A colour function is either an escape wrapper (`Wrap(open, close)`) or a user-supplied function (`Custom`).
- **`undefined` arguments.** `Apply(f, None)` models calling a colour function with `undefined`. A formatter looked up under a missing key renders as the text "undefined", because that is how a template literal shows it.
- **Object properties.** A property is `Absent`, `Undefined` or `Val(v)`. The distinction matters because object spread copies a present `undefined`, while `??` replaces it.
- **Arguments.** An argument of a logging call is either:
  - the text `${x}` renders;
  - an `Error`, carried as the stack text it shows;
  - `null`;
  - a configuration object.
- **Regular-expression replacement.** `text.replace(re, fn)` with a global, multi-line, line-anchored expression is modelled line by line (`ErrorRender.Replace`). Every line is either rewritten whole or left as it is, and every line terminator is kept.
- **Lazy and greedy groups.** The lazy and greedy groups of the three expressions are modelled by the match they produce:
  - `FrameGroups` finds the leftmost `" (" ... ")"` split;
  - `HeaderGroups` takes the longest name, then the longest run of colons, then the longest run of spaces.

## Model

| member | source | states |
|---|---|---|
| Strings.Dec | src/formatters/PrettyFormatter.ts:73 | `process.pid.toString()`: a non-empty string of digits with no leading zero |
| Strings.DecRoundTrip | src/formatters/PrettyFormatter.ts:73 | reading the numeral back gives the number |
| Strings.DecInjective | src/formatters/PrettyFormatter.ts:73 | distinct process ids render differently |
| Strings.Trim | src/formatters/PrettyFormatter.ts:46 | `trim()` returns the slice of its input between the leading and trailing whitespace runs, and the result neither starts nor ends with whitespace |
| Strings.TrimIdempotent | src/formatters/PrettyFormatter.ts:46 | trimming twice is the same as trimming once |
| Strings.TrimDropsTrailing | src/formatters/PrettyFormatter.ts:46 | whitespace added after an already-trimmed text is exactly what trim removes |
| Strings.PadEnd | src/formatters/PrettyFormatter.ts:66 | `padEnd(6)` keeps the text as a prefix, fills with spaces only, and the length is the larger of 6 and the text's length |
| Strings.IndexOf | src/formatters/PrettyFormatter.ts:124 | `indexOf(")")` is -1 exactly when ")" is absent; otherwise it is the position of the first ")" |
| Strings.Substr | src/formatters/PrettyFormatter.ts:125 | `substr(1, n)` takes n characters from index 1, and gives "" for a non-positive length |
| Strings.SubstrFrom | src/formatters/PrettyFormatter.ts:126 | `substr(k)` is the suffix from k, or "" past the end |
| Color.Delimiter | src/util/Color.ts:57-111 | a delimiter exists exactly for the catalogued codes; it is 0 for reset, 22 for bold and dim, code+20 for the other styles, 39 for every foreground and 49 for every background; any other code throws |
| Color.Sgr | src/util/Color.ts:136-137 | the escape is ESC "[" followed by the decimal code and "m" |
| Color.EscapeWraps | src/util/Color.ts:136-138 | a formatter wraps a non-empty text in the code's escape and the delimiter's escape, and maps "" and `undefined` to "" |
| Color.Get | src/util/Color.ts:132-142 | a cached formatter is returned unchanged; otherwise the escape wrapper is built and stored; the call throws exactly for an uncatalogued code, leaving the cache as it was; cache validity is preserved |
| Color.GetMemoised | src/util/Color.ts:133-134 | a second `get` of the same code returns the same formatter and leaves the cache as it is |
| Color.LastBinding | src/util/Color.ts:150-154 | the binding `Map.set` leaves for a key is its last entry, and it exists exactly for keys in the table |
| Color.LastBindingAt | src/util/Color.ts:150-154 | with distinct keys, each key's binding is its own entry |
| Color.MergeMaps | src/util/Color.ts:149-155 | merging succeeds exactly when every colour code is catalogued, and it only adds to the cache |
| Color.MergeMapsContents | src/util/Color.ts:149-155 | after a merge the keys are the old keys plus the table's; a table key maps to its last binding resolved (a function kept, a code looked up), and every other key keeps its old formatter |
| Color.CreateFormatters | src/util/Color.ts:118-125 | building throws exactly when the user table or the defaults hold an unknown code |
| Color.CreateFormattersContents | src/util/Color.ts:118-125 | the result binds the default keys and the user's keys; a user binding overrides the default for its key |
| Color.StripPainted | src/util/Color.ts:138 | removing the escapes from a painted text leaves the text itself |
| Constants.LevelNameRoundTrip | src/util/constants.ts:3-10 | a level's string value parses back to that level |
| Constants.LevelValueIsPosition | src/util/constants.ts:12-19 | `LogLevelValue` of a level is its position in the declared order, and no other position holds it |
| Constants.SeverityOrder | src/util/constants.ts:12-19 | ERROR < WARN < SILLY < INFO < DEBUG < TRACE, and the values are distinct |
| Constants.FormatterKeys | src/util/constants.ts:21-37 | levels and colour roles are all formatter keys, and distinct roles have distinct numbers |
| Constants.DefaultColorsShape | src/util/constants.ts:39-56 | the default keys are distinct, include every level and role, and are formatter keys; every default binding is a catalogued code |
| Constants.DefaultColorChoices | src/util/constants.ts:39-56 | the defaults are: ERROR red, WARN yellow, error name underlined, location dim, timestamp gray |
| ErrorRender.FindCallSite | src/formatters/PrettyFormatter.ts:9 | the lazy `(.*?) (\(.*\))` alternative splits at the leftmost space that is followed by "(" and whose line ends with ")" |
| ErrorRender.FrameGroups | src/formatters/PrettyFormatter.ts:9 | a line matches exactly when it starts with four spaces and "at "; the groups reassemble the line, and the location-only alternative is taken only when no call-site split exists |
| ErrorRender.SourceMapGroups | src/formatters/PrettyFormatter.ts:11 | a line matches exactly when it starts with eight spaces and "-> "; the location is the rest of the line |
| ErrorRender.SeparatorLength | src/formatters/PrettyFormatter.ts:10 | `:* *` takes a run of colons, then a run of spaces; the next character is not a space, and it is a colon only when spaces were taken |
| ErrorRender.SeparatorLongest | src/formatters/PrettyFormatter.ts:10 | no longer prefix of the text is colons followed by spaces, so the separator is the greedy one |
| ErrorRender.HeaderMatchesIff | src/formatters/PrettyFormatter.ts:10 | the header expression matches a line exactly when the line starts with a word character |
| ErrorRender.HeaderGroupsShape | src/formatters/PrettyFormatter.ts:10 | an optional "Caused by: ", the name, the separator and the message reassemble the line |
| ErrorRender.HeaderPartsClasses | src/formatters/PrettyFormatter.ts:10 | the name is a non-empty run of word characters that stops before a non-word character; the separator is colons then spaces; the message does not start with a space, and starts with a colon only when the separator took spaces |
| ErrorRender.HeaderOfPlainError | src/formatters/PrettyFormatter.ts:10 | "Error: boom" matches with no "Caused by:", the name "Error" and the message "boom" |
| ErrorRender.HeaderWithCode | src/formatters/PrettyFormatter.ts:10 | in "TypeError:: (E_BAD) invalid input" both colons and the space go to the separator; the name is "TypeError" and the message is "(E_BAD) invalid input" |
| ErrorRender.HeaderGroupsOf | src/formatters/PrettyFormatter.ts:10 | any word (such as "CustomError"), colons, spaces and a message starting with neither match as name and message, with no "Caused by:" |
| ErrorRender.NoMarkerBeforeColon | src/formatters/PrettyFormatter.ts:10 | a word followed by a colon never starts with the "Caused by: " group |
| ErrorRender.CausedByTaken | src/formatters/PrettyFormatter.ts:10 | "Caused by: " followed by a word character is taken by the optional group: the match reports "Caused by:" and continues after the space |
| ErrorRender.CausedByHeaderOf | src/formatters/PrettyFormatter.ts:10 | after the marker the name and message are those of the rest of the line on its own |
| ErrorRender.CausedByIff | src/formatters/PrettyFormatter.ts:10 | the group is reported exactly when the line starts with "Caused by: " and a word character follows, and it reports "Caused by:" |
| ErrorRender.ExtractCode | src/formatters/PrettyFormatter.ts:122-127 | a message starting with "(" and containing ")" splits into the text before the first ")" (the code) and the text after it; any other message has no code and is unchanged |
| ErrorRender.ReplaceSplit | src/formatters/PrettyFormatter.ts:114-130 | a replace pass rewrites the first line alone, keeps its terminator, and continues on the rest |
| ErrorRender.PassesComposeOnLine | src/formatters/PrettyFormatter.ts:114-130 | on one line, the three passes in sequence equal one pass that tries the frame rule, then the source-map rule, then the header rule |
| ErrorRender.FormatErrorLineByLine | src/formatters/PrettyFormatter.ts:114-130 | with escape colours, the three whole-text passes equal that single combined pass applied line by line |
| ErrorRender.FormatErrorKeepsLines | src/formatters/PrettyFormatter.ts:114-130 | rendering keeps the stack's line terminators, in order, and its number of lines |
| ErrorRender.FrameShows | src/formatters/PrettyFormatter.ts:115-117 | once colours are removed, a frame line reads as it was; a location-only frame gains one trailing space |
| ErrorRender.BareFrameShows | src/formatters/PrettyFormatter.ts:115-117 | for a location-only frame, the absent function renders as "" and the trailing space remains |
| ErrorRender.CallSiteFrameShows | src/formatters/PrettyFormatter.ts:115-117 | a frame with a function and a location reads exactly as the original line |
| ErrorRender.SourceMapShows | src/formatters/PrettyFormatter.ts:118-120 | a source-mapped line reads exactly as it was |
| ErrorRender.HeaderShows | src/formatters/PrettyFormatter.ts:121-130 | a header reads as the optional "Caused by: ", the name, ": ", the code in parentheses when non-empty, and the rest of the message |
| ErrorRender.HeaderShowsAsWritten | src/formatters/PrettyFormatter.ts:121-130 | a header written "Name: message" (not starting "()") reads exactly as it was |
| ErrorRender.CodeShownKeeps | src/formatters/PrettyFormatter.ts:122-127 | unless the message starts with "()", the code in parentheses followed by the rest gives the message back |
| ErrorRender.EmptyCodeDropped | src/formatters/PrettyFormatter.ts:122-127 | an empty code "()" disappears from the line |
| ErrorRender.BareNameShows | src/formatters/PrettyFormatter.ts:121-130 | a line made only of word characters gains ": " |
| ErrorRender.OtherLinesUnchanged | src/formatters/PrettyFormatter.ts:114-130 | a line matched by none of the three expressions is left unchanged |
| Pretty.NewPrettyFormatter | src/formatters/PrettyFormatter.ts:28-31 | construction throws exactly when a user code is uncatalogued; the date format defaults to "HH:mm:ss DD-MM-YYYY" |
| Pretty.NewPrettyFormatterColors | src/formatters/PrettyFormatter.ts:29 | the formatter's colours are the default keys plus the user's keys, with the user's bindings winning |
| Pretty.NewPrettyFormatterBindings | src/formatters/PrettyFormatter.ts:29 | every level and role has a formatter; with codes only, every formatter is an escape wrapper |
| Pretty.DefaultFormatter | src/formatters/PrettyFormatter.ts:28-31 | without options, construction succeeds with the default keys, escape colours and the default date format |
| Pretty.FormatLoggerName | src/formatters/PrettyFormatter.ts:80-86 | painting the name leaves GRAY cached and only adds to the cache |
| Pretty.StripLoggerName | src/formatters/PrettyFormatter.ts:80-86 | the logger name reads as "(" name ")" |
| Pretty.FormatMessageAppend | src/formatters/PrettyFormatter.ts:92-103 | the message of concatenated argument lists is the concatenation of their messages |
| Pretty.WordsEscapeFree | src/formatters/PrettyFormatter.ts:92-103 | a message of plain arguments is each argument's `${x}` followed by a space, and holds no escapes |
| Pretty.ErrorThenText | src/formatters/PrettyFormatter.ts:95-99 | an error contributes its rendered stack with no space after it |
| Pretty.MessageOfOneText | src/formatters/PrettyFormatter.ts:46 | a single word is shown as itself, because its trailing space is trimmed |
| Pretty.Format | src/formatters/PrettyFormatter.ts:38-50 | formatting keeps the cache valid and leaves GRAY cached |
| Pretty.FormatShowsPlainLine | src/formatters/PrettyFormatter.ts:38-50 | with escape colours and plain arguments, the line reads (colours removed) as: [timestamp ]LEVEL-padded-to-6, pid, " (name): ", the fenced prefix, the trimmed message, the fenced suffix |
| Pretty.FencesAsWritten | src/formatters/PrettyFormatter.ts:45-47 | the prefix segment is the prefix, a space and U+FF5C; the suffix segment is U+FF5C, a space and the suffix |
| Pretty.TimestampSegment | src/formatters/PrettyFormatter.ts:40 | the timestamp segment appears exactly when the timestamp is truthy, and nothing else depends on it |
| Pretty.ExtraIgnored | src/formatters/PrettyFormatter.ts:38-50 | the record's `extra` does not affect the line |
| Pretty.ExamplePlainLine | src/formatters/PrettyFormatter.ts:38-50 | `info("hello", "world")` from "app" in process 1234 reads "INFO  1234 (app): hello world" |
| Pretty.ExampleInfoLine | src/formatters/PrettyFormatter.ts:38-50 | any escape-coloured formatter (the default one among them) writes a line that reads the same way |
| Examples.DefaultTablePaints | src/util/constants.ts:39-56 | a formatter built without options binds INFO and the logger name to blue, the timestamp to gray, the process id to bright magenta, "Caused by:" to red background, the error name to underline, the code to magenta, "at" to yellow, the function to cyan, the location to dim, the source-map arrow to green and the source-map location to dim, each as its escape wrapper |
| Examples.HeaderEscapes | src/util/Color.ts:136-137 | underline is ESC[4m … ESC[24m and magenta ESC[35m … ESC[39m |
| Examples.FrameEscapes | src/util/Color.ts:136-137 | yellow is ESC[33m … ESC[39m, cyan ESC[36m … ESC[39m, dim ESC[2m … ESC[22m |
| Examples.LineEscapes | src/util/Color.ts:136-137 | blue is ESC[34m … ESC[39m, bright magenta ESC[95m … ESC[39m, gray ESC[90m … ESC[39m |
| Examples.HeaderLineRendered | src/formatters/PrettyFormatter.ts:114-130 | a matching header line that does not start with a space is rendered by the header callback |
| Examples.UncodedHeaderPainted | src/formatters/PrettyFormatter.ts:121-130 | with no "Caused by:" and no code, the header is the name between the name escapes, ": " and the message |
| Examples.CodedHeaderPainted | src/formatters/PrettyFormatter.ts:121-130 | with a code, the header is the name between the name escapes, ": (", the code between the code escapes, ")" and the rest of the message |
| Examples.FirstAt | src/formatters/PrettyFormatter.ts:124 | `indexOf` returns a position holding the character with no earlier occurrence |
| Examples.CodeOfBadInput | src/formatters/PrettyFormatter.ts:122-127 | the code of "(E_BAD) invalid input" is "E_BAD" and the message left is " invalid input" |
| Examples.PlainHeaderPainted | src/formatters/PrettyFormatter.ts:121-130 | under the default colours "Error: boom" becomes ESC[4m Error ESC[24m ": boom" |
| Examples.CodeHeaderPainted | src/formatters/PrettyFormatter.ts:121-130 | under the default colours the code of "TypeError:: (E_BAD) invalid input" is painted magenta inside unpainted parentheses |
| Examples.CallFramePainted | src/formatters/PrettyFormatter.ts:115-117 | a frame with a call site is four spaces, "at" between its escapes, the function between its escapes, and the parenthesised location between the location escapes |
| Examples.FrameOfFoo | src/formatters/PrettyFormatter.ts:9 | "    at foo (file.js:1:1)" splits into the function "foo" and the location "(file.js:1:1)" |
| Examples.FramePainted | src/formatters/PrettyFormatter.ts:115-117 | under the default colours that frame paints "at" yellow, "foo" cyan and "(file.js:1:1)" dim, parentheses inside the dim escapes |
| Examples.StackPainted | src/formatters/PrettyFormatter.ts:114-130 | the two-line stack "Error: boom", newline, that frame renders as the painted header, the newline and the painted frame |
| Examples.DefaultStackPainted | src/formatters/PrettyFormatter.ts:114-130 | a formatter built without options renders that stack and the coded header exactly so |
| Examples.LoggerNamePainted | src/formatters/PrettyFormatter.ts:80-86 | the logger name is the gray "(", the name between the logger-name escapes, and the gray ")" |
| Examples.LinePainted | src/formatters/PrettyFormatter.ts:38-50 | without timestamp, prefix or suffix, a line is the painted level column, the painted process id, a space, the painted logger name, ": " and the trimmed message |
| Examples.HelloWorld | src/formatters/PrettyFormatter.ts:46 | the message of `info("hello", "world")` is "hello world" |
| Examples.InfoLinePainted | src/formatters/PrettyFormatter.ts:38-50 | under the default line colours `info("hello", "world")` from "app" in process 1234 is ESC[34m "INFO  " ESC[39m ESC[95m "1234" ESC[39m " " ESC[90m "(" ESC[39m ESC[34m "app" ESC[39m ESC[90m ")" ESC[39m ": hello world" |
| Examples.DefaultInfoLine | src/formatters/PrettyFormatter.ts:38-50 | a formatter built without options writes that line exactly |
| Examples.CausedByEscapes | src/util/Color.ts:136-137 | red background is ESC[41m … ESC[49m |
| Examples.SourceMapEscapes | src/util/Color.ts:136-137 | green is ESC[32m … ESC[39m |
| Examples.CausedByHeaderPainted | src/formatters/PrettyFormatter.ts:121-130 | after "Caused by: " the header is the marker between the caused-by escapes, a plain space, the name between the name escapes, ": " and the message |
| Examples.CausedByPainted | src/formatters/PrettyFormatter.ts:121-130 | "Caused by: Error: boom" becomes ESC[41m "Caused by:" ESC[49m " " ESC[4m "Error" ESC[24m ": boom" |
| Examples.SourceMapPainted | src/formatters/PrettyFormatter.ts:118-120 | a source-map line is eight spaces, the arrow between the arrow escapes, a space and the location between the source-map location escapes |
| Examples.SourceMapLinePainted | src/formatters/PrettyFormatter.ts:118-120 | "        -> a.ts:1:1" is no frame and becomes eight spaces, ESC[32m "->" ESC[39m " " ESC[2m "a.ts:1:1" ESC[22m |
| Examples.DefaultMarkersPainted | src/formatters/PrettyFormatter.ts:114-130 | a formatter built without options renders the "Caused by:" header and the source-map line exactly so |
| Examples.TimestampPainted | src/formatters/PrettyFormatter.ts:40 | a truthy timestamp puts the rendered date between the timestamp escapes and a space before the line the record gives without one |
| Examples.DefaultTimestampLine | src/formatters/PrettyFormatter.ts:38-50 | a formatter built without options writes the gray date, a space, then the info line |
| Transports.NewTransport | src/transports/Transport.ts:30-36 | the level defaults to INFO and `enabled` to true |
| Transports.Log | src/transports/Transport.ts:49-60 | the record is formatted once and printed once, and the result is true exactly when `enabled` is true or is a predicate that resolves truthy; otherwise nothing is called and the result is false |
| Transports.LevelNeverConsulted | src/transports/Transport.ts:49-60 | the transport's level plays no part in `log` |
| Transports.DefaultTransportPrints | src/transports/Transport.ts:30-60 | a transport built without options prints every record |
| ConsoleTransports.NewConsoleTransport | src/transports/ConsoleTransport.ts:12-20 | `eol` defaults to the system's line ending and `stderrMinLevel` to WARN; a present option, even `undefined`, replaces the default |
| ConsoleTransports.Print | src/transports/ConsoleTransport.ts:28-41 | a record goes to standard output exactly when its level value exceeds the threshold's; a raw stream write appends the line ending, and the console fallback writes the bare text |
| ConsoleTransports.DefaultRouting | src/transports/ConsoleTransport.ts:30 | with the WARN threshold, ERROR and WARN go to standard error and all other levels to standard output |
| ConsoleTransports.ThresholdGoesToStderr | src/transports/ConsoleTransport.ts:30 | a record at the threshold level goes to standard error |
| ConsoleTransports.RoutingMonotone | src/transports/ConsoleTransport.ts:30 | if a level goes to standard output, so does every less severe one |
| ConsoleTransports.DefaultConsoleOptions | src/transports/ConsoleTransport.ts:13-17 | the defaults are the system line ending, the WARN threshold and `enabled` true |
| Logging.DefaultTransport | src/Logger.ts:26-31 | the default transport is a console transport at TRACE, enabled, with WARN as its stderr threshold, whose formatter is exactly the pretty formatter built without options (default colours and date format) |
| Logging.NewLogger | src/Logger.ts:24-32 | the given transports are used as they are; only when none are given is the default transport built |
| Logging.Emit | src/Logger.ts:133-140 | without a marked configuration, the record has the level, the current time and all the arguments; with one, the configuration's present fields override the defaults and the input is the remaining arguments |
| Logging.LogAt | src/Logger.ts:133-145 | the record is the one `_log` builds for the arguments, level and clock reading (without a configuration: that timestamp and all the arguments), delivered once to each transport in order |
| Logging.Error | src/Logger.ts:78-80 | the ERROR record `_log` builds from the arguments and the clock reading (without a configuration: that timestamp and all the arguments), delivered unchanged to each transport in order |
| Logging.Warn | src/Logger.ts:94-96 | the WARN record `_log` builds from the arguments and the clock reading (without a configuration: that timestamp and all the arguments), delivered unchanged to each transport in order |
| Logging.Info | src/Logger.ts:46-48 | the INFO record `_log` builds from the arguments and the clock reading (without a configuration: that timestamp and all the arguments), delivered unchanged to each transport in order |
| Logging.Debug | src/Logger.ts:62-64 | the DEBUG record `_log` builds from the arguments and the clock reading (without a configuration: that timestamp and all the arguments), delivered unchanged to each transport in order |
| Logging.Trace | src/Logger.ts:110-112 | the TRACE record `_log` builds from the arguments and the clock reading (without a configuration: that timestamp and all the arguments), delivered unchanged to each transport in order |
| Logging.Silly | src/Logger.ts:126-128 | the SILLY record `_log` builds from the arguments and the clock reading (without a configuration: that timestamp and all the arguments), delivered unchanged to each transport in order |
| Logging.MakeConfig | src/Logger.ts:149-152 | `config(d)` is a marked copy of `d`, with every field kept |
| Logging.ConfigApplies | src/Logger.ts:136-140 | passing `config(d)` first applies d's prefix, suffix and timestamp, and the input becomes the remaining arguments, whatever `input` d held |
| Logging.UnmarkedConfigIsInput | src/Logger.ts:136-138 | an unmarked object is an ordinary argument |
| Logging.TimestampSegmentOfEmitted | src/Logger.ts:136-140 | `config({timestamp: false})` suppresses the timestamp; a default record (clock reading non-zero) always has one |
| Logging.DefaultLoggerDelivers | src/Logger.ts:26-31 | a logger with no transports given delivers each record to its one default transport, which prints it at any level, to standard error for ERROR and WARN and to standard output otherwise |

## Left out

- Time and dates. The date library's rendering of a timestamp and `Date.now()` are parameters (`rendered`, `now`). `fecha` is not part of this model.
- Error stacks. `util.inspect` and `error.stack` are not modelled; an `Err` argument carries the stack text they produce.
- `process.pid` is a parameter.
- Argument text. How `${x}` renders an arbitrary value is the argument's given text, except that `null` and configuration objects render as "null" and "[object Object]".
- Asynchrony. `setImmediate` and `await` are not modelled:
  - the level methods return the list of deliveries they schedule;
  - the awaited result of an `enabled` predicate is an input.
- Output. Writing to the streams and probing `console._stdout` and `console._stderr` are not modelled: the write becomes an `Output` value, and the probes are booleans.
- `os.EOL` is a parameter.
- Other transports. A logger's transports are console transports with pretty formatters. Other user transports are outside this model.
- Custom colour functions. They are abstract functions over an optional string. The properties about painted text assume escape colours (tables given as codes only, the default included).
- Timestamps. A `NaN` timestamp is not represented; numeric timestamps are integers.
- Logging.Emit: the `config` marker is a field rather than a symbol, so the record does not carry it along after spreading. No code reads it there.
- Logging.Emit: it requires that the first argument is not `null`, since `input[0][ConfigSymbol]` throws on `null`.
- `src/formatters/Formatter.ts` declares types only, and `src/index.ts` re-exports; neither holds behaviour.
- Pretty.FormatShowsPlainLine: states what a line reads as only for arguments that are not errors. Lines with errors are covered by the `ErrorRender` lemmas separately.
- ErrorRender.FormatErrorLineByLine: proved for escape colours only. With a custom colour function that emits a line terminator, the passes would see new lines.

## Notes on behaviour

- **Level column.** The level column is `level.padEnd(6)`, and the process id follows it directly, because `format` adds no separator after the level. A line therefore reads "INFO  1234 (app): hello world", with two spaces after INFO and one after ERROR.
- **Line terminators.** The `m` flag anchors at "\n", "\r", U+2028 and U+2029, so a stack is rewritten line by line across all four terminators, not only "\n".
- **Header expression.** The header expression matches any line that starts with a word character. A continuation line of a multi-line error message such as "second line" is therefore rewritten to "second: line", and a bare word gains ": " (`ErrorRender.BareNameShows`).
- **Transport level.** A transport's `level` is stored but never used to filter: every enabled transport prints every record (`Transports.LevelNeverConsulted`).
