/** The console transport of src/transports/ConsoleTransport.ts: its option
    defaults and the stream `print` chooses. The operating system's line
    ending and whether the console exposes its raw streams are inputs; the
    writes themselves are returned as a value. */
module ConsoleTransports {
  import opened Constants
  import opened Records
  import opened Transports

  /** `ConsoleTransportOptions`. */
  datatype ConsoleOptions<F> = ConsoleOptions(
    formatter: F,
    level: Prop<Level>,
    enabled: Prop<Enabled>,
    eol: Prop<string>,
    stderrMinLevel: Prop<Level>)

  datatype ConsoleTransport<F> = ConsoleTransport(
    base: TransportBase<F>,
    eol: Prop<string>,
    stderrMinLevel: Prop<Level>)

  /** The constructor: `{eol: osEol, stderrMinLevel: WARN, ...options}`, so a
      property the caller sets, even to `undefined`, replaces the default. */
  function NewConsoleTransport<F>(options: ConsoleOptions<F>, osEol: string): (t: ConsoleTransport<F>)
    ensures options.eol.Absent? ==> t.eol == Val(osEol)
    ensures !options.eol.Absent? ==> t.eol == options.eol
    ensures options.stderrMinLevel.Absent? ==> t.stderrMinLevel == Val(WARN)
    ensures !options.stderrMinLevel.Absent? ==> t.stderrMinLevel == options.stderrMinLevel
    ensures t.base == NewTransport(TransportOptions(options.formatter, options.level, options.enabled))
  {
    ConsoleTransport(
      NewTransport(TransportOptions(options.formatter, options.level, options.enabled)),
      Spread(Val(osEol), options.eol),
      Spread(Val(WARN), options.stderrMinLevel))
  }

  /** The routing test `LogLevelValue[level] > LogLevelValue[min]`; with an
      `undefined` threshold the comparison is false. */
  predicate ToStdout(level: Level, min: Prop<Level>) {
    min.Val? && LevelValue(level) > LevelValue(min.v)
  }

  /** The text `${eol}` renders. */
  function EolText(eol: Prop<string>): string {
    if eol.Val? then eol.v else "undefined"
  }

  /** The single write `print` makes. */
  datatype Output =
    | StdoutWrite(text: string)
    | ConsoleLog(text: string)
    | StderrWrite(text: string)
    | ConsoleError(text: string)

  predicate OnStdout(o: Output) { o.StdoutWrite? || o.ConsoleLog? }

  /** `print`: a level less severe than the threshold goes to standard
      output, any other to standard error; a raw stream write ends the text
      with the line ending, the console fallback does not. */
  function Print<F>(t: ConsoleTransport<F>, data: LogData, formatted: string, hasStdout: bool, hasStderr: bool)
    : (o: Output)
    ensures OnStdout(o) <==> t.stderrMinLevel.Val? && LevelValue(data.level) > LevelValue(t.stderrMinLevel.v)
    ensures o.StdoutWrite? <==> OnStdout(o) && hasStdout
    ensures o.StderrWrite? <==> !OnStdout(o) && hasStderr
    ensures o.StdoutWrite? || o.StderrWrite? ==> o.text == formatted + EolText(t.eol)
    ensures o.ConsoleLog? || o.ConsoleError? ==> o.text == formatted
  {
    if ToStdout(data.level, t.stderrMinLevel) then
      if hasStdout then StdoutWrite(formatted + EolText(t.eol)) else ConsoleLog(formatted)
    else if hasStderr then StderrWrite(formatted + EolText(t.eol))
    else ConsoleError(formatted)
  }

  /** With the default threshold, ERROR and WARN go to standard error and
      every other level to standard output. */
  lemma DefaultRouting(level: Level)
    ensures ToStdout(level, Val(WARN)) <==> level !in {ERROR, WARN}
  {
  }

  /** A record at the threshold itself goes to standard error. */
  lemma ThresholdGoesToStderr(min: Level)
    ensures !ToStdout(min, Val(min))
  {
  }

  /** Routing is monotone in severity: if a level goes to standard output,
      so does every less severe level. */
  lemma RoutingMonotone(a: Level, b: Level, min: Prop<Level>)
    requires ToStdout(a, min) && LevelValue(a) <= LevelValue(b)
    ensures ToStdout(b, min)
  {
  }

  /** Default options: the line ending of the system and the WARN threshold. */
  lemma DefaultConsoleOptions<F>(formatter: F, osEol: string, level: Prop<Level>)
    ensures NewConsoleTransport(ConsoleOptions(formatter, level, Absent, Absent, Absent), osEol).eol == Val(osEol)
    ensures NewConsoleTransport(ConsoleOptions(formatter, level, Absent, Absent, Absent), osEol).stderrMinLevel
      == Val(WARN)
    ensures NewConsoleTransport(ConsoleOptions(formatter, level, Absent, Absent, Absent), osEol).base.enabled
      == Flag(true)
  {
  }
}
