/** The logger of src/Logger.ts: construction with its default transport,
    the record each level method builds (`_log`), the `config` marker, and
    the hand-off of the record to every transport. The clock reading and
    the operating system's line ending are inputs; the deferred calls to
    the transports are returned as a list. */
module Logging {
  import opened Wrappers
  import opened Color
  import opened Constants
  import opened Records
  import opened Pretty
  import opened Transports
  import opened ConsoleTransports

  /** A logger whose transports are console transports with pretty
      formatters. */
  datatype Logger = Logger(name: string, transports: seq<ConsoleTransport<PrettyFormatter>>)

  /** The transport a logger gets when given none: a console transport with
      a default pretty formatter at level TRACE. */
  function DefaultTransport(osEol: string, cache: Cache): (r: (ConsoleTransport<PrettyFormatter>, Cache))
    ensures r.0.base.level == TRACE && r.0.base.enabled == Flag(true)
    ensures r.0.eol == Val(osEol) && r.0.stderrMinLevel == Val(WARN)
    ensures r.0.base.formatter.dateFormat == DEFAULT_DATE_FORMAT
    ensures NewPrettyFormatter(PrettyOptions(Absent, Absent), cache).Got?
    ensures r.0.base.formatter == NewPrettyFormatter(PrettyOptions(Absent, Absent), cache).value
    ensures CacheValid(cache) ==> CacheValid(r.1)
  {
    DefaultColorsShape();
    var built := NewPrettyFormatter(PrettyOptions(Absent, Absent), cache);
    assert CodesKnown<Key>([]);
    (NewConsoleTransport(ConsoleOptions(built.value, Val(TRACE), Absent, Absent, Absent), osEol), built.cache)
  }

  /** The constructor: the given transports, or else the default one. The
      default is only built when needed, so the cache changes only then. */
  function NewLogger(name: string, transports: Prop<seq<ConsoleTransport<PrettyFormatter>>>, osEol: string, cache: Cache)
    : (r: (Logger, Cache))
    ensures r.0.name == name
    ensures transports.Val? ==> r.0.transports == transports.v && r.1 == cache
    ensures !transports.Val? ==> r.0.transports == [DefaultTransport(osEol, cache).0]
    ensures CacheValid(cache) ==> CacheValid(r.1)
  {
    if transports.Val? then (Logger(name, transports.v), cache)
    else
      var (t, after) := DefaultTransport(osEol, cache);
      (Logger(name, [t]), after)
  }

  /** Whether the first argument is a configuration `config()` marked. */
  predicate LeadsWithConfig(args: seq<Arg>) {
    |args| > 0 && args[0].Config? && args[0].cfg.marked
  }

  /** `_log`: the record for `args` at `level` with the timestamp `now`. A
      leading marked configuration is taken out of the arguments and its
      present fields replace the defaults; the input is always the remaining
      arguments. A leading `null` makes the source throw (`null[symbol]`),
      so it is excluded. */
  function Emit(args: seq<Arg>, level: Level, now: int): (d: LogData)
    requires |args| > 0 ==> !args[0].Null?
    ensures d.level == level
    ensures !LeadsWithConfig(args) ==>
      d == LogData(level, Val(TsNumber(now)), Absent, Absent, Absent, args)
    ensures LeadsWithConfig(args) ==>
      && d.input == args[1..]
      && (args[0].cfg.timestamp.Absent? ==> d.timestamp == Val(TsNumber(now)))
      && (!args[0].cfg.timestamp.Absent? ==> d.timestamp == args[0].cfg.timestamp)
      && d.prefix == args[0].cfg.prefix
      && d.suffix == args[0].cfg.suffix
      && d.extra == args[0].cfg.extra
  {
    var base := LogData(level, Val(TsNumber(now)), Absent, Absent, Absent, []);
    if LeadsWithConfig(args) then
      var c := args[0].cfg;
      LogData(level, Spread(base.timestamp, c.timestamp), Spread(base.prefix, c.prefix),
        Spread(base.suffix, c.suffix), Spread(base.extra, c.extra), args[1..])
    else base.(input := args)
  }

  /** A deferred call `transport.log(logger, record)`. */
  datatype Delivery = Delivery(transport: nat, data: LogData)

  /** A level method: the record, and one delivery of it to each transport,
      in order. */
  function LogAt(logger: Logger, args: seq<Arg>, level: Level, now: int): (r: (LogData, seq<Delivery>))
    requires |args| > 0 ==> !args[0].Null?
    ensures r.0 == Emit(args, level, now)
    ensures r.0.level == level
    ensures !LeadsWithConfig(args) ==> r.0.timestamp == Val(TsNumber(now)) && r.0.input == args
    ensures |r.1| == |logger.transports|
    ensures forall i :: 0 <= i < |r.1| ==> r.1[i] == Delivery(i, r.0)
  {
    var d := Emit(args, level, now);
    (d, seq(|logger.transports|, (i: nat) => Delivery(i, d)))
  }

  function Error(logger: Logger, args: seq<Arg>, now: int): (r: (LogData, seq<Delivery>))
    requires |args| > 0 ==> !args[0].Null?
    ensures r.0 == Emit(args, ERROR, now) && r.0.level == ERROR
    ensures !LeadsWithConfig(args) ==> r.0.timestamp == Val(TsNumber(now)) && r.0.input == args
    ensures |r.1| == |logger.transports| && forall i :: 0 <= i < |r.1| ==> r.1[i] == Delivery(i, r.0)
  {
    LogAt(logger, args, ERROR, now)
  }

  function Warn(logger: Logger, args: seq<Arg>, now: int): (r: (LogData, seq<Delivery>))
    requires |args| > 0 ==> !args[0].Null?
    ensures r.0 == Emit(args, WARN, now) && r.0.level == WARN
    ensures !LeadsWithConfig(args) ==> r.0.timestamp == Val(TsNumber(now)) && r.0.input == args
    ensures |r.1| == |logger.transports| && forall i :: 0 <= i < |r.1| ==> r.1[i] == Delivery(i, r.0)
  {
    LogAt(logger, args, WARN, now)
  }

  function Info(logger: Logger, args: seq<Arg>, now: int): (r: (LogData, seq<Delivery>))
    requires |args| > 0 ==> !args[0].Null?
    ensures r.0 == Emit(args, INFO, now) && r.0.level == INFO
    ensures !LeadsWithConfig(args) ==> r.0.timestamp == Val(TsNumber(now)) && r.0.input == args
    ensures |r.1| == |logger.transports| && forall i :: 0 <= i < |r.1| ==> r.1[i] == Delivery(i, r.0)
  {
    LogAt(logger, args, INFO, now)
  }

  function Debug(logger: Logger, args: seq<Arg>, now: int): (r: (LogData, seq<Delivery>))
    requires |args| > 0 ==> !args[0].Null?
    ensures r.0 == Emit(args, DEBUG, now) && r.0.level == DEBUG
    ensures !LeadsWithConfig(args) ==> r.0.timestamp == Val(TsNumber(now)) && r.0.input == args
    ensures |r.1| == |logger.transports| && forall i :: 0 <= i < |r.1| ==> r.1[i] == Delivery(i, r.0)
  {
    LogAt(logger, args, DEBUG, now)
  }

  function Trace(logger: Logger, args: seq<Arg>, now: int): (r: (LogData, seq<Delivery>))
    requires |args| > 0 ==> !args[0].Null?
    ensures r.0 == Emit(args, TRACE, now) && r.0.level == TRACE
    ensures !LeadsWithConfig(args) ==> r.0.timestamp == Val(TsNumber(now)) && r.0.input == args
    ensures |r.1| == |logger.transports| && forall i :: 0 <= i < |r.1| ==> r.1[i] == Delivery(i, r.0)
  {
    LogAt(logger, args, TRACE, now)
  }

  function Silly(logger: Logger, args: seq<Arg>, now: int): (r: (LogData, seq<Delivery>))
    requires |args| > 0 ==> !args[0].Null?
    ensures r.0 == Emit(args, SILLY, now) && r.0.level == SILLY
    ensures !LeadsWithConfig(args) ==> r.0.timestamp == Val(TsNumber(now)) && r.0.input == args
    ensures |r.1| == |logger.transports| && forall i :: 0 <= i < |r.1| ==> r.1[i] == Delivery(i, r.0)
  {
    LogAt(logger, args, SILLY, now)
  }

  /** `config(d)`: a copy of `d` carrying the marker. */
  function MakeConfig(d: LogConfig): (r: LogConfig)
    ensures r.marked
    ensures r.timestamp == d.timestamp && r.prefix == d.prefix && r.suffix == d.suffix
    ensures r.extra == d.extra && r.input == d.input
  {
    d.(marked := true)
  }

  /** Passing `config(d)` first applies `d`: its present fields, `false`
      timestamps included, replace the defaults, and the rest of the
      arguments become the input, whatever input `d` carried. */
  lemma ConfigApplies(d: LogConfig, rest: seq<Arg>, level: Level, now: int)
    ensures Emit([Config(MakeConfig(d))] + rest, level, now).input == rest
    ensures Emit([Config(MakeConfig(d))] + rest, level, now).prefix == d.prefix
    ensures Emit([Config(MakeConfig(d))] + rest, level, now).suffix == d.suffix
    ensures d.timestamp.Val? ==> Emit([Config(MakeConfig(d))] + rest, level, now).timestamp == d.timestamp
    ensures d.timestamp.Absent? ==> Emit([Config(MakeConfig(d))] + rest, level, now).timestamp == Val(TsNumber(now))
  {
    assert ([Config(MakeConfig(d))] + rest)[1..] == rest;
  }

  /** An unmarked configuration object is an ordinary argument: it stays in
      the input and changes none of the record's fields. */
  lemma UnmarkedConfigIsInput(d: LogConfig, rest: seq<Arg>, level: Level, now: int)
    requires !d.marked
    ensures Emit([Config(d)] + rest, level, now)
      == LogData(level, Val(TsNumber(now)), Absent, Absent, Absent, [Config(d)] + rest)
  {
  }

  /** A record emitted with `config({timestamp: false})` shows no timestamp
      segment, while one emitted without a configuration always has one
      (its number is the clock's reading, a real time, never 0). */
  lemma TimestampSegmentOfEmitted(rest: seq<Arg>, level: Level, now: int, d: LogConfig)
    requires d.timestamp == Val(TsFalse)
    requires now != 0 && (|rest| > 0 ==> !rest[0].Null? && !LeadsWithConfig(rest))
    ensures !TimestampShown(Emit([Config(MakeConfig(d))] + rest, level, now).timestamp)
    ensures TimestampShown(Emit(rest, level, now).timestamp)
  {
    ConfigApplies(d, rest, level, now);
  }

  /** End to end with no transports given: a record at any level reaches the
      one default transport, which prints it whatever its level (the TRACE
      level is never consulted), to standard error for ERROR and WARN and to
      standard output otherwise. */
  lemma DefaultLoggerDelivers(name: string, osEol: string, cache: Cache, args: seq<Arg>, level: Level, now: int,
                              verdict: bool, formatted: string, hasStdout: bool, hasStderr: bool)
    requires |args| > 0 ==> !args[0].Null?
    ensures var logger := NewLogger(name, Absent, osEol, cache).0;
      var r := LogAt(logger, args, level, now);
      && r.1 == [Delivery(0, r.0)]
      && Log(logger.transports[0].base, r.0, verdict, formatted).result
      && (OnStdout(Print(logger.transports[0], r.0, formatted, hasStdout, hasStderr)) <==> level !in {ERROR, WARN})
  {
    var logger := NewLogger(name, Absent, osEol, cache).0;
    var r := LogAt(logger, args, level, now);
    assert |r.1| == 1 && r.1[0] == Delivery(0, r.0);
    DefaultRouting(level);
  }
}
