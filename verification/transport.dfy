/** The transport base class of src/transports/Transport.ts: its option
    defaults and the gating in `log`. `log` awaits the `enabled` predicate
    and the formatter; both awaited values are inputs here, and the calls
    `log` makes are returned as a trace. */
module Transports {
  import opened Constants
  import opened Records

  /** `enabled`: a boolean, or a predicate whose awaited result decides. */
  datatype Enabled = Flag(on: bool) | Predicate

  /** `TransportOptions`. */
  datatype TransportOptions<F> = TransportOptions(formatter: F, level: Prop<Level>, enabled: Prop<Enabled>)

  datatype TransportBase<F> = TransportBase(formatter: F, level: Level, enabled: Enabled)

  /** The constructor: the level defaults to INFO and `enabled` to true. */
  function NewTransport<F>(options: TransportOptions<F>): (t: TransportBase<F>)
    ensures t.formatter == options.formatter
    ensures options.level.Val? ==> t.level == options.level.v
    ensures !options.level.Val? ==> t.level == INFO
    ensures options.enabled.Val? ==> t.enabled == options.enabled.v
    ensures !options.enabled.Val? ==> t.enabled == Flag(true)
  {
    TransportBase(options.formatter, Coalesce(options.level, INFO), Coalesce(options.enabled, Flag(true)))
  }

  /** A call `log` makes on its formatter or on `print`. */
  datatype Call = FormatCall(data: LogData) | PrintCall(data: LogData, formatted: string)

  datatype LogOutcome = LogOutcome(result: bool, calls: seq<Call>)

  /** Whether `log` goes on to print: a true flag, or a predicate whose
      awaited result `verdict` is truthy. */
  predicate Passes(enabled: Enabled, verdict: bool) {
    match enabled
    case Flag(on) => on
    case Predicate => verdict
  }

  /** `log`: a disabled transport returns false without formatting or
      printing; otherwise the record is formatted once, printed once with
      the formatted text, and the result is true. `formatted` is what the
      formatter's `format` yields for `data`. */
  function Log<F>(t: TransportBase<F>, data: LogData, verdict: bool, formatted: string): (r: LogOutcome)
    ensures r.result <==> (t.enabled == Flag(true) || (t.enabled.Predicate? && verdict))
    ensures !r.result ==> r.calls == []
    ensures r.result ==> r.calls == [FormatCall(data), PrintCall(data, formatted)]
  {
    if t.enabled.Flag? && !t.enabled.on then LogOutcome(false, [])
    else if t.enabled.Predicate? && !verdict then LogOutcome(false, [])
    else LogOutcome(true, [FormatCall(data), PrintCall(data, formatted)])
  }

  /** The transport's level takes no part in the decision: two transports
      that differ only in their level log alike. */
  lemma LevelNeverConsulted<F>(t: TransportBase<F>, other: Level, data: LogData, verdict: bool, formatted: string)
    ensures Log(t.(level := other), data, verdict, formatted) == Log(t, data, verdict, formatted)
    ensures Log(t, data, verdict, formatted).result <==> Passes(t.enabled, verdict)
  {
  }

  /** A transport built without options prints every record, whatever its
      level, since the default `enabled` is true. */
  lemma DefaultTransportPrints<F>(formatter: F, data: LogData, verdict: bool, formatted: string)
    ensures Log(NewTransport(TransportOptions(formatter, Absent, Absent)), data, verdict, formatted)
      == LogOutcome(true, [FormatCall(data), PrintCall(data, formatted)])
    ensures NewTransport(TransportOptions(formatter, Absent, Absent)).level == INFO
  {
  }
}
