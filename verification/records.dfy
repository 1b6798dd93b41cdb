/** The log record of src/formatters/Formatter.ts (`LogData`) and the
    configuration object of src/Logger.ts (`LogConfigData`), with the
    JavaScript property semantics the logger depends on. */
module Records {
  import opened Constants

  /** An object property: missing, present but `undefined`, or holding a
      value. Object spread copies a present property even when it is
      `undefined`; `??` treats both absent and `undefined` as missing. */
  datatype Prop<+T> = Absent | Undefined | Val(v: T)

  /** `{ ...{p: base}, ...{p: over} }.p`: a present property overrides. */
  function Spread<T>(base: Prop<T>, over: Prop<T>): (r: Prop<T>)
    ensures over.Absent? ==> r == base
    ensures !over.Absent? ==> r == over
  {
    if over.Absent? then base else over
  }

  /** `p ?? fallback`. */
  function Coalesce<T>(p: Prop<T>, fallback: T): (r: T)
    ensures p.Val? ==> r == p.v
    ensures !p.Val? ==> r == fallback
  {
    if p.Val? then p.v else fallback
  }

  /** A timestamp: the `false` that suppresses it, a number of milliseconds,
      or a `Date` (always truthy). */
  datatype Timestamp = TsFalse | TsNumber(ms: int) | TsDate(ms: int)

  /** JavaScript truthiness of the `timestamp` property. */
  predicate TimestampShown(t: Prop<Timestamp>) {
    t.Val? && (t.v.TsDate? || (t.v.TsNumber? && t.v.ms != 0))
  }

  /** JavaScript truthiness of a string property: present and non-empty. */
  predicate TextShown(p: Prop<string>) {
    p.Val? && p.v != ""
  }

  /** An argument of a logging call: any value rendered by `${x}` (carried as
      its rendering), an `Error` (carried as the stack text it shows),
      `null`, or a configuration object. */
  datatype Arg =
    | Text(s: string)
    | Err(stack: string)
    | Null
    | Config(cfg: LogConfig)

  /** `LogConfigData`; `marked` is the private configuration symbol that
      `config()` sets. */
  datatype LogConfig = LogConfig(
    timestamp: Prop<Timestamp>,
    prefix: Prop<string>,
    suffix: Prop<string>,
    extra: Prop<Arg>,
    input: Prop<seq<Arg>>,
    marked: bool)

  /** `LogData`: a configuration with its level and its arguments. */
  datatype LogData = LogData(
    level: Level,
    timestamp: Prop<Timestamp>,
    prefix: Prop<string>,
    suffix: Prop<string>,
    extra: Prop<Arg>,
    input: seq<Arg>)
}
