/** The constants of src/util/constants.ts: the log levels with their
    severity order, the colour roles, and the default colour table of the
    pretty formatter. */
module Constants {
  import opened Wrappers
  import opened Color

  /** `LogLevel`. */
  datatype Level = ERROR | WARN | SILLY | INFO | DEBUG | TRACE

  /** The string value of a `LogLevel` member: its own name. */
  function LevelName(l: Level): (s: string)
    ensures 4 <= |s| <= 5
  {
    match l
    case ERROR => "ERROR"
    case WARN => "WARN"
    case SILLY => "SILLY"
    case INFO => "INFO"
    case DEBUG => "DEBUG"
    case TRACE => "TRACE"
  }

  /** The level whose string value is `s`, if any. */
  function ParseLevel(s: string): (r: Option<Level>)
    ensures r.Some? ==> LevelName(r.value) == s
  {
    if s == "ERROR" then Some(ERROR)
    else if s == "WARN" then Some(WARN)
    else if s == "SILLY" then Some(SILLY)
    else if s == "INFO" then Some(INFO)
    else if s == "DEBUG" then Some(DEBUG)
    else if s == "TRACE" then Some(TRACE)
    else None
  }

  /** Level names are distinct: each name reads back as its level. */
  lemma LevelNameRoundTrip(l: Level)
    ensures ParseLevel(LevelName(l)) == Some(l)
  {
  }

  /** `LogLevelValue`: the severity rank, most severe first. */
  function LevelValue(l: Level): (v: nat)
    ensures v < 6
  {
    match l
    case ERROR => 0
    case WARN => 1
    case SILLY => 2
    case INFO => 3
    case DEBUG => 4
    case TRACE => 5
  }

  /** The levels in the declaration order of `LogLevelValue`. */
  const Levels: seq<Level> := [ERROR, WARN, SILLY, INFO, DEBUG, TRACE]

  /** The rank of a level is its position in `Levels`, so the ranks run
      0 to 5 without gaps and every level has exactly one. */
  lemma LevelValueIsPosition(l: Level)
    ensures l in Levels
    ensures Levels[LevelValue(l)] == l
    ensures forall i :: 0 <= i < |Levels| && Levels[i] == l ==> i == LevelValue(l)
  {
  }

  /** The severity order: ERROR < WARN < SILLY < INFO < DEBUG < TRACE. */
  lemma SeverityOrder()
    ensures LevelValue(ERROR) < LevelValue(WARN) < LevelValue(SILLY)
      < LevelValue(INFO) < LevelValue(DEBUG) < LevelValue(TRACE)
    ensures forall a: Level, b: Level :: LevelValue(a) == LevelValue(b) ==> a == b
  {
  }

  /** `ColorKey`: the colour roles other than the levels. */
  datatype ColorKey =
    | LOG_LOGGER_NAME | LOG_TIMESTAMP | LOG_PROCESS_ID
    | ERROR_CAUSED_BY | ERROR_NAME | ERROR_CODE | ERROR_AT
    | ERROR_TYPE_AND_FUNCTION | ERROR_LOCATION
    | ERROR_NODEJS_SOURCE_MAP_ARROW | ERROR_NODEJS_SOURCE_MAP_LOCATION

  /** The numeric value of a `ColorKey` member. */
  function ColorKeyValue(k: ColorKey): int {
    match k
    case LOG_LOGGER_NAME => 101
    case LOG_TIMESTAMP => 102
    case LOG_PROCESS_ID => 103
    case ERROR_CAUSED_BY => 200
    case ERROR_NAME => 201
    case ERROR_CODE => 202
    case ERROR_AT => 203
    case ERROR_TYPE_AND_FUNCTION => 204
    case ERROR_LOCATION => 205
    case ERROR_NODEJS_SOURCE_MAP_ARROW => 900
    case ERROR_NODEJS_SOURCE_MAP_LOCATION => 901
  }

  /** A key of a JavaScript `Map` of colours: a level is keyed by its string
      value, a `ColorKey` by its number. */
  datatype Key = Str(s: string) | Num(n: int)

  function LevelKey(l: Level): Key { Str(LevelName(l)) }

  function RoleKey(k: ColorKey): Key { Num(ColorKeyValue(k)) }

  /** A key the pretty formatter looks up: one of the six levels or one of
      the eleven roles (`PrettyFormatterColorKey`). */
  predicate IsFormatterKey(k: Key) {
    (k.Str? && ParseLevel(k.s).Some?) || (k.Num? && k.n in {101, 102, 103, 200, 201, 202, 203, 204, 205, 900, 901})
  }

  lemma FormatterKeys()
    ensures forall l: Level :: IsFormatterKey(LevelKey(l))
    ensures forall k: ColorKey :: IsFormatterKey(RoleKey(k))
    ensures forall a: ColorKey, b: ColorKey :: RoleKey(a) == RoleKey(b) ==> a == b
  {
  }

  /** `PrettyFormatterColors`, in the order of its `.set` calls. */
  const DefaultColors: Entries<Key> := [
    (LevelKey(WARN), Code(YELLOW)),
    (LevelKey(INFO), Code(BLUE)),
    (LevelKey(TRACE), Code(MAGENTA)),
    (LevelKey(DEBUG), Code(CYAN)),
    (LevelKey(SILLY), Code(GREEN)),
    (LevelKey(ERROR), Code(RED)),
    (RoleKey(LOG_LOGGER_NAME), Code(BLUE)),
    (RoleKey(LOG_TIMESTAMP), Code(GRAY)),
    (RoleKey(LOG_PROCESS_ID), Code(BRIGHT_MAGENTA)),
    (RoleKey(ERROR_CAUSED_BY), Code(BG_RED)),
    (RoleKey(ERROR_NAME), Code(UNDERLINE)),
    (RoleKey(ERROR_CODE), Code(MAGENTA)),
    (RoleKey(ERROR_AT), Code(YELLOW)),
    (RoleKey(ERROR_TYPE_AND_FUNCTION), Code(CYAN)),
    (RoleKey(ERROR_LOCATION), Code(DIM)),
    (RoleKey(ERROR_NODEJS_SOURCE_MAP_ARROW), Code(GREEN)),
    (RoleKey(ERROR_NODEJS_SOURCE_MAP_LOCATION), Code(DIM))
  ]

  /** A numbering of keys that is one-to-one on the keys of
      `DefaultColors`; `DefaultPositions` checks it against the table, and
      it serves only to show that the table's keys are pairwise distinct. */
  function DefaultPosition(k: Key): int {
    match k
    case Str(s) =>
      if s == "WARN" then 0 else if s == "INFO" then 1 else if s == "TRACE" then 2
      else if s == "DEBUG" then 3 else if s == "SILLY" then 4 else if s == "ERROR" then 5 else -1
    case Num(n) =>
      if n == 101 then 6 else if n == 102 then 7 else if n == 103 then 8
      else if 200 <= n <= 205 then n - 191
      else if n == 900 then 15 else if n == 901 then 16 else -1
  }

  lemma DefaultPositions()
    ensures |DefaultColors| == 17
    ensures forall i :: 0 <= i < |DefaultColors| ==> DefaultPosition(DefaultColors[i].0) == i
  {
    LevelPositions();
    RolePositions();
  }

  lemma LevelPositions()
    ensures forall i :: 0 <= i < 6 ==> DefaultPosition(DefaultColors[i].0) == i
  {
    var ps := seq(6, i requires 0 <= i < 6 => DefaultPosition(DefaultColors[i].0));
    assert ps == [0, 1, 2, 3, 4, 5];
  }

  lemma RolePositions()
    ensures forall i :: 6 <= i < 17 ==> DefaultPosition(DefaultColors[i].0) == i
  {
    var roles := DefaultColors[6..];
    assert roles == [
      (Num(101), Code(BLUE)), (Num(102), Code(GRAY)), (Num(103), Code(BRIGHT_MAGENTA)),
      (Num(200), Code(BG_RED)), (Num(201), Code(UNDERLINE)), (Num(202), Code(MAGENTA)),
      (Num(203), Code(YELLOW)), (Num(204), Code(CYAN)), (Num(205), Code(DIM)),
      (Num(900), Code(GREEN)), (Num(901), Code(DIM))];
    forall i | 6 <= i < 17 ensures DefaultPosition(DefaultColors[i].0) == i {
      assert DefaultColors[i] == roles[i - 6];
    }
  }

  lemma DefaultLevelsBound()
    ensures forall l: Level :: LevelKey(l) in KeysOf(DefaultColors)
  {
    forall l: Level ensures LevelKey(l) in KeysOf(DefaultColors) {
      match l
      case WARN => assert DefaultColors[0].0 == LevelKey(l);
      case INFO => assert DefaultColors[1].0 == LevelKey(l);
      case TRACE => assert DefaultColors[2].0 == LevelKey(l);
      case DEBUG => assert DefaultColors[3].0 == LevelKey(l);
      case SILLY => assert DefaultColors[4].0 == LevelKey(l);
      case ERROR => assert DefaultColors[5].0 == LevelKey(l);
    }
  }

  lemma DefaultRolesBound()
    ensures forall k: ColorKey :: RoleKey(k) in KeysOf(DefaultColors)
  {
    forall k: ColorKey ensures RoleKey(k) in KeysOf(DefaultColors) {
      var i := match k
        case LOG_LOGGER_NAME => 6 case LOG_TIMESTAMP => 7 case LOG_PROCESS_ID => 8
        case ERROR_CAUSED_BY => 9 case ERROR_NAME => 10 case ERROR_CODE => 11 case ERROR_AT => 12
        case ERROR_TYPE_AND_FUNCTION => 13 case ERROR_LOCATION => 14
        case ERROR_NODEJS_SOURCE_MAP_ARROW => 15 case ERROR_NODEJS_SOURCE_MAP_LOCATION => 16;
      assert DefaultColors[i].0 == RoleKey(k);
    }
  }

  lemma DefaultKeysAreFormatterKeys()
    ensures forall k :: k in KeysOf(DefaultColors) ==> IsFormatterKey(k)
  {
    var fk := seq(|DefaultColors|, i requires 0 <= i < |DefaultColors| => IsFormatterKey(DefaultColors[i].0));
    assert fk == seq(17, _ => true);
    assert forall i :: 0 <= i < |DefaultColors| ==> fk[i];
  }

  lemma DefaultCodesKnown()
    ensures forall i :: 0 <= i < |DefaultColors| ==> DefaultColors[i].1.Code?
    ensures CodesKnown(DefaultColors)
  {
    var ck := seq(|DefaultColors|, i requires 0 <= i < |DefaultColors| =>
      DefaultColors[i].1.Code? && InCatalogue(DefaultColors[i].1.code));
    assert ck == seq(17, _ => true);
    assert forall i :: 0 <= i < |DefaultColors| ==> ck[i];
  }

  /** The default table has 17 entries with pairwise distinct keys, binds
      every level and every role and nothing else, and holds only
      catalogued codes, so building it never throws. */
  lemma DefaultColorsShape()
    ensures |DefaultColors| == 17
    ensures DistinctKeys(DefaultColors)
    ensures forall l: Level :: LevelKey(l) in KeysOf(DefaultColors)
    ensures forall k: ColorKey :: RoleKey(k) in KeysOf(DefaultColors)
    ensures forall k :: k in KeysOf(DefaultColors) ==> IsFormatterKey(k)
    ensures forall i :: 0 <= i < |DefaultColors| ==> DefaultColors[i].1.Code?
    ensures CodesKnown(DefaultColors)
  {
    DefaultPositions();
    DefaultLevelsBound();
    DefaultRolesBound();
    DefaultKeysAreFormatterKeys();
    DefaultCodesKnown();
  }

  /** Some of the default bindings: ERROR red, WARN yellow, error names
      underlined, error locations dim, timestamps gray. */
  lemma DefaultColorChoices()
    ensures LastBinding(DefaultColors, LevelKey(ERROR)) == Some(Code(RED))
    ensures LastBinding(DefaultColors, LevelKey(WARN)) == Some(Code(YELLOW))
    ensures LastBinding(DefaultColors, RoleKey(ERROR_NAME)) == Some(Code(UNDERLINE))
    ensures LastBinding(DefaultColors, RoleKey(ERROR_LOCATION)) == Some(Code(DIM))
    ensures LastBinding(DefaultColors, RoleKey(LOG_TIMESTAMP)) == Some(Code(GRAY))
  {
    DefaultColorsShape();
    LastBindingAt(DefaultColors, 5);
    LastBindingAt(DefaultColors, 0);
    LastBindingAt(DefaultColors, 10);
    LastBindingAt(DefaultColors, 14);
    LastBindingAt(DefaultColors, 7);
  }
}
