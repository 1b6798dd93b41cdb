/** The colour engine of src/util/Color.ts: the catalogue of SGR codes, the
    reset code each one needs, the wrapper a code resolves to, the
    process-wide memo cache (threaded explicitly through every call), and the
    two-layer merge that builds a role-to-formatter table. */
module Color {
  import opened Wrappers
  import opened Strings

  // ---------------------------------------------------------------------
  // The ColorCode enumeration

  const RESET := 0
  const BOLD := 1
  const DIM := 2
  const ITALIC := 3
  const UNDERLINE := 4
  const INVERSE := 7
  const HIDDEN := 8
  const STRIKETHROUGH := 9

  const BLACK := 30
  const RED := 31
  const GREEN := 32
  const YELLOW := 33
  const BLUE := 34
  const MAGENTA := 35
  const CYAN := 36
  const WHITE := 37
  const GRAY := 90
  const BRIGHT_RED := 91
  const BRIGHT_GREEN := 92
  const BRIGHT_YELLOW := 93
  const BRIGHT_BLUE := 94
  const BRIGHT_MAGENTA := 95
  const BRIGHT_CYAN := 96
  const BRIGHT_WHITE := 97

  const BG_BLACK := 40
  const BG_RED := 41
  const BG_GREEN := 42
  const BG_YELLOW := 43
  const BG_BLUE := 44
  const BG_MAGENTA := 45
  const BG_CYAN := 46
  const BG_WHITE := 47
  const BG_BRIGHT_RED := 101
  const BG_BRIGHT_GREEN := 102
  const BG_BRIGHT_YELLOW := 103
  const BG_BRIGHT_BLUE := 104
  const BG_BRIGHT_MAGENTA := 105
  const BG_BRIGHT_CYAN := 106
  const BG_BRIGHT_WHITE := 107

  /** Text attributes: reset, bold, dim, italic, underline, inverse, hidden,
      strikethrough. */
  predicate IsStyle(c: int) {
    c == 0 || c == 1 || c == 2 || c == 3 || c == 4 || c == 7 || c == 8 || c == 9
  }

  /** Foreground colours: the eight basic ones, gray and the seven bright ones. */
  predicate IsForeground(c: int) { 30 <= c <= 37 || 90 <= c <= 97 }

  /** Background colours: the eight basic ones and the seven bright ones. */
  predicate IsBackground(c: int) { 40 <= c <= 47 || 101 <= c <= 107 }

  predicate InCatalogue(c: int) { IsStyle(c) || IsForeground(c) || IsBackground(c) }

  /** `Color.getDelimiter`: the SGR code that ends the effect of `c`, or None
      where the source throws "Cannot determine delimiter". A style ends with
      20 plus its own code, except reset (0) and bold/dim (both 22); every
      foreground ends with 39 and every background with 49. */
  function Delimiter(c: int): (r: Option<nat>)
    ensures r.Some? <==> InCatalogue(c)
    ensures IsStyle(c) ==> r == Some(if c == RESET then 0 else if c <= DIM then 22 else c + 20)
    ensures IsForeground(c) ==> r == Some(39)
    ensures IsBackground(c) ==> r == Some(49)
  {
    if c == RESET then Some(0)
    else if c == BOLD || c == DIM then Some(22)
    else if c == ITALIC then Some(23)
    else if c == UNDERLINE then Some(24)
    else if c == INVERSE then Some(27)
    else if c == HIDDEN then Some(28)
    else if c == STRIKETHROUGH then Some(29)
    else if c in {BLACK, RED, GREEN, YELLOW, BLUE, MAGENTA, CYAN, WHITE, GRAY,
                  BRIGHT_RED, BRIGHT_GREEN, BRIGHT_YELLOW, BRIGHT_BLUE,
                  BRIGHT_MAGENTA, BRIGHT_CYAN, BRIGHT_WHITE} then Some(39)
    else if c in {BG_BLACK, BG_RED, BG_GREEN, BG_YELLOW, BG_BLUE, BG_MAGENTA,
                  BG_CYAN, BG_WHITE, BG_BRIGHT_RED, BG_BRIGHT_GREEN,
                  BG_BRIGHT_YELLOW, BG_BRIGHT_BLUE, BG_BRIGHT_MAGENTA,
                  BG_BRIGHT_CYAN, BG_BRIGHT_WHITE} then Some(49)
    else None
  }

  // ---------------------------------------------------------------------
  // Escape sequences and formatters

  const ESC: char := '\U{1B}'

  /** A select-graphic-rendition escape: ESC, '[', decimal digits, 'm'. */
  predicate IsEscape(e: string) {
    |e| >= 3 && e[0] == ESC && e[1] == '[' && e[|e| - 1] == 'm' && AllDigits(e[2..|e| - 1])
  }

  /** `\u001b[${n}m` */
  function Sgr(n: nat): (e: string)
    ensures IsEscape(e) && e[2..|e| - 1] == Dec(n)
  {
    [ESC, '['] + Dec(n) + "m"
  }

  /** A colour formatter: either the wrapper `Color.get` builds, or a function
      a caller supplied. `None` stands for JavaScript `undefined`, which the
      replacement callbacks pass for regex groups that did not take part in a
      match. */
  datatype ColorFn =
    | Wrap(open: string, close: string)
    | Custom(fn: Option<string> -> string)

  /** Calls a formatter. A wrapper brackets non-empty text and maps "" and
      `undefined` (both falsy) to "". */
  function Apply(f: ColorFn, s: Option<string>): string {
    match f
    case Wrap(o, c) => if s.Some? && s.value != "" then o + s.value + c else ""
    case Custom(fn) => fn(s)
  }

  /** `map.get(key)?.(s)` inside a template literal: a missing key yields
      `undefined`, which the template renders as "undefined". */
  function Paint<K>(colors: map<K, ColorFn>, key: K, s: Option<string>): string {
    if key in colors then Apply(colors[key], s) else "undefined"
  }

  /** The wrapper for a catalogued code: `ESC[c m` before, `ESC[d m` after. */
  function EscapeFor(c: int): (f: ColorFn)
    requires InCatalogue(c)
    ensures f.Wrap? && IsEscape(f.open) && IsEscape(f.close)
  {
    Wrap(Sgr(c), Sgr(Delimiter(c).value))
  }

  /** Every non-empty text is bracketed by the set and reset escapes of `c`,
      and the empty text stays empty. */
  lemma EscapeWraps(c: int, s: string)
    requires InCatalogue(c)
    ensures s != "" ==> Apply(EscapeFor(c), Some(s)) == Sgr(c) + s + Sgr(Delimiter(c).value)
    ensures s == "" ==> Apply(EscapeFor(c), Some(s)) == ""
    ensures Apply(EscapeFor(c), None) == ""
  {
  }

  // ---------------------------------------------------------------------
  // The memo cache

  /** `Color.formatters`, the process-wide cache from code to formatter. */
  type Cache = map<int, ColorFn>

  /** The cache only ever holds the canonical wrapper of a catalogued code. */
  ghost predicate CacheValid(cache: Cache) {
    forall c :: c in cache ==> InCatalogue(c) && cache[c] == EscapeFor(c)
  }

  datatype ColorError = UnknownColor(code: int)

  /** The result of a call that may throw, with the cache as it stands after
      the call (a throw keeps the insertions made before it). */
  datatype Resolved<+T> =
    | Got(value: T, cache: Cache)
    | Threw(error: ColorError, cache: Cache)

  /** `Color.get`: a cached formatter if there is one; otherwise the wrapper
      for `c`, stored in the cache; an unknown code throws before anything is
      stored. */
  function Get(cache: Cache, c: int): (r: Resolved<ColorFn>)
    ensures c in cache ==> r.Got? && r.value == cache[c] && r.cache == cache
    ensures InCatalogue(c) ==> r.Got?
    ensures r.Threw? ==> r.error == UnknownColor(c) && r.cache == cache
    ensures CacheValid(cache) ==> (r.Got? <==> InCatalogue(c))
    ensures CacheValid(cache) && r.Got? ==>
      && r.value == EscapeFor(c)
      && r.cache == cache[c := EscapeFor(c)]
      && CacheValid(r.cache)
  {
    if c in cache then
      CachedEntryKept(cache, c);
      Got(cache[c], cache)
    else
      match Delimiter(c)
      case None => Threw(UnknownColor(c), cache)
      case Some(d) =>
        var f := Wrap(Sgr(c), Sgr(d));
        CacheInsertValid(cache, c);
        Got(f, cache[c := f])
  }

  /** Storing a cached entry again changes nothing. */
  lemma CachedEntryKept(cache: Cache, c: int)
    requires c in cache
    ensures cache[c := cache[c]] == cache
  {
  }

  /** Storing the escape formatter of a catalogue code keeps a cache valid. */
  lemma CacheInsertValid(cache: Cache, c: int)
    requires InCatalogue(c)
    ensures CacheValid(cache) ==> CacheValid(cache[c := EscapeFor(c)])
  {
  }

  /** Memoisation: once `Get` has succeeded, asking again returns the same
      formatter and leaves the cache as it is. */
  lemma GetMemoised(cache: Cache, c: int)
    requires Get(cache, c).Got?
    ensures c in Get(cache, c).cache
    ensures Get(Get(cache, c).cache, c) == Got(Get(cache, c).value, Get(cache, c).cache)
  {
  }

  // ---------------------------------------------------------------------
  // Building a formatter table

  /** A table entry value: a colour code or a ready-made formatter. */
  datatype Binding = Code(code: int) | Given(fn: ColorFn)

  /** A JavaScript `Map`, as its entries in iteration order. */
  type Entries<K> = seq<(K, Binding)>

  function KeysOf<K>(entries: Entries<K>): set<K> {
    set i | 0 <= i < |entries| :: entries[i].0
  }

  /** Every code in the entries is catalogued. */
  predicate CodesKnown<K>(entries: Entries<K>) {
    forall i :: 0 <= i < |entries| && entries[i].1.Code? ==> InCatalogue(entries[i].1.code)
  }

  lemma KeysOfCons<K>(entries: Entries<K>)
    requires |entries| > 0
    ensures KeysOf(entries) == {entries[0].0} + KeysOf(entries[1..])
  {
    forall x | x in KeysOf(entries) ensures x in {entries[0].0} + KeysOf(entries[1..]) {
      var i :| 0 <= i < |entries| && entries[i].0 == x;
      if i > 0 { assert entries[1..][i - 1].0 == x; }
    }
    forall x | x in KeysOf(entries[1..]) ensures x in KeysOf(entries) {
      var i :| 0 <= i < |entries[1..]| && entries[1..][i].0 == x;
      assert entries[i + 1].0 == x;
    }
  }

  lemma CodesKnownCons<K>(entries: Entries<K>)
    requires |entries| > 0
    ensures CodesKnown(entries) <==>
      (entries[0].1.Code? ==> InCatalogue(entries[0].1.code)) && CodesKnown(entries[1..])
  {
    if (entries[0].1.Code? ==> InCatalogue(entries[0].1.code)) && CodesKnown(entries[1..]) {
      forall i | 0 <= i < |entries| && entries[i].1.Code? ensures InCatalogue(entries[i].1.code) {
        if i > 0 { assert entries[i] == entries[1..][i - 1]; }
      }
    }
    if CodesKnown(entries) {
      forall i | 0 <= i < |entries[1..]| && entries[1..][i].1.Code?
        ensures InCatalogue(entries[1..][i].1.code)
      {
        assert entries[1..][i] == entries[i + 1];
      }
    }
  }

  /** The binding of the last entry with key `k`, if any. */
  function LastBinding<K(==)>(entries: Entries<K>, k: K): (r: Option<Binding>)
    ensures r.Some? <==> k in KeysOf(entries)
    ensures r.Some? && CodesKnown(entries) && r.value.Code? ==> InCatalogue(r.value.code)
    decreases |entries|
  {
    if |entries| == 0 then None
    else
      KeysOfCons(entries);
      CodesKnownCons(entries);
      var later := LastBinding(entries[1..], k);
      if later.Some? then later
      else if entries[0].0 == k then Some(entries[0].1)
      else None
  }

  /** No two entries share a key, as in any JavaScript `Map`. */
  predicate DistinctKeys<K(==)>(entries: Entries<K>) {
    forall i, j :: 0 <= i < j < |entries| ==> entries[i].0 != entries[j].0
  }

  /** With distinct keys, the binding of an entry's key is that entry's. */
  lemma {:induction false} LastBindingAt<K>(entries: Entries<K>, i: nat)
    requires DistinctKeys(entries) && i < |entries|
    ensures LastBinding(entries, entries[i].0) == Some(entries[i].1)
    decreases i
  {
    var k := entries[i].0;
    if i > 0 {
      assert entries[1..][i - 1] == entries[i];
      LastBindingAt(entries[1..], i - 1);
    }
  }

  /** What a binding turns into in a table built over a valid cache. */
  function Resolve(b: Binding): ColorFn
    requires b.Code? ==> InCatalogue(b.code)
  {
    match b
    case Code(c) => EscapeFor(c)
    case Given(f) => f
  }

  /** `Color.mergeMaps`: every entry of `from`, in order, is written into
      `to`, a formatter verbatim and a code through `Get`. The merge throws
      exactly when some code of `from` is not catalogued, and never spoils a
      valid cache. */
  function MergeMaps<K(==)>(to: map<K, ColorFn>, from: Entries<K>, cache: Cache): (r: Resolved<map<K, ColorFn>>)
    ensures CodesKnown(from) ==> r.Got?
    ensures CacheValid(cache) ==> CacheValid(r.cache) && cache.Keys <= r.cache.Keys
    ensures CacheValid(cache) ==> (r.Got? <==> CodesKnown(from))
    decreases |from|
  {
    if |from| == 0 then Got(to, cache)
    else
      CodesKnownCons(from);
      var k := from[0].0;
      match from[0].1
      case Given(f) => MergeMaps(to[k := f], from[1..], cache)
      case Code(c) =>
        match Get(cache, c)
        case Threw(e, after) => Threw(e, after)
        case Got(f, after) => MergeMaps(to[k := f], from[1..], after)
  }

  /** A successful merge over a valid cache binds the keys of `to` and of
      `from`; a key of `from` takes its last binding there, resolved, and
      any other key keeps its value in `to`. */
  lemma {:induction false} MergeMapsContents<K>(to: map<K, ColorFn>, from: Entries<K>, cache: Cache)
    requires CacheValid(cache) && CodesKnown(from)
    ensures MergeMaps(to, from, cache).Got?
    ensures MergeMaps(to, from, cache).value.Keys == to.Keys + KeysOf(from)
    ensures forall k :: k in MergeMaps(to, from, cache).value ==>
      MergeMaps(to, from, cache).value[k]
        == (if k in KeysOf(from) then Resolve(LastBinding(from, k).value) else to[k])
    decreases |from|
  {
    if |from| > 0 {
      var k, f, after := MergeMapsStep(to, from, cache);
      MergeMapsContents(to[k := f], from[1..], after);
      KeysOfCons(from);
      var m := MergeMaps(to, from, cache).value;
      forall key | key in m
        ensures m[key] == (if key in KeysOf(from) then Resolve(LastBinding(from, key).value) else to[key])
      {
        if key in KeysOf(from) {
          LastBindingCons(from, key);
        }
      }
    }
  }

  /** One step of a successful merge: the first entry written, resolved,
      and the rest merged over the cache the step leaves. */
  lemma MergeMapsStep<K>(to: map<K, ColorFn>, from: Entries<K>, cache: Cache)
    returns (k: K, f: ColorFn, after: Cache)
    requires CacheValid(cache) && CodesKnown(from) && |from| > 0
    ensures from[0].1.Code? ==> InCatalogue(from[0].1.code)
    ensures k == from[0].0 && f == Resolve(from[0].1)
    ensures CacheValid(after) && CodesKnown(from[1..])
    ensures MergeMaps(to, from, cache) == MergeMaps(to[k := f], from[1..], after)
  {
    CodesKnownCons(from);
    k := from[0].0;
    f := Resolve(from[0].1);
    after := if from[0].1.Code? then Get(cache, from[0].1.code).cache else cache;
  }

  /** The last binding of a key: in the rest of the entries if it is bound
      there, otherwise the first entry's. */
  lemma LastBindingCons<K>(entries: Entries<K>, k: K)
    requires |entries| > 0 && k in KeysOf(entries)
    ensures LastBinding(entries, k)
      == if k in KeysOf(entries[1..]) then LastBinding(entries[1..], k) else Some(entries[0].1)
  {
    KeysOfCons(entries);
  }

  /** `Color.createFormatters`: a new table holding `defaults` (when given)
      overlaid with `entries`. It throws exactly when a code of either layer
      is not catalogued. The arguments are values, so neither is changed. */
  function CreateFormatters<K(==)>(entries: Entries<K>, defaults: Option<Entries<K>>, cache: Cache)
    : (r: Resolved<map<K, ColorFn>>)
    ensures CodesKnown(entries) && (defaults.Some? ==> CodesKnown(defaults.value)) ==> r.Got?
    ensures CacheValid(cache) ==> CacheValid(r.cache) && cache.Keys <= r.cache.Keys
    ensures CacheValid(cache) ==>
      (r.Got? <==> CodesKnown(entries) && (defaults.Some? ==> CodesKnown(defaults.value)))
  {
    var base := if defaults.Some? then MergeMaps(map[], defaults.value, cache) else Got(map[], cache);
    match base
    case Threw(e, after) => Threw(e, after)
    case Got(m, after) => MergeMaps(m, entries, after)
  }

  /** The binding of `k` in a two-layer table: the later layer wins. */
  function Overlay<K(==)>(entries: Entries<K>, defaults: Entries<K>, k: K): Binding
    requires k in KeysOf(entries) + KeysOf(defaults)
  {
    if k in KeysOf(entries) then LastBinding(entries, k).value else LastBinding(defaults, k).value
  }

  /** A table built over a valid cache has the keys of both layers; a key of
      `entries` takes its binding there and any other key its default, and a
      code becomes its escape wrapper while a formatter is kept verbatim. */
  lemma CreateFormattersContents<K>(entries: Entries<K>, defaults: Entries<K>, cache: Cache)
    requires CacheValid(cache) && CodesKnown(entries) && CodesKnown(defaults)
    ensures CreateFormatters(entries, Some(defaults), cache).Got?
    ensures CreateFormatters(entries, Some(defaults), cache).value.Keys == KeysOf(defaults) + KeysOf(entries)
    ensures forall k :: k in CreateFormatters(entries, Some(defaults), cache).value ==>
      CreateFormatters(entries, Some(defaults), cache).value[k] == Resolve(Overlay(entries, defaults, k))
  {
    MergeMapsContents(map[], defaults, cache);
    var base := MergeMaps(map[], defaults, cache);
    MergeMapsContents(base.value, entries, base.cache);
  }

  // ---------------------------------------------------------------------
  // Reading a coloured string without its escapes

  /** Length of the SGR escape at the start of `s`, or 0 if there is none. */
  function EscapeLength(s: string): (n: nat)
    ensures n <= |s|
  {
    if |s| >= 2 && s[0] == ESC && s[1] == '[' then
      var d := Run(s[2..], Digits);
      if 2 + d < |s| && s[2 + d] == 'm' then 3 + d else 0
    else 0
  }

  /** `s` with every SGR escape removed: the text a terminal shows. */
  function Strip(s: string): string
    decreases |s|
  {
    if |s| == 0 then ""
    else if EscapeLength(s) > 0 then Strip(s[EscapeLength(s)..])
    else [s[0]] + Strip(s[1..])
  }

  predicate EscapeFree(s: string) { ESC !in s }

  lemma StripEscape(e: string, s: string)
    requires IsEscape(e)
    ensures Strip(e + s) == Strip(s)
  {
    var t := e + s;
    assert t[2..][..|e| - 3] == e[2..|e| - 1];
    RunStopsAt(t[2..], Digits, |e| - 3);
    assert t[|e|..] == s;
  }

  lemma {:induction false} StripPlain(p: string, s: string)
    requires EscapeFree(p)
    ensures Strip(p + s) == p + Strip(s)
    decreases |p|
  {
    if |p| == 0 {
      assert p + s == s;
    } else {
      var t := p + s;
      assert t[0] == p[0] && t[1..] == p[1..] + s;
      assert EscapeLength(t) == 0;
      assert EscapeFree(p[1..]) by { assert forall x :: x in p[1..] ==> x in p; }
      StripPlain(p[1..], s);
    }
  }

  /** An escape-free text shows as itself. */
  lemma StripKeeps(p: string)
    requires EscapeFree(p)
    ensures Strip(p) == p
  {
    StripPlain(p, "");
    assert p + "" == p;
  }

  /** Painting escape-free text with a wrapper of escapes shows the text
      unchanged: colouring never alters what is displayed. */
  lemma StripPainted(f: ColorFn, x: string, s: string)
    requires f.Wrap? && IsEscape(f.open) && IsEscape(f.close)
    requires EscapeFree(x)
    ensures Strip(Apply(f, Some(x)) + s) == x + Strip(s)
  {
    if x != "" {
      assert Apply(f, Some(x)) + s == f.open + (x + (f.close + s));
      StripEscape(f.open, x + (f.close + s));
      StripPlain(x, f.close + s);
      StripEscape(f.close, s);
    } else {
      assert Apply(f, Some(x)) + s == s;
    }
  }
}
