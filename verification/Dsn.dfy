/** DSNs: ParseDSN of driver/dsn.go.  It visits a Go map, whose order is not fixed. */
module Dsn {
  import opened Wrappers
  import TimeInteger
  import TimeText

  type TimeFormat = TimeText.TimeFormat
  type IntegerTimeFormat = TimeInteger.IntegerTimeFormat

  type Query = map<string, seq<string>>

  datatype TxLock = Immediate | Deferred | Exclusive

  /** The part of Config that driver parameters set; locations are known by name. */
  datatype Config = Config(
    loc: string, timeFormat: TimeFormat, integerTime: IntegerTimeFormat, foreignKeys: bool, txLock: TxLock)

  const DEFAULTS := Config("UTC", TimeText.FormatOffset, TimeInteger.NoFormat, true, Immediate)

  /** What the Go library knows: url.ParseQuery, and the zones in time.LoadLocation's database. */
  datatype Library = Library(parse: string -> Option<Query>, zone: string -> bool)

  function Get(q: Query, key: string): string {
    if key in q && q[key] != [] then q[key][0] else ""
  }

  predicate DriverKey(key: string) { key != "" && key[0] == '_' }

  predicate IsAuto(v: string) {
    |v| == 4 && (v[0] == 'a' || v[0] == 'A') && (v[1] == 'u' || v[1] == 'U') && (v[2] == 't' || v[2] == 'T')
    && (v[3] == 'o' || v[3] == 'O')
  }

  /** strconv.ParseBool */
  function ParseBool(v: string): Option<bool> {
    if v in ["1", "t", "T", "true", "TRUE", "True"] then Some(true)
    else if v in ["0", "f", "F", "false", "FALSE", "False"] then Some(false)
    else None
  }

  predicate LocKey(key: string) { key == "_loc" || key == "_timezone" }
  predicate KeysKey(key: string) { key == "_fk" || key == "_foreign_keys" }

  /** time.LoadLocation knows three names without its database. */
  predicate KnownLocation(v: string, lib: Library) { v in ["", "UTC", "Local"] || lib.zone(v) }

  /** The location a parameter names; for time.LoadLocation no name is "UTC". */
  function LocOf(v: string): string { if IsAuto(v) then "Local" else if v == "" then "UTC" else v }

  /** applyDriverParam; None is an error. */
  function Apply(c: Config, key: string, v: string, lib: Library): Option<Config> {
    if LocKey(key) then
      if IsAuto(v) || KnownLocation(v, lib) then Some(c.(loc := LocOf(v))) else None
    else if key == "_time_format" then
      if v == "offset" then Some(c.(timeFormat := TimeText.FormatOffset))
      else if v == "utc" then Some(c.(timeFormat := TimeText.FormatUTC))
      else if v == "datetime" then Some(c.(timeFormat := TimeText.FormatDatetime))
      else None
    else if key == "_time_integer_format" then
      if v == "unix" then Some(c.(integerTime := TimeInteger.UnixSeconds))
      else if v == "unix_milli" then Some(c.(integerTime := TimeInteger.UnixMilli))
      else if v == "unix_micro" then Some(c.(integerTime := TimeInteger.UnixMicro))
      else if v == "unix_nano" then Some(c.(integerTime := TimeInteger.UnixNano))
      else None
    else if KeysKey(key) then
      match ParseBool(v) { case Some(b) => Some(c.(foreignKeys := b)) case None => None }
    else if key == "_txlock" then
      if v == "immediate" then Some(c.(txLock := Immediate))
      else if v == "deferred" then Some(c.(txLock := Deferred))
      else if v == "exclusive" then Some(c.(txLock := Exclusive))
      else None
    else None
  }

  /** The loop over the map, for one order of its keys. */
  function Walk(order: seq<string>, q: Query, c: Config, lib: Library): Option<Config> {
    if order == [] then Some(c)
    else if !DriverKey(order[0]) then Walk(order[1..], q, c, lib)
    else match Apply(c, order[0], Get(q, order[0]), lib)
      case None => None
      case Some(d) => Walk(order[1..], q, d, lib)
  }

  ghost predicate Visits(order: seq<string>, q: Query) {
    NoDup(order) && forall k :: k in order <==> k in q
  }

  // ---- What the parameters mean, whatever the order -------------------------------------

  predicate Valid(key: string, v: string, lib: Library) { Apply(DEFAULTS, key, v, lib).Some? }

  predicate AllValid(q: Query, lib: Library) { forall k :: k in q && DriverKey(k) ==> Valid(k, Get(q, k), lib) }

  /** Two spellings of one parameter, given together, say the same. */
  predicate AliasesAgree(q: Query) {
    && ("_loc" in q && "_timezone" in q ==> LocOf(Get(q, "_loc")) == LocOf(Get(q, "_timezone")))
    && ("_fk" in q && "_foreign_keys" in q ==> ParseBool(Get(q, "_fk")) == ParseBool(Get(q, "_foreign_keys")))
  }

  /** A parameter sets one slot of the configuration. */
  datatype Slot = LocSlot | TimeSlot | IntegerSlot | KeysSlot | LockSlot
  datatype Setting =
    | LocIs(s: string) | TimeIs(f: TimeFormat) | IntegerIs(i: IntegerTimeFormat) | KeysAre(b: bool) | LockIs(l: TxLock)

  function SlotOf(key: string): Slot {
    if LocKey(key) then LocSlot
    else if key == "_time_format" then TimeSlot
    else if key == "_time_integer_format" then IntegerSlot
    else if KeysKey(key) then KeysSlot
    else LockSlot
  }

  function At(c: Config, slot: Slot): Setting {
    match slot
    case LocSlot => LocIs(c.loc)
    case TimeSlot => TimeIs(c.timeFormat)
    case IntegerSlot => IntegerIs(c.integerTime)
    case KeysSlot => KeysAre(c.foreignKeys)
    case LockSlot => LockIs(c.txLock)
  }

  /** What a valid parameter sets its slot to. */
  function SettingOf(key: string, v: string, lib: Library): Setting {
    match Apply(DEFAULTS, key, v, lib)
    case Some(d) => At(d, SlotOf(key))
    case None => At(DEFAULTS, SlotOf(key))
  }

  /** A parameter is valid or not, and sets what it sets, whatever the settings it meets. */
  lemma ApplySets(c: Config, key: string, v: string, lib: Library, slot: Slot)
    ensures Apply(c, key, v, lib).Some? <==> Valid(key, v, lib)
    ensures Valid(key, v, lib) ==>
              At(Apply(c, key, v, lib).value, slot) ==
                if slot == SlotOf(key) then SettingOf(key, v, lib) else At(c, slot)
  {}

  lemma {:induction false} WalkFails(order: seq<string>, q: Query, c: Config, lib: Library)
    ensures Walk(order, q, c, lib).None? <==> exists k :: k in order && DriverKey(k) && !Valid(k, Get(q, k), lib)
    decreases |order|
  {
    if order != [] {
      var k := order[0];
      assert order == [k] + order[1..];
      ApplySets(c, k, Get(q, k), lib, LocSlot);
      hide Apply, Valid, DriverKey, Get;
      if !DriverKey(k) { WalkFails(order[1..], q, c, lib); }
      else if Apply(c, k, Get(q, k), lib).Some? { WalkFails(order[1..], q, Apply(c, k, Get(q, k), lib).value, lib); }
    }
  }

  predicate Sets(key: string, slot: Slot) { DriverKey(key) && SlotOf(key) == slot }

  /** Where all who set a slot set it the same, the walk leaves it so, in any order. */
  lemma {:induction false} WalkSets(order: seq<string>, q: Query, c: Config, lib: Library, slot: Slot, x: Setting)
    requires forall k :: k in order && DriverKey(k) ==> Valid(k, Get(q, k), lib)
    requires forall k :: k in order && Sets(k, slot) ==> SettingOf(k, Get(q, k), lib) == x
    ensures var w := Walk(order, q, c, lib);
            w.Some? && At(w.value, slot) == if exists k :: k in order && Sets(k, slot) then x else At(c, slot)
    decreases |order|
  {
    if order != [] {
      var k := order[0];
      assert order == [k] + order[1..];
      assert k in order && forall j :: j in order <==> j == k || j in order[1..];
      ApplySets(c, k, Get(q, k), lib, slot);
      hide Apply, Valid, SettingOf, Get, At, SlotOf, DriverKey;
      if DriverKey(k) { WalkSets(order[1..], q, Apply(c, k, Get(q, k), lib).value, lib, slot, x); }
      else { WalkSets(order[1..], q, c, lib, slot, x); }
    }
  }

  lemma {:induction false} WalkAppend(a: seq<string>, b: seq<string>, q: Query, c: Config, lib: Library)
    ensures Walk(a + b, q, c, lib) ==
              match Walk(a, q, c, lib) { case Some(d) => Walk(b, q, d, lib) case None => None }
    decreases |a|
  {
    hide Apply, DriverKey, Get;
    if a == [] {
      assert a + b == b;
    } else {
      assert (a + b)[1..] == a[1..] + b;
      if !DriverKey(a[0]) { WalkAppend(a[1..], b, q, c, lib); }
      else if Apply(c, a[0], Get(q, a[0]), lib).Some? {
        WalkAppend(a[1..], b, q, Apply(c, a[0], Get(q, a[0]), lib).value, lib);
      }
    }
  }

  lemma SameSlots(c: Config, d: Config)
    requires forall s :: At(c, s) == At(d, s)
    ensures c == d
  {
    assert At(c, LocSlot) == At(d, LocSlot) && At(c, TimeSlot) == At(d, TimeSlot);
    assert At(c, IntegerSlot) == At(d, IntegerSlot);
    assert At(c, KeysSlot) == At(d, KeysSlot) && At(c, LockSlot) == At(d, LockSlot);
  }

  /** Parameters that share a slot are spellings of the same one. */
  lemma AliasesSet(q: Query, lib: Library, j: string, k: string)
    requires j in q && k in q && DriverKey(j) && DriverKey(k) && SlotOf(j) == SlotOf(k)
    requires AllValid(q, lib) && AliasesAgree(q)
    ensures SettingOf(j, Get(q, j), lib) == SettingOf(k, Get(q, k), lib)
  {
    assert Valid(j, Get(q, j), lib) && Valid(k, Get(q, k), lib);
    hide AllValid, Get;
  }

  /** Without a conflict between two spellings every order gives the same configuration, or fails
      like every other. */
  lemma AnyOrder(q: Query, lib: Library, o: seq<string>, p: seq<string>)
    requires Visits(o, q) && Visits(p, q) && (!AllValid(q, lib) || AliasesAgree(q))
    ensures Walk(o, q, DEFAULTS, lib) == Walk(p, q, DEFAULTS, lib)
  {
    WalkFails(o, q, DEFAULTS, lib);
    WalkFails(p, q, DEFAULTS, lib);
    if AllValid(q, lib) {
      var c, d := Walk(o, q, DEFAULTS, lib), Walk(p, q, DEFAULTS, lib);
      hide Walk, AliasesAgree, Get, SettingOf, SlotOf, Valid, DriverKey;
      forall s ensures At(c.value, s) == At(d.value, s) {
        if k :| k in q && Sets(k, s) {
          forall j | j in q && Sets(j, s) ensures SettingOf(j, Get(q, j), lib) == SettingOf(k, Get(q, k), lib) {
            AliasesSet(q, lib, j, k);
          }
          WalkSets(o, q, DEFAULTS, lib, s, SettingOf(k, Get(q, k), lib));
          WalkSets(p, q, DEFAULTS, lib, s, SettingOf(k, Get(q, k), lib));
        } else {
          WalkSets(o, q, DEFAULTS, lib, s, LocIs(""));
          WalkSets(p, q, DEFAULTS, lib, s, LocIs(""));
        }
      }
      SameSlots(c.value, d.value);
    }
  }

  lemma {:induction false} SomeOrder(keys: set<string>) returns (o: seq<string>)
    ensures NoDup(o) && forall k :: k in o <==> k in keys
    decreases |keys|
  {
    if keys == {} {
      o := [];
    } else {
      var k :| k in keys;
      o := SomeOrder(keys - {k});
      o := o + [k];
    }
  }

  lemma LastWins(o: seq<string>, k: string, q: Query, lib: Library)
    requires (forall j :: j in o + [k] ==> j in q) && AllValid(q, lib) && DriverKey(k)
    ensures var w := Walk(o + [k], q, DEFAULTS, lib);
            w.Some? && At(w.value, SlotOf(k)) == SettingOf(k, Get(q, k), lib)
  {
    assert k in o + [k] && forall j :: j in o ==> j in o + [k];
    WalkFails(o, q, DEFAULTS, lib);
    WalkAppend(o, [k], q, DEFAULTS, lib);
    var c := Walk(o, q, DEFAULTS, lib).value;
    ApplySets(c, k, Get(q, k), lib, SlotOf(k));
    assert [k][1..] == [];
    hide Apply, Valid, SettingOf, Get, At, SlotOf, DriverKey;
  }

  /** Two spellings that disagree: either may come last. */
  lemma Conflict(q: Query, lib: Library, j: string, k: string)
    requires j in q && k in q && j != k && DriverKey(j) && DriverKey(k) && AllValid(q, lib) && SlotOf(j) == SlotOf(k)
    requires SettingOf(j, Get(q, j), lib) != SettingOf(k, Get(q, k), lib)
    ensures exists o, p :: Visits(o, q) && Visits(p, q) && Walk(o, q, DEFAULTS, lib) != Walk(p, q, DEFAULTS, lib)
  {
    hide Walk, SettingOf, Get, SlotOf, DriverKey, AllValid, At;
    var rest := SomeOrder(q.Keys - {j, k});
    var o, p := rest + [j] + [k], rest + [k] + [j];
    assert Visits(o, q) && Visits(p, q);
    LastWins(rest + [j], k, q, lib);
    LastWins(rest + [k], j, q, lib);
  }

  lemma Disagreement(q: Query, lib: Library) returns (j: string, k: string)
    requires AllValid(q, lib) && !AliasesAgree(q)
    ensures j in q && k in q && j != k && DriverKey(j) && DriverKey(k) && SlotOf(j) == SlotOf(k)
    ensures SettingOf(j, Get(q, j), lib) != SettingOf(k, Get(q, k), lib)
  {
    if "_loc" in q && "_timezone" in q && LocOf(Get(q, "_loc")) != LocOf(Get(q, "_timezone")) {
      j, k := "_loc", "_timezone";
    } else {
      j, k := "_fk", "_foreign_keys";
    }
    assert Valid(j, Get(q, j), lib) && Valid(k, Get(q, k), lib);
    hide AllValid, Get;
  }

  /** Parsing does not depend on the order in which the map is visited exactly when some parameter
      is invalid, or two spellings of one parameter do not disagree. */
  lemma OrderDoesNotMatter(q: Query, lib: Library)
    ensures (forall o, p :: Visits(o, q) && Visits(p, q) ==>
                              Walk(o, q, DEFAULTS, lib) == Walk(p, q, DEFAULTS, lib)) <==>
              !AllValid(q, lib) || AliasesAgree(q)
  {
    if !AllValid(q, lib) || AliasesAgree(q) {
      forall o, p | Visits(o, q) && Visits(p, q) ensures Walk(o, q, DEFAULTS, lib) == Walk(p, q, DEFAULTS, lib) {
        AnyOrder(q, lib, o, p);
      }
    } else {
      var j, k := Disagreement(q, lib);
      Conflict(q, lib, j, k);
    }
  }

  // ---- What a configuration says ------------------------------------------------------------

  /** The names of the settings: what one writes in a DSN to get them. */
  function TimeName(f: TimeFormat): string {
    match f case FormatOffset => "offset" case FormatUTC => "utc" case FormatDatetime => "datetime"
  }

  function IntegerName(f: IntegerTimeFormat): string {
    match f
    case NoFormat => "" case UnixSeconds => "unix" case UnixMilli => "unix_milli"
    case UnixMicro => "unix_micro" case UnixNano => "unix_nano"
  }

  function LockName(l: TxLock): string {
    match l case Immediate => "immediate" case Deferred => "deferred" case Exclusive => "exclusive"
  }

  /** A setting that the walk leaves is one that was there, or one that some parameter sets. */
  lemma {:induction false} WalkFrom(order: seq<string>, q: Query, c: Config, lib: Library, slot: Slot)
    requires Walk(order, q, c, lib).Some?
    ensures var d := Walk(order, q, c, lib).value;
            if exists k :: k in order && Sets(k, slot)
            then exists k :: k in order && Sets(k, slot) && Valid(k, Get(q, k), lib) &&
                             At(d, slot) == SettingOf(k, Get(q, k), lib)
            else At(d, slot) == At(c, slot)
    decreases |order|
  {
    if order != [] {
      var k := order[0];
      assert order == [k] + order[1..];
      assert k in order && forall j :: j in order <==> j == k || j in order[1..];
      ApplySets(c, k, Get(q, k), lib, slot);
      hide Apply, Valid, SettingOf, Get, At, SlotOf, DriverKey;
      if DriverKey(k) { WalkFrom(order[1..], q, Apply(c, k, Get(q, k), lib).value, lib, slot); }
      else { WalkFrom(order[1..], q, c, lib, slot); }
    }
  }

  /** A parameter and the setting it is for. */
  predicate Says(key: string, v: string, x: Setting) {
    match x
    case LocIs(s) => LocKey(key) && s == LocOf(v)
    case TimeIs(f) => key == "_time_format" && v == TimeName(f)
    case IntegerIs(i) => key == "_time_integer_format" && v == IntegerName(i)
    case KeysAre(b) => KeysKey(key) && ParseBool(v) == Some(b)
    case LockIs(l) => key == "_txlock" && v == LockName(l)
  }

  /** A valid parameter's value names its setting, and every named setting can be had. */
  lemma NamesAgree(key: string, v: string, lib: Library)
    ensures Valid(key, v, lib) ==> Says(key, v, SettingOf(key, v, lib))
    ensures forall x :: && Says(key, v, x) && (x.LocIs? ==> IsAuto(v) || KnownLocation(v, lib))
                        && x != IntegerIs(TimeInteger.NoFormat)
                        ==> Valid(key, v, lib) && SettingOf(key, v, lib) == x
  {
    hide ParseBool, IsAuto, KnownLocation, LocOf;
  }

  /** Each setting of a parsed configuration is the one that a parameter of the query names, or the
      default when none is given for it. */
  lemma ConfigSays(order: seq<string>, q: Query, lib: Library, slot: Slot)
    requires Visits(order, q) && Walk(order, q, DEFAULTS, lib).Some?
    ensures var x := At(Walk(order, q, DEFAULTS, lib).value, slot);
            if exists k :: k in q && Sets(k, slot) then exists k :: k in q && Says(k, Get(q, k), x)
            else x == match slot
                      case LocSlot => LocIs("UTC")
                      case TimeSlot => TimeIs(TimeText.FormatOffset)
                      case IntegerSlot => IntegerIs(TimeInteger.NoFormat)
                      case KeysSlot => KeysAre(true)
                      case LockSlot => LockIs(Immediate)
  {
    WalkFrom(order, q, DEFAULTS, lib, slot);
    if exists k :: k in q && Sets(k, slot) {
      var d := Walk(order, q, DEFAULTS, lib).value;
      assert exists k :: k in order && Sets(k, slot);
      var k :| k in order && Sets(k, slot) && Valid(k, Get(q, k), lib) && At(d, slot) == SettingOf(k, Get(q, k), lib);
      hide Walk, Sets, Valid, SettingOf, Says, Get, At;
      NamesAgree(k, Get(q, k), lib);
    }
  }

  // ---- The whole DSN --------------------------------------------------------------------

  /** A filename: a path and the parameters that SQLite is left to read. */
  datatype Name = Anonymous | Named(head: string, query: Query)

  datatype Parsed = Parsed(config: Config, vfs: string, name: Name, memory: bool, persistent: bool)

  function IndexOf(s: string, c: char): (i: nat)
    ensures i <= |s| && (i < |s| ==> s[i] == c) && forall j :: 0 <= j < i ==> s[j] != c
  {
    if s == "" || s[0] == c then 0 else 1 + IndexOf(s[1..], c)
  }

  predicate Prefixed(s: string, p: string) { |p| <= |s| && s[..|p|] == p }

  predicate TakesQuery(head: string) { Prefixed(head, "file:") || head == ":memory:" || head == "" }

  function Stripped(q: Query): Query { map k | k in q && !DriverKey(k) :: q[k] }

  /** Everything after the loop. */
  function Finish(c: Config, head: string, q: Query): Option<Parsed> {
    var vfs := Get(q, "vfs");
    if Get(q, "cache") != "" then None
    else if vfs == "memdb" then Some(Parsed(c, vfs, Named(head, q), true, false))
    else if head == "file::memory:" || head == ":memory:" || Get(q, "mode") == "memory" then
      Some(Parsed(c, "memdb", Anonymous, true, false))
    else Some(Parsed(c, vfs, Named(head, q), false, head != "file:" && head != ""))
  }

  /** ParseDSN, the order of its map being `order`. */
  function ParseDSN(dsn: string, order: seq<string>, lib: Library): Option<Parsed> {
    var cut := IndexOf(dsn, '?');
    var head := dsn[..cut];
    if !TakesQuery(head) || cut == |dsn| then Finish(DEFAULTS, dsn, map[])
    else match lib.parse(dsn[cut + 1..])
      case None => None
      case Some(q) =>
        match Walk(order, q, DEFAULTS, lib)
        case None => None
        case Some(c) => Finish(c, head, Stripped(q))
  }

  lemma FinishKeeps(c: Config, head: string, q: Query)
    ensures var r := Finish(c, head, q); r.Some? && r.value.name.Named? ==> r.value.name == Named(head, q)
  {
    hide Get;
  }

  /** In the filename of a DSN that takes parameters no driver parameter is left, and every other
      one is, as it was given. */
  lemma NothingLeaks(dsn: string, order: seq<string>, lib: Library, query: Query)
    requires TakesQuery(dsn[..IndexOf(dsn, '?')]) && IndexOf(dsn, '?') < |dsn|
    requires lib.parse(dsn[IndexOf(dsn, '?') + 1..]) == Some(query)
    ensures var r := ParseDSN(dsn, order, lib);
            r.Some? && r.value.name.Named? ==>
              && (forall k :: k in r.value.name.query <==> k in query && !DriverKey(k))
              && (forall k :: k in r.value.name.query ==> r.value.name.query[k] == query[k])
  {
    hide Walk, DriverKey, Finish, TakesQuery, IndexOf;
    if c :| Walk(order, query, DEFAULTS, lib) == Some(c) {
      FinishKeeps(c, dsn[..IndexOf(dsn, '?')], Stripped(query));
    }
  }

  lemma StrippedGet(q: Query, key: string)
    requires !DriverKey(key)
    ensures Get(Stripped(q), key) == Get(q, key)
  {}

  /** The part of a DSN before its query, and the query; a plain path has none. */
  predicate Parts(dsn: string, lib: Library, head: string, query: Query) {
    var cut := IndexOf(dsn, '?');
    if !TakesQuery(dsn[..cut]) || cut == |dsn| then head == dsn && query == map[]
    else head == dsn[..cut] && lib.parse(dsn[cut + 1..]) == Some(query)
  }

  /** A plain path, even one with a question mark, is a file's name as it stands. */
  lemma PlainPath(dsn: string, order: seq<string>, lib: Library)
    requires dsn != "" && dsn[0] != '?' && (|dsn| < 5 || dsn[..5] != "file:")
    requires |dsn| < 8 || dsn[..8] != ":memory:" || (|dsn| > 8 && dsn[8] != '?')
    ensures ParseDSN(dsn, order, lib) == Some(Parsed(DEFAULTS, "", Named(dsn, map[]), false, true))
  {
    var cut := IndexOf(dsn, '?');
    assert dsn[..cut] != "" && dsn[..cut] != ":memory:" by { if cut == 8 { assert dsn[..cut] == dsn[..8]; } }
    assert !Prefixed(dsn[..cut], "file:") by { if cut >= 5 { assert dsn[..cut][..5] == dsn[..5]; } }
    hide Walk, IndexOf;
  }

  /** The names of a memory database, the empty name and every file: URI take parameters. */
  lemma TakesParameters(rest: string, path: string)
    requires '?' !in path
    ensures forall head :: head in [":memory:", "", "file:" + path] ==>
              IndexOf(head + ['?'] + rest, '?') == |head| && TakesQuery(head)
  {
    forall head | head in [":memory:", "", "file:" + path]
      ensures IndexOf(head + ['?'] + rest, '?') == |head| && TakesQuery(head)
    {
      var s := head + ['?'] + rest;
      assert '?' !in head && s[..|head|] == head && s[|head|] == '?';
      assert forall j :: 0 <= j < |head| ==> s[j] == head[j] && head[j] in head;
      if head == "file:" + path { assert head[..5] == "file:"; }
    }
  }

  /** strconv.ParseBool and strings.EqualFold("auto"), by what they accept. */
  lemma Spellings(v: string)
    ensures ParseBool(v) == Some(true) <==> v in {"1", "t", "T", "true", "TRUE", "True"}
    ensures ParseBool(v) == Some(false) <==> v in {"0", "f", "F", "false", "FALSE", "False"}
    ensures v in {"auto", "Auto", "AUTO"} ==> IsAuto(v)
    ensures IsAuto(v) ==> |v| == 4
  {}

  /** Where a parsed DSN leads: a shared cache is refused; a database is in memory if the VFS, the name or
      the mode says so, and then always in memdb; it persists if it is a named file. */
  lemma ParsedSays(dsn: string, order: seq<string>, lib: Library, head: string, query: Query)
    requires Parts(dsn, lib, head, query) && ParseDSN(dsn, order, lib).Some?
    ensures var p := ParseDSN(dsn, order, lib).value;
            && Get(query, "cache") == ""
            && (p.memory <==>
                  || Get(query, "vfs") == "memdb" || head in ["file::memory:", ":memory:"]
                  || Get(query, "mode") == "memory")
            && (p.name.Anonymous? <==> p.memory && Get(query, "vfs") != "memdb")
            && p.vfs == (if p.memory then "memdb" else Get(query, "vfs"))
            && (p.persistent <==> !p.memory && head != "file:" && head != "")
  {
    StrippedGet(query, "cache");
    StrippedGet(query, "vfs");
    StrippedGet(query, "mode");
    hide Walk, TakesQuery, Get, Stripped;
  }

  /** The loop and the deletions of ParseDSN, and applyDriverParam on the Config in place. */
  class Parser {
    var config: Config
    var q: Query

    constructor (q: Query)
      ensures config == DEFAULTS && this.q == q
    {
      config, this.q := DEFAULTS, q;
    }

    method ApplyDriverParam(key: string, v: string, lib: Library) returns (ok: bool)
      modifies this`config
      ensures var r := Apply(old(config), key, v, lib); ok == r.Some? && config == if ok then r.value else old(config)
    {
      if key == "_loc" || key == "_timezone" {
        if IsAuto(v) { config := config.(loc := "Local"); return true; }
        if !KnownLocation(v, lib) { return false; }
        config := config.(loc := LocOf(v));
      } else if key == "_time_format" {
        match v
        case "offset" => config := config.(timeFormat := TimeText.FormatOffset);
        case "utc" => config := config.(timeFormat := TimeText.FormatUTC);
        case "datetime" => config := config.(timeFormat := TimeText.FormatDatetime);
        case _ => return false;
      } else if key == "_time_integer_format" {
        match v
        case "unix" => config := config.(integerTime := TimeInteger.UnixSeconds);
        case "unix_milli" => config := config.(integerTime := TimeInteger.UnixMilli);
        case "unix_micro" => config := config.(integerTime := TimeInteger.UnixMicro);
        case "unix_nano" => config := config.(integerTime := TimeInteger.UnixNano);
        case _ => return false;
      } else if key == "_fk" || key == "_foreign_keys" {
        var b := ParseBool(v);
        if b.None? { return false; }
        config := config.(foreignKeys := b.value);
      } else if key == "_txlock" {
        match v
        case "immediate" => config := config.(txLock := Immediate);
        case "deferred" => config := config.(txLock := Deferred);
        case "exclusive" => config := config.(txLock := Exclusive);
        case _ => return false;
      } else {
        return false;
      }
      ok := true;
    }

    /** The loop; each key's parameter is deleted once it is applied. */
    method TakeParams(order: seq<string>, lib: Library) returns (ok: bool)
      requires Visits(order, q)
      modifies this
      ensures var r := Walk(order, old(q), old(config), lib);
              ok == r.Some? && (ok ==> config == r.value && q == Stripped(old(q)))
    {
      hide Apply, Get, DriverKey, Walk;
      var i := 0;
      assert order[0..] == order;
      while i < |order|
        invariant 0 <= i <= |order|
        invariant Walk(order, old(q), old(config), lib) == Walk(order[i..], old(q), config, lib)
        invariant forall k :: k in q <==> k in old(q) && !(DriverKey(k) && k in order[..i])
        invariant forall k :: k in q ==> q[k] == old(q)[k]
      {
        var key := order[i];
        assert key in order && key !in order[..i] && order[..i + 1] == order[..i] + [key];
        WalkOne(order, i, old(q), config, lib);
        GetSame(q, old(q), key);
        if DriverKey(key) {
          ok := ApplyDriverParam(key, Get(q, key), lib);
          if !ok { return; }
          q := q - {key};
        }
        i := i + 1;
      }
      assert order[..i] == order && order[i..] == [];
      WalkDone(old(q), config, lib);
      assert q == Stripped(old(q));
      ok := true;
    }
  }

  lemma WalkDone(q: Query, c: Config, lib: Library)
    ensures Walk([], q, c, lib) == Some(c)
  {}

  lemma WalkOne(order: seq<string>, i: nat, q: Query, c: Config, lib: Library)
    requires i < |order|
    ensures var key := order[i];
            Walk(order[i..], q, c, lib) ==
              if !DriverKey(key) then Walk(order[i + 1..], q, c, lib)
              else match Apply(c, key, Get(q, key), lib)
                case None => None
                case Some(d) => Walk(order[i + 1..], q, d, lib)
  {
    assert order[i..][1..] == order[i + 1..];
    hide Apply, Get, DriverKey;
  }

  lemma GetSame(q: Query, r: Query, key: string)
    requires key in q && key in r && q[key] == r[key]
    ensures Get(q, key) == Get(r, key)
  {}
}
