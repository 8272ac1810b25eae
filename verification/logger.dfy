/**
 * Logger construction (`logger.go`) as configuration resolution: instead of
 * setting the engine's process-wide formatter, hooks and level, it returns
 * the settings it would set, together with the logger's initial fields.
 * The environment, the struct decoders and the Sentry client constructor
 * are inputs. Also the field merges of `wrapper.go`.
 */
module Loggers {
  import opened Options
  import opened Values
  import opened Levels
  import opened Hooks
  import opened FileLine
  import opened Sentry

  /** Environment variable selecting the application environment. */
  const EnvName: string := "GO_ENV"
  /** Environment variable overriding the log level. */
  const EnvLevel: string := "LOG_LEVEL"
  const DefaultLogLevel: string := "info"
  const DefaultInstance: string := "development"
  const DefaultFormat: string := "text"
  /** Go's `time.RFC1123` layout. */
  const RFC1123: string := "Mon, 02 Jan 2006 15:04:05 MST"
  /** The field key `WithError` uses. */
  const ErrorKey: string := "error"

  /** An output formatter of the engine. */
  datatype Formatter =
    | JsonFormatter(disableTimestamp: bool, timestampFormat: string)
    | TextFormatter(forceColors: bool, fullTimestamp: bool, timestampFormat: string)
    | CustomFormatter
    | SuppliedFormatter(id: nat)  // a formatter instance handed in through the configuration

  /** The logger configuration (`config.go`); `hooks` is the raw, untyped hooks setting. */
  datatype Config = Config(
    logLevel: string,
    formatterName: string,
    formatterInstance: Option<nat>,
    hooks: Value)

  /** The values of the two environment variables; "" when unset. */
  datatype Environment = Environment(goEnv: string, logLevel: string)

  /** A hook handed to the engine. */
  datatype RegisteredHook = FileLineRegistered(fileLine: FileLineHook) | SentryRegistered(sentry: SentryHook)

  /**
   * What construction sets on the engine: the formatter (None when it is
   * left as it was), the hooks it adds, in order, and the level. The output
   * is always standard output.
   */
  datatype Setup = Setup(formatter: Option<Formatter>, hooks: seq<RegisteredHook>, level: Level)

  /** A logger: its fields and the engine settings it writes through. */
  datatype Logger = Logger(fields: map<string, Value>, setup: Setup)

  /** A log call as issued: level, message, and the logger's fields at that moment. */
  datatype Entry = Entry(level: Level, message: string, fields: map<string, Value>)

  /** The library code construction calls, passed in. */
  datatype Library = Library(
    weakDecode: WeakDecoder,
    decodeFileLine: FileLineDecoder,
    decodeSentry: SentryDecoder,
    newSentryClient: ClientConstructor)

  /** The JSON formatter forced in production. */
  const ProductionFormatter: Formatter := JsonFormatter(false, RFC1123)
  /** The colored text formatter used when nothing is configured. */
  const DefaultTextFormatter: Formatter := TextFormatter(true, true, RFC1123)

  /**
   * Go's simple case folding of `c` onto the lower-case ASCII letter `t`:
   * `t` itself, its upper case, and the two non-ASCII characters that fold
   * onto ASCII letters (the long s, U+017F, and the Kelvin sign, U+212A).
   */
  predicate FoldsOnto(c: char, t: char)
  {
    c == t
    || ('a' <= t <= 'z' && c as int == t as int - 32)
    || (t == 's' && c == '\U{017F}')
    || (t == 'k' && c == '\U{212A}')
  }

  /** `strings.EqualFold(s, t)` for a lower-case ASCII `t`. */
  predicate EqualFoldLower(s: string, t: string)
  {
    |s| == |t| && forall i :: 0 <= i < |s| ==> FoldsOnto(s[i], t[i])
  }

  /**
   * The formatter choice, by priority: production forces JSON; otherwise a
   * supplied instance is used; otherwise a non-empty name selects the custom
   * formatter if it is "custom" in any case, and leaves the formatter as it
   * was if not; otherwise the colored text formatter.
   */
  function SelectFormatter(instance: string, formatter: Option<nat>, formatterName: string): (r: Option<Formatter>)
    ensures r == Some(ProductionFormatter) <==> instance == "production"
    ensures (r.Some? && r.value.SuppliedFormatter?) <==> instance != "production" && formatter.Some?
    ensures formatter.Some? && instance != "production" ==> r == Some(SuppliedFormatter(formatter.value))
    ensures r == Some(CustomFormatter) <==>
              instance != "production" && formatter.None? && EqualFoldLower(formatterName, "custom")
    ensures r.None? <==>
              instance != "production" && formatter.None? && formatterName != "" && !EqualFoldLower(formatterName, "custom")
    ensures r == Some(DefaultTextFormatter) <==> instance != "production" && formatter.None? && formatterName == ""
  {
    if instance == "production" then Some(ProductionFormatter)
    else if formatter.Some? then Some(SuppliedFormatter(formatter.value))
    else if formatterName != "" then
      if EqualFoldLower(formatterName, "custom") then Some(CustomFormatter) else None
    else Some(DefaultTextFormatter)
  }

  /** "custom" is recognised in any mixture of cases. */
  lemma CustomNameIgnoresCase()
    ensures SelectFormatter("", None, "Custom") == Some(CustomFormatter)
    ensures SelectFormatter("", None, "CUSTOM") == Some(CustomFormatter)
    ensures SelectFormatter("", None, "text") == None
  {
    assert !FoldsOnto('t', 'c');
  }

  /**
   * The level: "info" when empty, then lower-cased and parsed with Info as
   * the fallback. The result is the level the string names in any case, and
   * Info for an empty or unparsable string; construction never fails.
   */
  function ResolveLevel(logLevel: string): (r: Level)
    ensures logLevel == "" ==> r == Info
    ensures ParseLevel(logLevel).None? ==> r == Info
    ensures ParseLevel(logLevel).Some? ==> r == ParseLevel(logLevel).value
  {
    var lvl := if logLevel == "" then DefaultLogLevel else logLevel;
    ParseIgnoresCase(lvl);
    LevelByString(Lower(lvl), Info)
  }

  /** Every level's name, in any case, resolves to that level. */
  lemma ResolveLevelName(l: Level, s: string)
    requires Lower(s) == Name(l)
    ensures ResolveLevel(s) == l
  {
    ParseName(l);
    ParseIgnoresCase(s);
  }

  /** An unknown level such as "verbose" resolves to Info. */
  lemma ResolveLevelUnknown()
    ensures ResolveLevel("verbose") == Info
  {
    var v := "verbose";
    assert Lower(v) == v by {
      assert forall i :: 0 <= i < |v| ==> LowerChar(v[i]) == v[i];
    }
  }

  /** `order` lists each key of `keys` exactly once: a Go map's iteration order. */
  predicate IsEnumeration(order: seq<string>, keys: set<string>)
  {
    && (forall i :: 0 <= i < |order| ==> order[i] in keys)
    && (forall k :: k in keys ==> k in order)
    && (forall i, j :: 0 <= i < j < |order| ==> order[i] != order[j])
  }

  /** A sequence without repetitions has as many distinct elements as entries. */
  lemma {:induction false} DistinctCardinality(order: seq<string>)
    requires forall i, j :: 0 <= i < j < |order| ==> order[i] != order[j]
    ensures |set x | x in order| == |order|
    decreases |order|
  {
    if order != [] {
      var rest := order[1..];
      DistinctCardinality(rest);
      assert (set x | x in order) == {order[0]} + (set x | x in rest);
      assert order[0] !in (set x | x in rest);
    }
  }

  /**
   * Normalises the hooks setting: a `[]interface{}` through `listToHooks`;
   * a `map[string]interface{}` into one descriptor per key, taken in the
   * map's iteration order `order`; anything else, nil included, into none.
   */
  function NormaliseHooks(hooks: Value, order: seq<string>, decode: WeakDecoder): (r: seq<Hook>)
    requires hooks.StrMap? ==> IsEnumeration(order, hooks.fields.Keys)
    ensures hooks.List? ==> r == ListToHooks(hooks.items, decode)
    ensures hooks.StrMap? ==> |r| == |hooks.fields|
    ensures hooks.StrMap? ==>
              (set h | h in r) == (set k | k in hooks.fields :: Hook(k, hooks.fields[k]))
    ensures !hooks.List? && !hooks.StrMap? ==> r == []
  {
    match hooks
    case List(items) => ListToHooks(items, decode)
    case StrMap(m) =>
      var r := seq(|order|, i requires 0 <= i < |order| => Hook(order[i], m[order[i]]));
      DistinctCardinality(order);
      assert (set x | x in order) == m.Keys;
      assert (set h | h in r) == (set k | k in m :: Hook(k, m[k])) by {
        forall k | k in m
          ensures Hook(k, m[k]) in r
        {
          var i :| 0 <= i < |order| && order[i] == k;
          assert r[i] == Hook(k, m[k]);
        }
      }
      r
    case _ => []
  }

  /** Map-shaped hooks: the descriptors do not depend on the iteration order. */
  lemma NormaliseHooksOrderIrrelevant(m: map<string, Value>, o1: seq<string>, o2: seq<string>, decode: WeakDecoder)
    requires IsEnumeration(o1, m.Keys) && IsEnumeration(o2, m.Keys)
    ensures (set h | h in NormaliseHooks(StrMap(m), o1, decode)) == (set h | h in NormaliseHooks(StrMap(m), o2, decode))
  {
  }

  /**
   * Dispatch of one descriptor by name: "filename_line" and "sentry" go to
   * their factories and yield a hook exactly when the factory does; any
   * other name yields none.
   */
  function Dispatch(h: Hook, lib: Library): (r: Option<RegisteredHook>)
    ensures h.name != FileLineHookName && h.name != SentryHookName ==> r.None?
    ensures h.name == FileLineHookName ==>
              r == (match GetFileLineHook(h.settings, lib.decodeFileLine)
                    case Some(f) => Some(FileLineRegistered(f))
                    case None => None)
    ensures h.name == SentryHookName ==>
              r == (match GetSentryHook(h.settings, lib.decodeSentry, lib.newSentryClient)
                    case Some(s) => Some(SentryRegistered(s))
                    case None => None)
  {
    if h.name == FileLineHookName then
      match GetFileLineHook(h.settings, lib.decodeFileLine)
      case Some(f) => Some(FileLineRegistered(f))
      case None => None
    else if h.name == SentryHookName then
      match GetSentryHook(h.settings, lib.decodeSentry, lib.newSentryClient)
      case Some(s) => Some(SentryRegistered(s))
      case None => None
    else None
  }

  /**
   * The registration loop: the hooks registered for a descriptor list, in
   * order. Every registered hook is what `Dispatch` yields for one of the
   * descriptors (the order is stated by `RegisterHooksAppend`).
   */
  function RegisterHooks(hooks: seq<Hook>, lib: Library): (r: seq<RegisteredHook>)
    ensures |r| <= |hooks|
    ensures forall i :: 0 <= i < |r| ==> exists j :: 0 <= j < |hooks| && Dispatch(hooks[j], lib) == Some(r[i])
  {
    if hooks == [] then []
    else
      (match Dispatch(hooks[0], lib) case Some(x) => [x] case None => []) + RegisterHooks(hooks[1..], lib)
  }

  /**
   * Dispatch with the factories as written: a factory that dereferences a
   * nil settings pointer panics, and the panic aborts construction.
   */
  function DispatchAsWritten(h: Hook, lib: Library): (r: Built<RegisteredHook>)
    ensures h.name != FileLineHookName && h.name != SentryHookName ==> r == Returned(None)
    ensures h.name == FileLineHookName ==>
              (r.NilPointerPanic? <==> GetFileLineHookAsWritten(h.settings, lib.decodeFileLine).NilPointerPanic?)
    ensures h.name == SentryHookName ==>
              (r.NilPointerPanic? <==> GetSentryHookAsWritten(h.settings, lib.decodeSentry, lib.newSentryClient).NilPointerPanic?)
    ensures r.Returned? ==> r.hook == Dispatch(h, lib)
  {
    if h.name == FileLineHookName then
      match GetFileLineHookAsWritten(h.settings, lib.decodeFileLine)
      case NilPointerPanic => NilPointerPanic
      case Returned(Some(f)) => Returned(Some(FileLineRegistered(f)))
      case Returned(None) => Returned(None)
    else if h.name == SentryHookName then
      match GetSentryHookAsWritten(h.settings, lib.decodeSentry, lib.newSentryClient)
      case NilPointerPanic => NilPointerPanic
      case Returned(Some(x)) => Returned(Some(SentryRegistered(x)))
      case Returned(None) => Returned(None)
    else Returned(None)
  }

  /**
   * The registration loop as written: None when some descriptor's factory
   * panics, and otherwise exactly the hooks the corrected loop registers.
   */
  function RegisterHooksAsWritten(hooks: seq<Hook>, lib: Library): (r: Option<seq<RegisteredHook>>)
    ensures r.None? <==> exists j :: 0 <= j < |hooks| && DispatchAsWritten(hooks[j], lib).NilPointerPanic?
    ensures r.Some? ==> r.value == RegisterHooks(hooks, lib)
  {
    if hooks == [] then Some([])
    else
      match DispatchAsWritten(hooks[0], lib)
      case NilPointerPanic => None
      case Returned(x) =>
        match RegisterHooksAsWritten(hooks[1..], lib)
        case None =>
          assert forall j :: 0 <= j < |hooks| - 1 ==> hooks[1..][j] == hooks[j + 1];
          None
        case Some(rest) =>
          assert forall j :: 1 <= j < |hooks| ==> hooks[j] == hooks[1..][j - 1];
          Some((match x case Some(y) => [y] case None => []) + rest)
  }

  /**
   * A "filename_line" descriptor without settings: the code as written
   * panics during construction, where the corrected loop registers a hook
   * keyed "where".
   */
  lemma NilFileLineSettingsAbort(lib: Library)
    requires lib.decodeFileLine(Nil) == DecodedNil
    ensures RegisterHooksAsWritten([Hook(FileLineHookName, Nil)], lib) == None
    ensures RegisterHooks([Hook(FileLineHookName, Nil)], lib)
            == [FileLineRegistered(FileLineHook(DefaultFileNameLineKey))]
  {
    var h := Hook(FileLineHookName, Nil);
    assert DispatchAsWritten(h, lib).NilPointerPanic?;
    assert [h][1..] == [];
  }

  /** Registration of a concatenation registers each part in turn. */
  lemma {:induction false} RegisterHooksAppend(a: seq<Hook>, b: seq<Hook>, lib: Library)
    ensures RegisterHooks(a + b, lib) == RegisterHooks(a, lib) + RegisterHooks(b, lib)
    decreases |a|
  {
    if a == [] {
      assert a + b == b;
    } else {
      assert (a + b)[0] == a[0];
      assert (a + b)[1..] == a[1..] + b;
      RegisterHooksAppend(a[1..], b, lib);
    }
  }

  /** A descriptor is registered exactly when its factory returns a hook. */
  lemma RegisterOne(h: Hook, lib: Library)
    ensures |RegisterHooks([h], lib)| == 1 <==> Dispatch(h, lib).Some?
    ensures Dispatch(h, lib).Some? ==> RegisterHooks([h], lib) == [Dispatch(h, lib).value]
  {
    assert [h][1..] == [];
  }

  /** Descriptors with unknown names are all skipped. */
  lemma {:induction false} UnknownNamesSkipped(hooks: seq<Hook>, lib: Library)
    requires forall i :: 0 <= i < |hooks| ==> hooks[i].name != FileLineHookName && hooks[i].name != SentryHookName
    ensures RegisterHooks(hooks, lib) == []
    decreases |hooks|
  {
    if hooks != [] {
      UnknownNamesSkipped(hooks[1..], lib);
    }
  }

  /**
   * `newWithSettings`: formatter, hooks and level resolved as above, and
   * the base fields as the logger's fields, with the corrected hook
   * factories; `NewWithSettingsAsWritten` is the construction as written.
   */
  function NewWithSettings(
    instance: string, logLevel: string, formatter: Option<nat>, formatterName: string,
    baseFields: map<string, Value>, hooks: Value, order: seq<string>, lib: Library): (r: Logger)
    requires hooks.StrMap? ==> IsEnumeration(order, hooks.fields.Keys)
    ensures r.fields == baseFields
    ensures r.setup.formatter == SelectFormatter(instance, formatter, formatterName)
    ensures r.setup.hooks == RegisterHooks(NormaliseHooks(hooks, order, lib.weakDecode), lib)
    ensures r.setup.level == ResolveLevel(logLevel)
  {
    var setup := Setup(
      SelectFormatter(instance, formatter, formatterName),
      RegisterHooks(NormaliseHooks(hooks, order, lib.weakDecode), lib),
      ResolveLevel(logLevel));
    Logger(baseFields, setup)
  }

  /**
   * `newWithSettings` with the factories as written: no logger when a hook
   * factory panics; otherwise the logger of the corrected construction.
   */
  function NewWithSettingsAsWritten(
    instance: string, logLevel: string, formatter: Option<nat>, formatterName: string,
    baseFields: map<string, Value>, hooks: Value, order: seq<string>, lib: Library): (r: Option<Logger>)
    requires hooks.StrMap? ==> IsEnumeration(order, hooks.fields.Keys)
    ensures r.None? <==> RegisterHooksAsWritten(NormaliseHooks(hooks, order, lib.weakDecode), lib).None?
    ensures r.Some? ==> r.value == NewWithSettings(instance, logLevel, formatter, formatterName, baseFields, hooks, order, lib)
  {
    match RegisterHooksAsWritten(NormaliseHooks(hooks, order, lib.weakDecode), lib)
    case None => None
    case Some(_) => Some(NewWithSettings(instance, logLevel, formatter, formatterName, baseFields, hooks, order, lib))
  }

  /** The base fields as field values. */
  function CopyFields(baseFields: map<string, string>): (r: map<string, Value>)
    ensures r.Keys == baseFields.Keys
    ensures forall k :: k in baseFields ==> r[k] == Str(baseFields[k])
  {
    map k | k in baseFields :: Str(baseFields[k])
  }

  /**
   * `New`: a non-empty LOG_LEVEL replaces the configured level, an empty
   * one leaves it; GO_ENV selects the environment; every base field is
   * copied unchanged into the logger's fields.
   */
  function New(conf: Config, baseFields: map<string, string>, env: Environment, order: seq<string>, lib: Library): (r: Logger)
    requires conf.hooks.StrMap? ==> IsEnumeration(order, conf.hooks.fields.Keys)
    ensures r.fields.Keys == baseFields.Keys
    ensures forall k :: k in baseFields ==> r.fields[k] == Str(baseFields[k])
    ensures env.logLevel != "" ==> r.setup.level == ResolveLevel(env.logLevel)
    ensures env.logLevel == "" ==> r.setup.level == ResolveLevel(conf.logLevel)
    ensures r.setup.formatter == SelectFormatter(env.goEnv, conf.formatterInstance, conf.formatterName)
    ensures r.setup.hooks == RegisterHooks(NormaliseHooks(conf.hooks, order, lib.weakDecode), lib)
  {
    var logLevel := if env.logLevel != "" then env.logLevel else conf.logLevel;
    NewWithSettings(env.goEnv, logLevel, conf.formatterInstance, conf.formatterName,
                    CopyFields(baseFields), conf.hooks, order, lib)
  }

  /**
   * `WithFields`: a logger whose fields are the receiver's overridden and
   * extended by `fields`, writing through the same settings; the receiver,
   * a value, is unchanged. ASSUMPTION: this is the engine's field merge.
   */
  function WithFields(l: Logger, fields: map<string, Value>): (r: Logger)
    ensures r.setup == l.setup
    ensures r.fields.Keys == l.fields.Keys + fields.Keys
    ensures forall k :: k in fields ==> r.fields[k] == fields[k]
    ensures forall k :: k in l.fields && k !in fields ==> r.fields[k] == l.fields[k]
  {
    l.(fields := l.fields + fields)
  }

  /** `WithField`: the one-field merge. */
  function WithField(l: Logger, key: string, value: Value): (r: Logger)
    ensures r == WithFields(l, map[key := value])
    ensures r.setup == l.setup && r.fields.Keys == l.fields.Keys + {key} && r.fields[key] == value
    ensures forall k :: k in l.fields && k != key ==> r.fields[k] == l.fields[k]
  {
    l.(fields := l.fields[key := value])
  }

  /** `WithError`: the error under the "error" key; the error is represented by its message. */
  function WithError(l: Logger, message: string): (r: Logger)
    ensures r == WithField(l, ErrorKey, ErrorVal(message))
    ensures r.fields.Keys == l.fields.Keys + {ErrorKey} && r.fields[ErrorKey] == ErrorVal(message)
  {
    l.(fields := l.fields[ErrorKey := ErrorVal(message)])
  }

  /** A formatted log call (`Infof`, `Warnf`, `Errorf`, ...) with a format that takes no arguments. */
  function Logf(l: Logger, level: Level, format: string): (e: Entry)
    ensures e.level == level && e.message == format && e.fields == l.fields
  {
    Entry(level, format, l.fields)
  }
}
