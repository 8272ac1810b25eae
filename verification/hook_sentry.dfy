/**
 * The error-reporting (Sentry) hook's settings resolution
 * (`hook_sentry.go`): opt-in by DSN, defaulting, the list of levels the
 * hook fires on, the timeout conversion and the stack-trace overlay. The
 * network client and its send path are outside this model; whether the
 * client constructor accepts its arguments is an input.
 */
module Sentry {
  import opened Options
  import opened Values
  import opened Levels

  /** The hook's name in the hook configuration. */
  const SentryHookName: string := "sentry"
  /** Minimum level when none is configured. */
  const DefaultHookLevel: string := "error"

  /** Stack-trace defaults. */
  const DefaultStacktraceLevel: Level := Error
  const DefaultStackTraceEnable: bool := false
  const DefaultStacktraceContext: int := 3
  const DefaultStacktraceIncludeErrorBreadcrumb: bool := true
  const DefaultStacktraceSendExceptionType: bool := true
  const DefaultStacktraceSkip: int := 6
  const DefaultStacktraceSwitchExceptionTypeAndMessage: bool := true

  /** Nanoseconds per second (`time.Second`). */
  const NanosPerSecond: int := 1_000_000_000

  /** Go's 64-bit signed integers (`int`, `time.Duration`). */
  newtype Int64 = x: int | -0x8000_0000_0000_0000 <= x < 0x8000_0000_0000_0000

  /** The optional `stacktrace_settings`: each option is nil (None) or set. */
  datatype StackTraceSettings = StackTraceSettings(
    enable: Option<bool>,
    context: Option<Int64>,
    includeErrorBreadcrumb: Option<bool>,
    sendExceptionType: Option<bool>,
    skip: Option<Int64>,
    switchExceptionTypeAndMessage: Option<bool>)

  /** The decoded hook settings; `tags` is None when the map is nil. */
  datatype SentryHookConfig = SentryHookConfig(
    dsn: string,
    level: string,
    tags: Option<map<string, string>>,
    timeout: Int64,
    stackTraceSettings: Option<StackTraceSettings>)

  /** The stack-trace policy the hook is configured with. */
  datatype StacktraceConfiguration = StacktraceConfiguration(
    level: Level,
    enable: bool,
    context: int,
    includeErrorBreadcrumb: bool,
    sendExceptionType: bool,
    skip: int,
    switchExceptionTypeAndMessage: bool)

  /** The resolved hook: what the client was built from, plus the settings applied afterwards. */
  datatype SentryHook = SentryHook(
    dsn: string,
    tags: map<string, string>,
    levels: seq<Level>,
    timeout: Int64,
    stacktrace: StacktraceConfiguration)

  /** The struct decoder (mapstructure's `Decode`) into a `*SentryHookConfig`, passed in. */
  type SentryDecoder = Value -> Decoded<SentryHookConfig>

  /**
   * Whether the external client constructor (`NewWithTagsSentryHook`)
   * succeeds for a DSN, tags and level list; passed in.
   */
  type ClientConstructor = (string, map<string, string>, seq<Level>) -> bool

  /** The stack-trace defaults. */
  const DefaultStacktrace: StacktraceConfiguration := StacktraceConfiguration(
    DefaultStacktraceLevel, DefaultStackTraceEnable, DefaultStacktraceContext,
    DefaultStacktraceIncludeErrorBreadcrumb, DefaultStacktraceSendExceptionType,
    DefaultStacktraceSkip, DefaultStacktraceSwitchExceptionTypeAndMessage)

  /** The levels from `n` down to Panic, one step at a time. */
  function Descending(n: nat): (r: seq<Level>)
    requires n <= 6
    ensures |r| == n + 1
    ensures forall k :: 0 <= k < |r| ==> Ord(r[k]) == n - k
  {
    if n == 0 then [Panic] else [FromOrd(n)] + Descending(n - 1)
  }

  /**
   * `getlogrusLevels`: the configured level, parsed with Error as the
   * fallback, followed by every more severe level down to Panic.
   */
  function GetLogrusLevels(lvl: string): (r: seq<Level>)
    ensures var p := LevelByString(lvl, DefaultStacktraceLevel);
      && |r| == Ord(p) + 1
      && r[0] == p
      && r[|r| - 1] == Panic
      && (forall k :: 0 < k < |r| ==> Ord(r[k]) == Ord(r[k - 1]) - 1)
  {
    var p := LevelByString(lvl, DefaultStacktraceLevel);
    var r := Descending(Ord(p));
    assert Ord(r[0]) == Ord(p);
    r
  }

  /** The hook fires on a level exactly when it is at least as severe as the configured one. */
  lemma GetLogrusLevelsMembership(lvl: string, l: Level)
    ensures l in GetLogrusLevels(lvl) <==> Ord(l) <= Ord(LevelByString(lvl, DefaultStacktraceLevel))
  {
    var r := GetLogrusLevels(lvl);
    var p := LevelByString(lvl, DefaultStacktraceLevel);
    if Ord(l) <= Ord(p) {
      var k := Ord(p) - Ord(l);
      DescendingFromFirst(r, k);
      OrdInjective(r[k]);
      OrdInjective(l);
    }
  }

  /** In a list that descends by one, the k-th entry is k below the first. */
  lemma {:induction false} DescendingFromFirst(r: seq<Level>, k: nat)
    requires forall j :: 0 < j < |r| ==> Ord(r[j]) == Ord(r[j - 1]) - 1
    requires k < |r|
    ensures Ord(r[k]) == Ord(r[0]) - k
    decreases k
  {
    if k > 0 {
      DescendingFromFirst(r, k - 1);
    }
  }

  /** A level is determined by its numeric value. */
  lemma OrdInjective(l: Level)
    ensures FromOrd(Ord(l)) == l
  {
  }

  /** An unparsable level gives exactly Error, Fatal, Panic. */
  lemma GetLogrusLevelsUnparsable(lvl: string)
    requires ParseLevel(lvl).None?
    ensures GetLogrusLevels(lvl) == [Error, Fatal, Panic]
  {
    var r := GetLogrusLevels(lvl);
    assert |r| == 3;
    DescendingFromFirst(r, 1);
    DescendingFromFirst(r, 2);
    OrdInjective(r[1]);
    OrdInjective(r[2]);
  }

  /** Go's wrap-around of a signed 64-bit result. */
  function WrapInt64(x: int): Int64
  {
    (((x + 0x8000_0000_0000_0000) % 0x1_0000_0000_0000_0000) - 0x8000_0000_0000_0000) as Int64
  }

  /**
   * `time.Duration(seconds) * time.Second`: the product in nanoseconds,
   * wrapped to 64 bits; exact whenever it fits, which is whenever the
   * number of seconds is at most 9223372036 in magnitude.
   */
  function TimeoutNanos(seconds: Int64): (r: Int64)
    ensures -9_223_372_036 <= seconds <= 9_223_372_036 ==> r as int == seconds as int * NanosPerSecond
    ensures (r as int - seconds as int * NanosPerSecond) % 0x1_0000_0000_0000_0000 == 0
  {
    WrapInt64(seconds as int * NanosPerSecond)
  }

  /** A timeout past that bound wraps round to a negative duration. */
  lemma TimeoutWraps()
    ensures TimeoutNanos(9_223_372_037) < 0
  {
  }

  /**
   * The stack-trace policy: the defaults, and when `stacktrace_settings` is
   * present, the level parsed from the hook level (Error as the fallback)
   * and every option that is set in place of its default.
   */
  function StackTrace(level: string, settings: Option<StackTraceSettings>): (r: StacktraceConfiguration)
    ensures settings.None? ==> r == DefaultStacktrace
    ensures settings.Some? ==> r.level == LevelByString(level, DefaultStacktraceLevel)
    ensures settings.Some? ==>
      var s := settings.value;
      && (s.enable.Some? ==> r.enable == s.enable.value)
      && (s.enable.None? ==> r.enable == DefaultStackTraceEnable)
      && (s.context.Some? ==> r.context == s.context.value as int)
      && (s.context.None? ==> r.context == DefaultStacktraceContext)
      && (s.includeErrorBreadcrumb.Some? ==> r.includeErrorBreadcrumb == s.includeErrorBreadcrumb.value)
      && (s.includeErrorBreadcrumb.None? ==> r.includeErrorBreadcrumb == DefaultStacktraceIncludeErrorBreadcrumb)
      && (s.sendExceptionType.Some? ==> r.sendExceptionType == s.sendExceptionType.value)
      && (s.sendExceptionType.None? ==> r.sendExceptionType == DefaultStacktraceSendExceptionType)
      && (s.skip.Some? ==> r.skip == s.skip.value as int)
      && (s.skip.None? ==> r.skip == DefaultStacktraceSkip)
      && (s.switchExceptionTypeAndMessage.Some? ==>
            r.switchExceptionTypeAndMessage == s.switchExceptionTypeAndMessage.value)
      && (s.switchExceptionTypeAndMessage.None? ==>
            r.switchExceptionTypeAndMessage == DefaultStacktraceSwitchExceptionTypeAndMessage)
  {
    match settings
    case None => DefaultStacktrace
    case Some(s) =>
      var d := DefaultStacktrace.(level := LevelByString(level, DefaultStacktraceLevel));
      var d := if s.enable.Some? then d.(enable := s.enable.value) else d;
      var d := if s.context.Some? then d.(context := s.context.value as int) else d;
      var d := if s.includeErrorBreadcrumb.Some? then d.(includeErrorBreadcrumb := s.includeErrorBreadcrumb.value) else d;
      var d := if s.sendExceptionType.Some? then d.(sendExceptionType := s.sendExceptionType.value) else d;
      var d := if s.skip.Some? then d.(skip := s.skip.value as int) else d;
      if s.switchExceptionTypeAndMessage.Some?
      then d.(switchExceptionTypeAndMessage := s.switchExceptionTypeAndMessage.value)
      else d
  }

  /**
   * The hook built from decoded settings: none without a DSN or when the
   * client constructor fails; otherwise the DSN, the tags (an empty map for
   * nil), the levels from the configured level ("error" when empty), the
   * timeout in nanoseconds and the stack-trace policy.
   */
  function HookFromConfig(c: SentryHookConfig, newClient: ClientConstructor): (r: Option<SentryHook>)
    ensures c.dsn == "" ==> r.None?
    ensures r.Some? ==> r.value.dsn == c.dsn && c.dsn != ""
    ensures r.Some? ==> r.value.tags == c.tags.GetOr(map[])
    ensures r.Some? ==> r.value.levels == GetLogrusLevels(if c.level == "" then DefaultHookLevel else c.level)
    ensures r.Some? ==> r.value.timeout == TimeoutNanos(c.timeout)
    ensures r.Some? ==> r.value.stacktrace == StackTrace(if c.level == "" then DefaultHookLevel else c.level, c.stackTraceSettings)
    ensures c.dsn != "" ==>
      (r.Some? <==> newClient(c.dsn, c.tags.GetOr(map[]), GetLogrusLevels(if c.level == "" then DefaultHookLevel else c.level)))
  {
    if c.dsn == "" then None
    else
      var level := if c.level == "" then DefaultHookLevel else c.level;
      var tags := if c.tags.None? then map[] else c.tags.value;
      var levels := GetLogrusLevels(level);
      if !newClient(c.dsn, tags, levels) then None
      else Some(SentryHook(c.dsn, tags, levels, TimeoutNanos(c.timeout), StackTrace(level, c.stackTraceSettings)))
  }

  /**
   * `GetSetryHookWithSettings` as written: a decode error gives no hook; a
   * nil decode result is dereferenced when its DSN is read, which panics.
   */
  function GetSentryHookAsWritten(settings: Value, decode: SentryDecoder, newClient: ClientConstructor): (r: Built<SentryHook>)
    ensures decode(settings).DecodeFailed? ==> r == Returned(None)
    ensures decode(settings).DecodedNil? ==> r == NilPointerPanic
    ensures decode(settings).Decoded? ==> r == Returned(HookFromConfig(decode(settings).value, newClient))
  {
    match decode(settings)
    case DecodeFailed => Returned(None)
    case DecodedNil => NilPointerPanic
    case Decoded(c) => Returned(HookFromConfig(c, newClient))
  }

  /** `GetSetryHookWithSettings`, with a nil decode result read as settings without a DSN: no hook. */
  function GetSentryHook(settings: Value, decode: SentryDecoder, newClient: ClientConstructor): (r: Option<SentryHook>)
    ensures !decode(settings).Decoded? ==> r.None?
    ensures decode(settings).Decoded? ==> r == HookFromConfig(decode(settings).value, newClient)
    ensures r.Some? ==> decode(settings).Decoded? && decode(settings).value.dsn != ""
  {
    match decode(settings)
    case DecodeFailed => None
    case DecodedNil => None
    case Decoded(c) => HookFromConfig(c, newClient)
  }

  /** Wherever the code as written does not panic, the corrected factory returns the same. */
  lemma GetSentryHookAgrees(settings: Value, decode: SentryDecoder, newClient: ClientConstructor)
    requires GetSentryHookAsWritten(settings, decode, newClient).Returned?
    ensures GetSentryHook(settings, decode, newClient) == GetSentryHookAsWritten(settings, decode, newClient).hook
  {
  }

  /** A hook entry with no settings: the code as written panics; the corrected factory gives no hook. */
  lemma NilSettingsPanic(decode: SentryDecoder, newClient: ClientConstructor)
    requires decode(Nil) == DecodedNil
    ensures GetSentryHookAsWritten(Nil, decode, newClient) == NilPointerPanic
    ensures GetSentryHook(Nil, decode, newClient) == None
  {
  }

  /**
   * With stack-trace settings present, the stack-trace level is the least
   * severe level the hook fires on: the first entry of its level list.
   */
  lemma StackTraceLevelIsHookLevel(c: SentryHookConfig, newClient: ClientConstructor)
    requires c.stackTraceSettings.Some?
    requires HookFromConfig(c, newClient).Some?
    ensures HookFromConfig(c, newClient).value.stacktrace.level == HookFromConfig(c, newClient).value.levels[0]
  {
  }

  /**
   * Each stack-trace option affects only its own field: two settings that
   * agree on one option give policies that agree on that option's field,
   * whatever the other options say. The level depends on the hook level only.
   */
  lemma StackTraceOptionsIndependent(level: string, s: StackTraceSettings, t: StackTraceSettings)
    ensures StackTrace(level, Some(s)).level == StackTrace(level, Some(t)).level
    ensures s.enable == t.enable ==> StackTrace(level, Some(s)).enable == StackTrace(level, Some(t)).enable
    ensures s.context == t.context ==> StackTrace(level, Some(s)).context == StackTrace(level, Some(t)).context
    ensures s.includeErrorBreadcrumb == t.includeErrorBreadcrumb ==>
              StackTrace(level, Some(s)).includeErrorBreadcrumb == StackTrace(level, Some(t)).includeErrorBreadcrumb
    ensures s.sendExceptionType == t.sendExceptionType ==>
              StackTrace(level, Some(s)).sendExceptionType == StackTrace(level, Some(t)).sendExceptionType
    ensures s.skip == t.skip ==> StackTrace(level, Some(s)).skip == StackTrace(level, Some(t)).skip
    ensures s.switchExceptionTypeAndMessage == t.switchExceptionTypeAndMessage ==>
              StackTrace(level, Some(s)).switchExceptionTypeAndMessage
              == StackTrace(level, Some(t)).switchExceptionTypeAndMessage
  {
  }
}
