/**
 * The caller-location hook (`hook_fileline.go`): settings resolution, the
 * levels it fires on, the stack-frame selection and the path shortening.
 * The call stack (`runtime.Caller`) is an input: `stack[k]` is what
 * `runtime.Caller(k)` reports from inside `getCaller`, and skips at or past
 * its end fail.
 */
module FileLine {
  import opened Options
  import opened Values
  import opened Levels

  /** The first stack offset inspected. */
  const StartSkip: nat := 2
  /** How many frames the selection scan inspects at most. */
  const MaxFrames: nat := 10
  /** The hook's name in the hook configuration. */
  const FileLineHookName: string := "filename_line"
  /** The log field that receives "file:line" when none is configured. */
  const DefaultFileNameLineKey: string := "where"

  /** The hook and its one setting (`field_name`). */
  datatype FileLineHook = FileLineHook(logKeyName: string)

  /** A stack frame as `runtime.Caller` reports it. */
  datatype Frame = Frame(file: string, line: int)

  /** The struct decoder (mapstructure's `Decode`) into a `*FileLineHook`, passed in. */
  type FileLineDecoder = Value -> Decoded<FileLineHook>

  /** Replaces an empty key by the default one. */
  function WithDefaultKey(h: FileLineHook): (r: FileLineHook)
    ensures r.logKeyName != ""
    ensures h.logKeyName != "" ==> r == h
    ensures h.logKeyName == "" ==> r.logKeyName == DefaultFileNameLineKey
  {
    if h.logKeyName == "" then FileLineHook(DefaultFileNameLineKey) else h
  }

  /**
   * `GetFileLineHookWithSettings` as written: a decode error gives no hook;
   * a nil decode result is dereferenced, which panics; otherwise the key is
   * defaulted and the hook is returned.
   */
  function GetFileLineHookAsWritten(settings: Value, decode: FileLineDecoder): (r: Built<FileLineHook>)
    ensures decode(settings).DecodeFailed? ==> r == Returned(None)
    ensures decode(settings).DecodedNil? ==> r == NilPointerPanic
    ensures decode(settings).Decoded? && decode(settings).value.logKeyName != "" ==>
              r == Returned(Some(decode(settings).value))
    ensures decode(settings).Decoded? && decode(settings).value.logKeyName == "" ==>
              r == Returned(Some(FileLineHook(DefaultFileNameLineKey)))
  {
    match decode(settings)
    case DecodeFailed => Returned(None)
    case DecodedNil => NilPointerPanic
    case Decoded(h) => Returned(Some(WithDefaultKey(h)))
  }

  /**
   * `GetFileLineHookWithSettings`, with a nil decode result read as empty
   * settings: no hook exactly when decoding fails; otherwise a hook whose key
   * is the configured one, or "where" when none is configured.
   */
  function GetFileLineHook(settings: Value, decode: FileLineDecoder): (r: Option<FileLineHook>)
    ensures r.None? <==> decode(settings).DecodeFailed?
    ensures r.Some? ==> r.value.logKeyName != ""
    ensures decode(settings).Decoded? && decode(settings).value.logKeyName != "" ==>
              r == Some(decode(settings).value)
    ensures decode(settings).Decoded? && decode(settings).value.logKeyName == "" ==>
              r == Some(FileLineHook(DefaultFileNameLineKey))
    ensures decode(settings).DecodedNil? ==> r == Some(FileLineHook(DefaultFileNameLineKey))
  {
    match decode(settings)
    case DecodeFailed => None
    case DecodedNil => Some(WithDefaultKey(FileLineHook("")))
    case Decoded(h) => Some(WithDefaultKey(h))
  }

  /** Wherever the code as written does not panic, the corrected factory returns the same. */
  lemma GetFileLineHookAgrees(settings: Value, decode: FileLineDecoder)
    requires GetFileLineHookAsWritten(settings, decode).Returned?
    ensures GetFileLineHook(settings, decode) == GetFileLineHookAsWritten(settings, decode).hook
  {
  }

  /** A hook entry with no settings: nil decodes to a nil pointer (the decoder's behaviour), and the code as written panics. */
  lemma NilSettingsPanic(decode: FileLineDecoder)
    requires decode(Nil) == DecodedNil
    ensures GetFileLineHookAsWritten(Nil, decode) == NilPointerPanic
    ensures GetFileLineHook(Nil, decode) == Some(FileLineHook(DefaultFileNameLineKey))
  {
  }

  /** `Levels`: the hook fires on every level. */
  function HookLevels(hook: FileLineHook): (r: seq<Level>)
    ensures forall l: Level :: l in r
    ensures |r| == 7
  {
    EveryLevelListed();
    AllLevels
  }

  /** The file belongs to the logging engine: it starts with "logrus". */
  predicate IsEngineFile(file: string)
  {
    "logrus" <= file
  }

  /**
   * The position of the last '/' at an index of at least 1, if any (index 0
   * is never inspected by the shortening scan).
   */
  function LastSlash(s: string): (r: Option<nat>)
    ensures r.Some? ==> 1 <= r.value < |s| && s[r.value] == '/'
    ensures r.Some? ==> forall j :: r.value < j < |s| ==> s[j] != '/'
    ensures r.None? ==> forall j :: 1 <= j < |s| ==> s[j] != '/'
    decreases |s|
  {
    if |s| <= 1 then None
    else if s[|s| - 1] == '/' then Some(|s| - 1)
    else LastSlash(s[..|s| - 1])
  }

  /**
   * Reference definition of the shortened path: the text after the
   * second-to-last '/' (among indices at least 1), or the whole path when
   * there are fewer than two such slashes.
   */
  function ShortPath(s: string): string
  {
    match LastSlash(s)
    case None => s
    case Some(i) =>
      match LastSlash(s[..i])
      case None => s
      case Some(j) => s[j + 1..]
  }

  /** Number of '/' characters in a string. */
  function Slashes(s: string): nat
  {
    if s == [] then 0 else (if s[0] == '/' then 1 else 0) + Slashes(s[1..])
  }

  lemma {:induction false} SlashesAppend(a: string, b: string)
    ensures Slashes(a + b) == Slashes(a) + Slashes(b)
    decreases |a|
  {
    if a == [] {
      assert a + b == b;
    } else {
      assert (a + b)[0] == a[0];
      assert (a + b)[1..] == a[1..] + b;
      SlashesAppend(a[1..], b);
    }
  }

  lemma {:induction false} SlashesNone(s: string)
    requires forall j :: 0 <= j < |s| ==> s[j] != '/'
    ensures Slashes(s) == 0
    decreases |s|
  {
    if s != [] {
      SlashesNone(s[1..]);
    }
  }

  /** Splits `s` around the '/' at `k`: the slashes before, plus one, plus the slashes after. */
  lemma SlashesAround(s: string, lo: nat, k: nat)
    requires lo <= k < |s| && s[k] == '/'
    ensures Slashes(s[lo..]) == Slashes(s[lo..k]) + 1 + Slashes(s[k + 1..])
  {
    assert s[lo..] == s[lo..k] + ([s[k]] + s[k + 1..]);
    SlashesAppend(s[lo..k], [s[k]] + s[k + 1..]);
    SlashesAppend([s[k]], s[k + 1..]);
  }

  /**
   * Path shortening, stated without the scan: the result is a suffix of the
   * path; when the path has at least two '/' at indices of at least 1, it
   * is the text after a '/' at such an index and holds exactly one '/';
   * otherwise it is the whole path.
   */
  lemma ShortPathMeaning(s: string)
    ensures exists k :: 0 <= k <= |s| && ShortPath(s) == s[k..]
    ensures |s| >= 1 && Slashes(s[1..]) >= 2 ==>
              exists j :: 1 <= j < |s| && s[j] == '/' && ShortPath(s) == s[j + 1..] && Slashes(ShortPath(s)) == 1
    ensures |s| < 1 || Slashes(s[1..]) < 2 ==> ShortPath(s) == s
  {
    assert s == s[0..];
    match LastSlash(s)
    case None =>
      if |s| >= 1 {
        SlashesNone(s[1..]);
      }
    case Some(i) =>
      SlashesAround(s, 1, i);
      SlashesNone(s[i + 1..]);
      match LastSlash(s[..i])
      case None =>
        assert s[1..i] == s[..i][1..];
        SlashesNone(s[1..i]);
      case Some(j) =>
        assert s[1..i] == s[..i][1..];
        SlashesAround(s, j + 1, i);
        assert s[j + 1..i] == s[..i][j + 1..];
        SlashesNone(s[j + 1..i]);
        assert Slashes(s[1..]) >= 2 by {
          SlashesAround(s[..i], 1, j);
          assert s[..i][1..] == s[1..i];
        }
  }

  /** Prefixes one character longer: the last slash is the new character, if a slash, or unchanged. */
  lemma LastSlashStep(s: string, i: nat)
    requires 1 <= i < |s|
    ensures LastSlash(s[..i + 1]) == if s[i] == '/' then Some(i) else LastSlash(s[..i])
  {
    assert s[..i + 1][..i] == s[..i];
  }

  /**
   * The path-shortening scan of `getCaller`: walk backwards from the last
   * character down to index 1, count '/', and at the second one keep only
   * what follows it.
   */
  method ShortenPath(file: string) returns (r: string)
    ensures r == ShortPath(file)
  {
    r := file;
    var n := 0;
    var i: int := |file| - 1;
    while i > 0
      invariant -1 <= i < |file|
      invariant r == file
      invariant 0 <= n <= 1
      invariant n == 0 ==> LastSlash(file) == LastSlash(file[..i + 1])
      invariant n == 1 ==> LastSlash(file).Some? && i < LastSlash(file).value
                           && LastSlash(file[..LastSlash(file).value]) == LastSlash(file[..i + 1])
      decreases i
    {
      LastSlashStep(file, i);
      if file[i] == '/' {
        n := n + 1;
        if n >= 2 {
          r := file[i + 1..];
          break;
        }
      }
      i := i - 1;
    }
  }

  /** What `getCaller(skip)` reports: the shortened file and the line, or ("", 0) when the frame does not exist. */
  function CallerOf(stack: seq<Frame>, skip: nat): (string, int)
  {
    if skip < |stack| then (ShortPath(stack[skip].file), stack[skip].line) else ("", 0)
  }

  /** `getCaller`: look the frame up, then shorten its path. */
  method GetCaller(stack: seq<Frame>, skip: nat) returns (file: string, line: int)
    ensures (file, line) == CallerOf(stack, skip)
    ensures skip >= |stack| ==> file == "" && line == 0
    ensures skip < |stack| ==> line == stack[skip].line && file == ShortPath(stack[skip].file)
  {
    if skip >= |stack| {
      return "", 0;
    }
    file := ShortenPath(stack[skip].file);
    line := stack[skip].line;
  }

  /** What the selection scan's `i`-th step sees: `getCaller(StartSkip + i)`. */
  function Inspected(stack: seq<Frame>, i: nat): (string, int)
  {
    CallerOf(stack, StartSkip + i)
  }

  /**
   * Frame `StartSkip + i` is the one the selection scan settles on: every
   * earlier inspected frame is the engine's own, and this one is not, or it
   * is the last one inspected.
   */
  ghost predicate Selected(stack: seq<Frame>, i: nat)
  {
    && i < MaxFrames
    && (forall j :: 0 <= j < i ==> IsEngineFile(Inspected(stack, j).0))
    && (i == MaxFrames - 1 || !IsEngineFile(Inspected(stack, i).0))
  }

  /**
   * The frame-selection loop of `Fire`: inspect at most ten frames from
   * offset 2 on and stop at the first whose shortened file does not start
   * with "logrus"; when all ten do, the tenth is used.
   */
  method SelectFrame(stack: seq<Frame>) returns (file: string, line: int)
    ensures exists i :: Selected(stack, i) && (file, line) == Inspected(stack, i)
  {
    var i := 0;
    file, line := GetCaller(stack, StartSkip);
    while i < MaxFrames - 1 && IsEngineFile(file)
      invariant 0 <= i < MaxFrames
      invariant (file, line) == Inspected(stack, i)
      invariant forall j :: 0 <= j < i ==> IsEngineFile(Inspected(stack, j).0)
    {
      i := i + 1;
      file, line := GetCaller(stack, StartSkip + i);
    }
    assert Selected(stack, i);
  }

  /** Decimal digits of a natural number, as `%d` prints them. */
  function Digits(n: nat): (r: string)
    ensures |r| >= 1
    ensures forall k :: 0 <= k < |r| ==> '0' <= r[k] <= '9'
    decreases n
  {
    var d := ('0' as int + n % 10) as char;
    if n < 10 then [d] else Digits(n / 10) + [d]
  }

  /** `%d` of an integer. */
  function Decimal(n: int): string
  {
    if n < 0 then "-" + Digits(-n) else Digits(n)
  }

  /** The field value `Fire` stores: `"<file>:<line>"`. */
  function Location(frame: (string, int)): string
  {
    frame.0 + ":" + Decimal(frame.1)
  }

  /**
   * `Fire`: stores the selected frame's "file:line" under the configured
   * key, leaves every other field as it was, and returns no error.
   */
  method Fire(hook: FileLineHook, stack: seq<Frame>, data: map<string, Value>)
    returns (data': map<string, Value>, err: Option<string>)
    ensures err == None
    ensures exists i :: Selected(stack, i) &&
              data' == data[hook.logKeyName := Str(Location(Inspected(stack, i)))]
    ensures data'.Keys == data.Keys + {hook.logKeyName}
  {
    var file, line := SelectFrame(stack);
    data' := data[hook.logKeyName := Str(Location((file, line)))];
    err := None;
  }
}
