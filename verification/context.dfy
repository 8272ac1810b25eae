/**
 * The context carrier (`context.go`): a request context optionally holds
 * a logger under a private key; retrieval falls back to a fresh default
 * logger. Contexts are modelled by what the code reads from them: values
 * by key (innermost wins) and the deadline.
 */
module Contexts {
  import opened Options
  import opened Values
  import opened Levels
  import opened Loggers

  /** Instants, in nanoseconds. */
  type Time = int

  /** A context key: the logger's private key, or any key of other code. */
  datatype Key = LoggerKey | ForeignKey(id: nat)

  /** A value stored in a context: a logger interface value (None for nil), or another value. */
  datatype Stored = LoggerValue(logger: Option<Logger>) | ForeignValue(value: Value)

  /** A request context: a root with an optional deadline, extended by key/value pairs. */
  datatype Context = Root(deadline: Option<Time>) | WithValue(parent: Context, key: Key, stored: Stored)

  /** `ctx.Value(key)`: the innermost value stored under `key`, if any. */
  function Lookup(ctx: Context, key: Key): (r: Option<Stored>)
    ensures ctx.WithValue? && ctx.key == key ==> r == Some(ctx.stored)
  {
    match ctx
    case Root(_) => None
    case WithValue(parent, k, v) => if k == key then Some(v) else Lookup(parent, key)
  }

  /** `ctx.Deadline()`: values do not change a context's deadline. */
  function Deadline(ctx: Context): Option<Time>
  {
    match ctx
    case Root(d) => d
    case WithValue(parent, _, _) => Deadline(parent)
  }

  /**
   * The logger `FromContext` builds when none is attached: no fields, no
   * hooks, level Info, and the formatter left as it was.
   */
  const DefaultLogger: Logger := Logger(map[], Setup(None, [], Info))

  /** The hooks argument of the default construction: a `[]Hook{}`, which is not a `[]interface{}`. */
  const DefaultHooks: Value := Other("[]logger.Hook")

  /**
   * The default logger is what construction yields for environment
   * "development", level "info", no formatter instance, formatter name
   * "text", no base fields and an empty `[]Hook`: "text" is not "custom",
   * so the formatter is left as it was.
   */
  lemma DefaultLoggerIsConstructed(order: seq<string>, lib: Library)
    ensures NewWithSettings(DefaultInstance, DefaultLogLevel, None, DefaultFormat, map[], DefaultHooks, order, lib)
            == DefaultLogger
  {
    assert !EqualFoldLower(DefaultFormat, "custom") by {
      assert !FoldsOnto(DefaultFormat[0], "custom"[0]);
    }
    assert RegisterHooks([], lib) == [];
    assert ResolveLevel(DefaultLogLevel) == Info by {
      ResolveLevelName(Info, DefaultLogLevel);
    }
  }

  /** `WithLogger`: a derived context carrying the logger under the private key. */
  function WithLogger(ctx: Context, logger: Option<Logger>): (r: Context)
    ensures Lookup(r, LoggerKey) == Some(LoggerValue(logger))
    ensures Deadline(r) == Deadline(ctx)
    ensures forall n :: Lookup(r, ForeignKey(n)) == Lookup(ctx, ForeignKey(n))
  {
    WithValue(ctx, LoggerKey, LoggerValue(logger))
  }

  /**
   * `FromContext`: the attached logger when the value under the private key
   * is a non-nil logger; the default logger otherwise. It always returns a
   * logger.
   */
  function FromContext(ctx: Context): (r: Logger)
    ensures (Lookup(ctx, LoggerKey).Some? && Lookup(ctx, LoggerKey).value.LoggerValue?
             && Lookup(ctx, LoggerKey).value.logger.Some?) ==>
              r == Lookup(ctx, LoggerKey).value.logger.value
    ensures Lookup(ctx, LoggerKey).None? ==> r == DefaultLogger && r.setup.level == Info
    ensures var v := Lookup(ctx, LoggerKey);
      !(v.Some? && v.value.LoggerValue? && v.value.logger.Some?) ==> r == DefaultLogger
  {
    match Lookup(ctx, LoggerKey)
    case Some(LoggerValue(Some(l))) => l
    case _ => DefaultLogger
  }

  /** Attach, then retrieve: the same logger. */
  lemma FromWithLogger(ctx: Context, l: Logger)
    ensures FromContext(WithLogger(ctx, Some(l))) == l
  {
  }

  /** Attaching twice: the most recent logger is the one retrieved. */
  lemma LatestLoggerWins(ctx: Context, a: Logger, b: Logger)
    ensures FromContext(WithLogger(WithLogger(ctx, Some(a)), Some(b))) == b
  {
  }

  /** Attaching a nil logger: retrieval falls back to the default. */
  lemma NilLoggerFallsBack(ctx: Context)
    ensures FromContext(WithLogger(ctx, None)) == DefaultLogger
  {
  }

  /** Values under other keys do not hide an attached logger. */
  lemma ForeignValuesTransparent(ctx: Context, n: nat, v: Stored)
    ensures FromContext(WithValue(ctx, ForeignKey(n), v)) == FromContext(ctx)
  {
  }

  /** A context chain with no logger key anywhere yields the default logger. */
  lemma NothingAttached(ctx: Context)
    requires NoLoggerKey(ctx)
    ensures FromContext(ctx) == DefaultLogger
  {
    NoLoggerKeyLookup(ctx);
  }

  /** No entry of the chain uses the logger's key. */
  predicate NoLoggerKey(ctx: Context)
  {
    match ctx
    case Root(_) => true
    case WithValue(parent, k, _) => k != LoggerKey && NoLoggerKey(parent)
  }

  lemma {:induction false} NoLoggerKeyLookup(ctx: Context)
    requires NoLoggerKey(ctx)
    ensures Lookup(ctx, LoggerKey).None?
  {
    match ctx
    case Root(_) =>
    case WithValue(parent, _, _) => NoLoggerKeyLookup(parent);
  }
}
