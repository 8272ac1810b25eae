/**
 * The gRPC call logging rules (`grpc_logger.go`): severity by status code,
 * the per-call logger, the completion line and the two server
 * interceptors. Trace ids, clocks and time formatting are inputs.
 */
module GrpcLogging {
  import opened Options
  import opened Values
  import opened Levels
  import opened Loggers
  import opened Contexts
  import GoPath

  /** A gRPC status code (`codes.Code`, a uint32). */
  newtype Code = c: int | 0 <= c < 0x1_0000_0000

  const OK: Code := 0
  const Canceled: Code := 1
  const Unknown: Code := 2
  const InvalidArgument: Code := 3
  const DeadlineExceeded: Code := 4
  const NotFound: Code := 5
  const AlreadyExists: Code := 6
  const PermissionDenied: Code := 7
  const ResourceExhausted: Code := 8
  const FailedPrecondition: Code := 9
  const Aborted: Code := 10
  const OutOfRange: Code := 11
  const Unimplemented: Code := 12
  const Internal: Code := 13
  const Unavailable: Code := 14
  const DataLoss: Code := 15
  const Unauthenticated: Code := 16

  /** Client-caused or expected outcomes. */
  const InfoCodes: set<Code> := {OK, Canceled, InvalidArgument, NotFound, AlreadyExists, Unauthenticated}
  /** Degraded or contended conditions. */
  const WarnCodes: set<Code> := {DeadlineExceeded, PermissionDenied, ResourceExhausted, FailedPrecondition,
                                 Aborted, OutOfRange, Unavailable}
  /** The canonical codes named as errors. */
  const ErrorCodes: set<Code> := {Unknown, Unimplemented, DataLoss, Internal}

  /** Field keys of the per-call logger and of the completion line. */
  const TraceID: string := "traceID"
  const SystemField: string := "system"
  const KindField: string := "span.kind"
  const ServiceField: string := "grpc.service"
  const MethodField: string := "grpc.method"
  const StartTimeField: string := "grpc.start_time"
  const DeadlineField: string := "grpc.request.deadline"
  const CodeField: string := "grpc.code"
  const MessageField: string := "grpc.message"
  const DurationField: string := "grpc.duration"

  /**
   * The severity of a call's outcome, by status code (`withCodeLevel`'s
   * switch): Info for the client-caused codes, Warn for the degraded ones,
   * Error for Unknown, Unimplemented, DataLoss, Internal and every code
   * outside the canonical seventeen.
   */
  function CodeLevel(code: Code): (l: Level)
    ensures l == Info <==> code in InfoCodes
    ensures l == Warn <==> code in WarnCodes
    ensures l == Error <==> code !in InfoCodes && code !in WarnCodes
    ensures code in ErrorCodes || code > Unauthenticated ==> l == Error
  {
    if code == OK || code == Canceled || code == InvalidArgument || code == NotFound
       || code == AlreadyExists || code == Unauthenticated then Info
    else if code == DeadlineExceeded || code == PermissionDenied || code == ResourceExhausted
       || code == FailedPrecondition || code == Aborted || code == OutOfRange || code == Unavailable then Warn
    else if code == Unknown || code == Unimplemented || code == DataLoss || code == Internal then Error
    else Error
  }

  /** The three buckets partition the canonical codes. */
  lemma CodeBucketsPartition()
    ensures InfoCodes !! WarnCodes && InfoCodes !! ErrorCodes && WarnCodes !! ErrorCodes
    ensures forall c: Code :: c <= Unauthenticated ==> c in InfoCodes + WarnCodes + ErrorCodes
  {
  }

  /** `withCodeLevel`: exactly one log call, at the code's severity, with the given message. */
  function WithCodeLevel(logger: Logger, code: Code, format: string): (r: seq<Entry>)
    ensures |r| == 1
    ensures r[0].level == CodeLevel(code)
    ensures r[0].message == format
    ensures r[0].fields == logger.fields
  {
    [Logf(logger, CodeLevel(code), format)]
  }

  /** A call's status. */
  datatype Status = Status(code: Code, message: string)

  /** The error a handler returns: none, a gRPC status error, or any other error. */
  datatype CallError = NoError | StatusError(status: Status) | PlainError(text: string)

  /**
   * `status.FromError`: OK with an empty message for no error, the status of
   * a status error, and Unknown with the error's text for any other error;
   * the flag says whether the error was a status.
   */
  function FromError(err: CallError): (r: (Status, bool))
    ensures r.1 <==> !err.PlainError?
    ensures err.NoError? ==> r.0 == Status(OK, "")
    ensures err.StatusError? ==> r.0 == err.status
    ensures err.PlainError? ==> r.0 == Status(Unknown, err.text)
  {
    match err
    case NoError => (Status(OK, ""), true)
    case StatusError(st) => (st, true)
    case PlainError(text) => (Status(Unknown, text), false)
  }

  /** The service and method of a full method name: `path.Dir(full)[1:]` and `path.Base(full)`. */
  function ServiceAndMethod(fullMethod: string): (string, string)
  {
    (GoPath.Dir(fullMethod)[1..], GoPath.Base(fullMethod))
  }

  /**
   * For a full method "/S/M" whose service S and method M are non-empty and
   * hold no '/', and S is not "." or "..": the service is S and the method M.
   */
  lemma ServiceAndMethodSplit(s: string, m: string)
    requires s != "" && s != "." && s != ".."
    requires m != ""
    requires forall j :: 0 <= j < |s| ==> s[j] != '/'
    requires forall j :: 0 <= j < |m| ==> m[j] != '/'
    ensures ServiceAndMethod("/" + s + "/" + m) == (s, m)
  {
    GoPath.DirBaseOfTwoSegments(s, m);
  }

  /** The six fields every per-call logger gets. */
  function CallFields(traceId: string, serviceName: string, methodName: string, startText: string): (f: map<string, Value>)
    ensures f.Keys == {TraceID, SystemField, KindField, ServiceField, MethodField, StartTimeField}
    ensures f[TraceID] == Str(traceId) && f[SystemField] == Str("grpc") && f[KindField] == Str("server")
    ensures f[ServiceField] == Str(serviceName) && f[MethodField] == Str(methodName)
    ensures f[StartTimeField] == Str(startText)
  {
    map[TraceID := Str(traceId), SystemField := Str("grpc"), KindField := Str("server"),
        ServiceField := Str(serviceName), MethodField := Str(methodName), StartTimeField := Str(startText)]
  }

  /**
   * The per-call logger: the given logger extended by the six call fields,
   * then by the deadline when there is one; it writes through the same
   * settings and keeps every other field of the given logger.
   */
  function CallLogger(
    entry: Logger, serviceName: string, methodName: string, traceId: string, startText: string,
    deadlineText: Option<string>): (l: Logger)
    ensures l.setup == entry.setup
    ensures var f := CallFields(traceId, serviceName, methodName, startText);
      && (deadlineText.None? ==> l.fields.Keys == entry.fields.Keys + f.Keys)
      && (deadlineText.Some? ==> l.fields.Keys == entry.fields.Keys + f.Keys + {DeadlineField})
      && (forall k :: k in f ==> l.fields[k] == f[k])
      && (forall k :: k in entry.fields && k !in f && k != DeadlineField ==> l.fields[k] == entry.fields[k])
    ensures deadlineText.Some? ==> l.fields[DeadlineField] == Str(deadlineText.value)
    ensures deadlineText.None? && DeadlineField in entry.fields ==> l.fields[DeadlineField] == entry.fields[DeadlineField]
  {
    var f := CallFields(traceId, serviceName, methodName, startText);
    assert DeadlineField !in f;
    WithDeadline(WithFields(entry, f), deadlineText)
  }

  /** The deadline field added to a logger when there is a deadline; the logger itself otherwise. */
  function WithDeadline(l: Logger, deadlineText: Option<string>): (r: Logger)
    ensures r.setup == l.setup
    ensures deadlineText.None? ==> r == l
    ensures deadlineText.Some? ==> r.fields == l.fields[DeadlineField := Str(deadlineText.value)]
  {
    match deadlineText
    case Some(d) => WithFields(l, map[DeadlineField := Str(d)])
    case None => l
  }

  /** The deadline of a context, formatted, if it has one. */
  function DeadlineText(ctx: Context, rfc3339: Time -> string): Option<string>
  {
    match Deadline(ctx)
    case Some(d) => Some(rfc3339(d))
    case None => None
  }

  /**
   * `newLoggerForCall`: a context with the same deadline, carrying the
   * per-call logger built from the split method name, the trace id, the
   * formatted start time and the formatted deadline, if any. `rfc3339` is
   * the RFC 3339 formatting of an instant.
   */
  function NewLoggerForCall(
    ctx: Context, entry: Logger, fullMethod: string, start: Time, traceId: string,
    rfc3339: Time -> string): (newCtx: Context)
    ensures Deadline(newCtx) == Deadline(ctx)
    ensures var sm := ServiceAndMethod(fullMethod);
      FromContext(newCtx) == CallLogger(entry, sm.0, sm.1, traceId, rfc3339(start), DeadlineText(ctx, rfc3339))
  {
    var sm := ServiceAndMethod(fullMethod);
    var callLog := CallLogger(entry, sm.0, sm.1, traceId, rfc3339(start), DeadlineText(ctx, rfc3339));
    FromWithLogger(ctx, callLog);
    WithLogger(ctx, Some(callLog))
  }

  /** The deadline field is added if and only if the incoming context has a deadline. */
  lemma DeadlineFieldIffDeadline(
    ctx: Context, entry: Logger, fullMethod: string, start: Time, traceId: string, rfc3339: Time -> string)
    requires DeadlineField !in entry.fields
    ensures DeadlineField in FromContext(NewLoggerForCall(ctx, entry, fullMethod, start, traceId, rfc3339)).fields
            <==> Deadline(ctx).Some?
  {
    var sm := ServiceAndMethod(fullMethod);
    CallLoggerDeadline(entry, sm.0, sm.1, traceId, rfc3339(start), DeadlineText(ctx, rfc3339));
  }

  lemma CallLoggerDeadline(
    entry: Logger, serviceName: string, methodName: string, traceId: string, startText: string,
    deadlineText: Option<string>)
    requires DeadlineField !in entry.fields
    ensures DeadlineField in CallLogger(entry, serviceName, methodName, traceId, startText, deadlineText).fields
            <==> deadlineText.Some?
  {
  }

  /** The fields the completion line adds: code, message and duration. */
  function CompletionFields(st: Status, elapsed: int): (f: map<string, Value>)
    ensures f.Keys == {CodeField, MessageField, DurationField}
    ensures f[CodeField] == CodeVal(st.code as int) && f[MessageField] == Str(st.message)
    ensures f[DurationField] == DurationVal(elapsed)
  {
    map[CodeField := CodeVal(st.code as int), MessageField := Str(st.message), DurationField := DurationVal(elapsed)]
  }

  /**
   * `logFinishedRequest`: exactly one line, through the context's logger
   * with code, message and duration added; "request finished" when the
   * error is a status (or nil), "request failed" otherwise; its severity
   * follows the status code alone. `elapsed` is `time.Since(startTime)`.
   */
  function LogFinishedRequest(ctx: Context, err: CallError, elapsed: int): (r: seq<Entry>)
    ensures |r| == 1
    ensures r[0].message == if err.PlainError? then "request failed" else "request finished"
    ensures r[0].level == CodeLevel(FromError(err).0.code)
    ensures r[0].fields == FromContext(ctx).fields + CompletionFields(FromError(err).0, elapsed)
  {
    var logger := FromContext(ctx);
    var (st, ok) := FromError(err);
    var withStatus := WithFields(logger, CompletionFields(st, elapsed));
    if ok then WithCodeLevel(withStatus, st.code, "request finished")
    else WithCodeLevel(withStatus, st.code, "request failed")
  }

  /** Two outcomes with the same status code are logged at the same severity, whatever their messages. */
  lemma SeverityByCodeOnly(ctx: Context, e1: CallError, e2: CallError, d1: int, d2: int)
    requires FromError(e1).0.code == FromError(e2).0.code
    ensures LogFinishedRequest(ctx, e1, d1)[0].level == LogFinishedRequest(ctx, e2, d2)[0].level
  {
  }

  /** A NotFound status is logged at Info, with the code field set and a plain error at Error. */
  lemma NotFoundIsInfo(ctx: Context, message: string, elapsed: int)
    ensures var r := LogFinishedRequest(ctx, StatusError(Status(NotFound, message)), elapsed);
      r[0].level == Info && r[0].fields[CodeField] == CodeVal(NotFound as int)
    ensures LogFinishedRequest(ctx, PlainError(message), elapsed)[0].level == Error
  {
  }

  /** None of the per-call field names is one the completion line adds. */
  lemma CallKeysSurviveCompletion(st: Status, elapsed: int)
    ensures var c := CompletionFields(st, elapsed);
      TraceID !in c && SystemField !in c && KindField !in c && ServiceField !in c && MethodField !in c
  {
  }

  /**
   * The completion line of a call carries the per-call fields: trace id,
   * system, kind, service and method, next to the code it adds.
   */
  lemma CompletionCarriesCallFields(
    ctx: Context, entry: Logger, fullMethod: string, start: Time, traceId: string,
    rfc3339: Time -> string, err: CallError, elapsed: int)
    ensures var sm := ServiceAndMethod(fullMethod);
      var line := LogFinishedRequest(NewLoggerForCall(ctx, entry, fullMethod, start, traceId, rfc3339), err, elapsed)[0];
      && line.fields[TraceID] == Str(traceId)
      && line.fields[SystemField] == Str("grpc")
      && line.fields[KindField] == Str("server")
      && line.fields[ServiceField] == Str(sm.0)
      && line.fields[MethodField] == Str(sm.1)
      && line.fields[CodeField] == CodeVal(FromError(err).0.code as int)
  {
    var sm := ServiceAndMethod(fullMethod);
    var l := CallLogger(entry, sm.0, sm.1, traceId, rfc3339(start), DeadlineText(ctx, rfc3339));
    var f := CallFields(traceId, sm.0, sm.1, rfc3339(start));
    var c := CompletionFields(FromError(err).0, elapsed);
    var newCtx := NewLoggerForCall(ctx, entry, fullMethod, start, traceId, rfc3339);
    assert FromContext(newCtx) == l;
    var line := LogFinishedRequest(newCtx, err, elapsed)[0];
    assert line.fields == l.fields + c;
    CallKeysSurviveCompletion(FromError(err).0, elapsed);
    assert TraceID in f && SystemField in f && KindField in f && ServiceField in f && MethodField in f;
  }

  /** The clock and trace-id inputs of one call: `uuid.New`, `time.Now` at entry, `time.Since` at completion. */
  datatype CallInputs = CallInputs(traceId: string, start: Time, elapsed: int)

  /** What a handler does: its response, its error and the lines it logs. */
  datatype HandlerRun<+R> = HandlerRun(resp: R, err: CallError, log: seq<Entry>)

  /**
   * `UnaryServerInterceptor`: runs the handler on a context carrying the
   * per-call logger, then logs the completion line once; the handler's
   * response and error are returned unchanged, and the log is the
   * handler's lines followed by that one line.
   */
  function UnaryServerInterceptor<Req, Resp>(
    logger: Logger, ctx: Context, req: Req, fullMethod: string,
    handler: (Context, Req) -> HandlerRun<Resp>, call: CallInputs, rfc3339: Time -> string): (r: HandlerRun<Resp>)
    ensures var newCtx := NewLoggerForCall(ctx, logger, fullMethod, call.start, call.traceId, rfc3339);
      var run := handler(newCtx, req);
      && r.resp == run.resp
      && r.err == run.err
      && |r.log| == |run.log| + 1
      && r.log[..|run.log|] == run.log
      && r.log[|run.log|] == LogFinishedRequest(newCtx, run.err, call.elapsed)[0]
  {
    var newCtx := NewLoggerForCall(ctx, logger, fullMethod, call.start, call.traceId, rfc3339);
    var run := handler(newCtx, req);
    HandlerRun(run.resp, run.err, run.log + LogFinishedRequest(newCtx, run.err, call.elapsed))
  }

  /**
   * `StreamServerInterceptor`: the same for a stream handler, which sees the
   * per-call context through its wrapped stream; the handler's error is
   * returned unchanged, and exactly one completion line follows its lines.
   */
  function StreamServerInterceptor<Srv>(
    logger: Logger, streamCtx: Context, srv: Srv, fullMethod: string,
    handler: (Srv, Context) -> HandlerRun<()>, call: CallInputs, rfc3339: Time -> string): (r: HandlerRun<()>)
    ensures var newCtx := NewLoggerForCall(streamCtx, logger, fullMethod, call.start, call.traceId, rfc3339);
      var run := handler(srv, newCtx);
      && r.err == run.err
      && |r.log| == |run.log| + 1
      && r.log[..|run.log|] == run.log
      && r.log[|run.log|] == LogFinishedRequest(newCtx, run.err, call.elapsed)[0]
  {
    var newCtx := NewLoggerForCall(streamCtx, logger, fullMethod, call.start, call.traceId, rfc3339);
    var run := handler(srv, newCtx);
    HandlerRun((), run.err, run.log + LogFinishedRequest(newCtx, run.err, call.elapsed))
  }
}
