/** The Cloud Logging adapter over `log/slog`: an attribute rewriter that
    renames slog's built-in keys to Cloud Logging's, and a handler that enriches
    every record with trace and request-correlation attributes before passing
    it on to the wrapped (JSON) handler. */
module Logging {
  import opened GoBase
  import ContextUtil

  /** An `slog.Value`, by kind. */
  datatype Value =
    | StringValue(s: string)
    | BoolValue(b: bool)
    | IntValue(i: int)
    | LevelValue(level: int)
    | TimeValue(nanos: int)
    | AnyValue(text: string)

  datatype Attr = Attr(key: string, value: Value)

  /** An `slog.Record`; it is passed by value, and `AddAttrs` appends to the copy. */
  datatype Record = Record(time: int, level: int, message: string, attrs: seq<Attr>) {
    function AddAttrs(more: seq<Attr>): (r: Record)
      ensures r.time == time && r.level == level && r.message == message
      ensures r.attrs == attrs + more
    {
      this.(attrs := attrs + more)
    }
  }

  // slog's built-in keys and levels.
  const LevelKey := "level"
  const TimeKey := "time"
  const MessageKey := "msg"
  const LevelWarn := 4

  // ---- replacer ------------------------------------------------------------

  /** `replacer`, as the JSON handler applies it to every attribute: the level,
      time and message keys get Cloud Logging's names, a WARN level becomes the
      severity "WARNING", and everything else passes through. The groups the
      attribute sits in play no part. An attribute keyed "level" whose value is
      not a level keeps its value (see `ReplacerAsWritten`). */
  function Replacer(groups: seq<string>, a: Attr): (r: Attr)
    ensures a.key == "level" ==> r.key == "severity"
    ensures a.key == "time" ==> r == a.(key := "timestamp")
    ensures a.key == "msg" ==> r == a.(key := "message")
    ensures a.key !in {"level", "time", "msg"} ==> r == a
    ensures a.key == "level" && a.value == LevelValue(4) ==> r.value == StringValue("WARNING")
    ensures a.key == "level" && a.value != LevelValue(4) ==> r.value == a.value
  {
    if a.key == LevelKey then
      var value := if a.value.LevelValue? && a.value.level == LevelWarn then StringValue("WARNING") else a.value;
      Attr("severity", value)
    else if a.key == TimeKey then a.(key := "timestamp")
    else if a.key == MessageKey then a.(key := "message")
    else a
  }

  /** `replacer` as written: it asserts the level attribute's value to be an
      `slog.Level` without checking, so any other value there panics (`None`). */
  function ReplacerAsWritten(groups: seq<string>, a: Attr): (r: Option<Attr>)
    ensures r.None? <==> a.key == "level" && !a.value.LevelValue?
    ensures r.Some? && a.key == "level" ==> r.value.key == "severity"
  {
    if a.key == LevelKey then
      if !a.value.LevelValue? then None
      else Some(Attr("severity", if a.value.level == LevelWarn then StringValue("WARNING") else a.value))
    else if a.key == TimeKey then Some(a.(key := "timestamp"))
    else if a.key == MessageKey then Some(a.(key := "message"))
    else Some(a)
  }

  /** A caller's `slog.Info("...", "level", "high")` reaches the replacer as
      this attribute; the written type assertion panics on it. */
  lemma ReplacerAsWrittenPanics()
    ensures ReplacerAsWritten([], Attr("level", StringValue("high"))) == None
    ensures Replacer([], Attr("level", StringValue("high"))) == Attr("severity", StringValue("high"))
  {
  }

  /** Wherever the written replacer does not panic, it agrees with `Replacer`. */
  lemma ReplacerAgrees(groups: seq<string>, a: Attr)
    ensures ReplacerAsWritten(groups, a).Some? ==> ReplacerAsWritten(groups, a).value == Replacer(groups, a)
  {
  }

  /** Rewriting is idempotent (the new names are not slog keys) and ignores
      the attribute's groups. */
  lemma ReplacerIdempotent(groups: seq<string>, other: seq<string>, a: Attr)
    ensures Replacer(groups, Replacer(groups, a)) == Replacer(groups, a)
    ensures Replacer(other, a) == Replacer(groups, a)
  {
  }

  // ---- Handle --------------------------------------------------------------

  /** The OpenTelemetry span context of the logging call, as its SDK reports
      it: whether it is valid, the trace id's text, the span id's text, and the
      sampled flag. */
  datatype SpanContext = SpanContext(valid: bool, traceID: string, spanID: string, sampled: bool)

  const TraceKey := "logging.googleapis.com/trace"
  const SpanIdKey := "logging.googleapis.com/spanId"
  const TraceSampledKey := "logging.googleapis.com/trace_sampled"
  const TracePrefix := "projects/proper-base/traces/"

  /** The trace attributes for a valid span, in the order they are added. */
  function TraceAttrs(span: SpanContext): (attrs: seq<Attr>)
    ensures |attrs| == 3
    ensures attrs[0] == Attr("logging.googleapis.com/trace", StringValue("projects/proper-base/traces/" + span.traceID))
    ensures attrs[1] == Attr("logging.googleapis.com/spanId", AnyValue(span.spanID))
    ensures attrs[2] == Attr("logging.googleapis.com/trace_sampled", BoolValue(span.sampled))
  {
    [ Attr(TraceKey, StringValue(TracePrefix + span.traceID)),
      Attr(SpanIdKey, AnyValue(span.spanID)),
      Attr(TraceSampledKey, BoolValue(span.sampled)) ]
  }

  /** The request-correlation attributes, always added, in this order. */
  function CorrelationAttrs(ctx: ContextUtil.Context): (attrs: seq<Attr>)
    ensures |attrs| == 4
    ensures attrs[0] == Attr("app", StringValue(ContextUtil.GetServiceName(ctx)))
    ensures attrs[1] == Attr("rid", StringValue(ContextUtil.GetRequestID(ctx)))
    ensures attrs[2] == Attr("flow-id", StringValue(ContextUtil.GetFlowID(ctx)))
    ensures attrs[3] == Attr("root-task-id", StringValue(ContextUtil.GetRootTaskID(ctx)))
  {
    [ Attr("app", StringValue(ContextUtil.GetServiceName(ctx))),
      Attr("rid", StringValue(ContextUtil.GetRequestID(ctx))),
      Attr("flow-id", StringValue(ContextUtil.GetFlowID(ctx))),
      Attr("root-task-id", StringValue(ContextUtil.GetRootTaskID(ctx))) ]
  }

  /** Everything `Handle` appends to a record. */
  function Enrichment(ctx: ContextUtil.Context, span: SpanContext): (attrs: seq<Attr>)
    ensures |attrs| == if span.valid then 7 else 4
    ensures attrs[|attrs| - 4..] == CorrelationAttrs(ctx)
    ensures span.valid ==> attrs[..3] == TraceAttrs(span)
  {
    (if span.valid then TraceAttrs(span) else []) + CorrelationAttrs(ctx)
  }

  /** Trace attributes are present exactly when the span context is valid. */
  lemma {:induction false} TraceOnlyWhenValid(ctx: ContextUtil.Context, span: SpanContext)
    ensures (exists i :: 0 <= i < |Enrichment(ctx, span)| && Enrichment(ctx, span)[i].key == TraceKey) <==> span.valid
  {
    var attrs := Enrichment(ctx, span);
    if span.valid {
      assert attrs[0].key == TraceKey;
    } else {
      assert attrs == CorrelationAttrs(ctx);
      forall i | 0 <= i < |attrs|
        ensures attrs[i].key != TraceKey
      {
        assert attrs[i].key in {"app", "rid", "flow-id", "root-task-id"};
      }
    }
  }

  /** The trace id can be read back from the trace attribute's value. */
  lemma TraceIdRecoverable(span: SpanContext)
    ensures var v := TraceAttrs(span)[0].value.s;
      |v| >= |TracePrefix| && v[..|TracePrefix|] == TracePrefix && v[|TracePrefix|..] == span.traceID
  {
  }

  /** On a context without request values, the correlation attributes are all "". */
  lemma BackgroundCorrelation()
    ensures forall i :: 0 <= i < 4 ==> CorrelationAttrs(ContextUtil.Background)[i].value == StringValue("")
  {
    assert ContextUtil.GetServiceName(ContextUtil.Background) == "";
    assert ContextUtil.GetRequestID(ContextUtil.Background) == "";
    assert ContextUtil.GetFlowID(ContextUtil.Background) == "";
    assert ContextUtil.GetRootTaskID(ContextUtil.Background) == "";
  }

  /** The handler `spanContextLogHandler` wraps (the JSON handler): it records
      each (context, record) pair it is handed, and `answer` says what it
      returns for that pair (a write error, or nil). */
  class Delegate {
    var handled: seq<(ContextUtil.Context, Record)>
    const answer: (ContextUtil.Context, Record) -> Option<GoError>

    constructor (answer: (ContextUtil.Context, Record) -> Option<GoError>)
      ensures handled == [] && this.answer == answer
    {
      handled := [];
      this.answer := answer;
    }

    method Handle(ctx: ContextUtil.Context, record: Record) returns (err: Option<GoError>)
      modifies this`handled
      ensures handled == old(handled) + [(ctx, record)]
      ensures err == answer(ctx, record)
    {
      handled := handled + [(ctx, record)];
      err := answer(ctx, record);
    }
  }

  /** `spanContextLogHandler`, made by `handlerWithSpanContext`. */
  class SpanContextLogHandler {
    const handler: Delegate

    constructor (handler: Delegate)
      ensures this.handler == handler
    {
      this.handler := handler;
    }

    /** Adds the trace attributes (for a valid span) and the correlation
        attributes to its copy of the record, then hands it to the wrapped
        handler exactly once and returns that handler's answer. */
    method Handle(ctx: ContextUtil.Context, span: SpanContext, record: Record) returns (err: Option<GoError>)
      modifies handler`handled
      ensures handler.handled == old(handler.handled) + [(ctx, record.AddAttrs(Enrichment(ctx, span)))]
      ensures err == handler.answer(ctx, record.AddAttrs(Enrichment(ctx, span)))
    {
      var r := record;
      if span.valid {
        r := r.AddAttrs([Attr(TraceKey, StringValue(TracePrefix + span.traceID))]);
        r := r.AddAttrs([Attr(SpanIdKey, AnyValue(span.spanID))]);
        r := r.AddAttrs([Attr(TraceSampledKey, BoolValue(span.sampled))]);
      }
      r := r.AddAttrs([Attr("app", StringValue(ContextUtil.GetServiceName(ctx)))]);
      r := r.AddAttrs([Attr("rid", StringValue(ContextUtil.GetRequestID(ctx)))]);
      r := r.AddAttrs([Attr("flow-id", StringValue(ContextUtil.GetFlowID(ctx)))]);
      r := r.AddAttrs([Attr("root-task-id", StringValue(ContextUtil.GetRootTaskID(ctx)))]);
      assert r == record.AddAttrs(Enrichment(ctx, span));
      err := handler.Handle(ctx, r);
    }
  }
}
