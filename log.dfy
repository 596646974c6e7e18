/**
 * The package-level API (log.go): the entry factory, the fixed severity of each
 * leveled function, the Fatal sequence, and the package's DefaultSink.
 */
module LogPackage {
  import opened Wrappers
  import opened Decimal
  import opened SeverityScale
  import opened AttributeModel
  import opened EntryModel
  import opened Printing
  import opened SimpleSinks
  import opened Gcp
  import opened Sinks

  /**
   * What the entry factory reads from a context.Context: the active span's trace id,
   * span id (both as the tracing library renders them) and sampled bit, and the
   * resource bound to the context (an empty map when none is).
   */
  datatype SpanContext = SpanContext(traceID: string, spanID: string, sampled: bool)
  datatype Context = Context(span: SpanContext, resource: Resource)

  /** createEntry; `now` is time.Now().UTC() at the call. */
  function CreateEntry(ctx: Context, now: Instant, severity: Severity, message: string, attrs: Attributes): (e: Entry)
    ensures e.timestamp == now && e.severity == severity && e.body == Str(message) && e.attributes == attrs
    ensures e.traceID == ctx.span.traceID && e.spanID == ctx.span.spanID
    ensures e.traceFlags == if ctx.span.sampled then TraceFlagsSampled else TraceFlagsNone
    ensures e.resource == ctx.resource
  {
    var flags := TraceFlagsNone;
    var flags' := if ctx.span.sampled then flags | TraceFlagsSampled else flags;
    Entry(now, severity, Str(message), ctx.span.traceID, ctx.span.spanID, flags', ctx.resource, attrs)
  }

  /** The sinks' sampled test on a created entry is exactly the span's sampled bit. */
  lemma CreatedEntrySampled(ctx: Context, now: Instant, severity: Severity, message: string, attrs: Attributes)
    ensures IsSampled(CreateEntry(ctx, now, severity, message, attrs).traceFlags) <==> ctx.span.sampled
  {
    TraceFlagValues();
  }

  // ---------------------------------------------------------------- tiers

  const PrintSeverity: Severity := SeverityTrace1
  const DebugSeverity: Severity := SeverityDebug1
  const InfoSeverity: Severity := SeverityInfo1
  const NoticeSeverity: Severity := SeverityInfo2
  const WarningSeverity: Severity := SeverityWarn1
  const ErrorSeverity: Severity := SeverityError1
  const CriticalSeverity: Severity := SeverityError3
  const FatalSeverity: Severity := SeverityFatal1
  const AlertSeverity: Severity := SeverityFatal2
  const EmergencySeverity: Severity := SeverityFatal4

  /** The leveled functions' severities, in declaration order. */
  const Tiers: seq<Severity> := [
    PrintSeverity, DebugSeverity, InfoSeverity, NoticeSeverity, WarningSeverity,
    ErrorSeverity, CriticalSeverity, FatalSeverity, AlertSeverity, EmergencySeverity
  ]

  /** Each later leveled function is strictly more severe. */
  lemma TiersIncreasing()
    ensures forall i, j :: 0 <= i < j < |Tiers| ==> Tiers[i] < Tiers[j]
  {
  }

  /** How the tiers land on the cloud scale: every backend level is reached, and only Critical and Fatal share one. */
  lemma TiersOnCloudScale()
    ensures MapSeverity(PrintSeverity) == Default && MapSeverity(DebugSeverity) == Debug
    ensures MapSeverity(InfoSeverity) == Info && MapSeverity(NoticeSeverity) == Notice
    ensures MapSeverity(WarningSeverity) == Warning && MapSeverity(ErrorSeverity) == Error
    ensures MapSeverity(CriticalSeverity) == Critical && MapSeverity(FatalSeverity) == Critical
    ensures MapSeverity(AlertSeverity) == Alert && MapSeverity(EmergencySeverity) == Emergency
  {
  }

  // ---------------------------------------------------------------- Fatal

  /** How a Fatal call ends; it never returns to its caller normally. */
  datatype Termination = Panicked(err: Failure) | Exited(status: int)

  /** After the sync: panic with its error, or os.Exit(1). */
  function FatalOutcome(syncErr: Option<Failure>): (t: Termination)
    ensures t.Exited? <==> syncErr.None?
    ensures t.Exited? ==> t.status == 1
    ensures t.Panicked? ==> syncErr == Some(t.err)
  {
    match syncErr
    case Some(err) => Panicked(err)
    case None => Exited(1)
  }

  /** Only a failing client flush makes Fatal panic; every other sink exits with status 1. */
  lemma FatalPanicsOnlyOnFlushFailure(kind: SinkKind, clientFlush: Option<Failure>)
    ensures FatalOutcome(SyncResult(kind, clientFlush)).Panicked? <==> kind.GcpSink? && clientFlush.Some?
    ensures !kind.GcpSink? ==> FatalOutcome(SyncResult(kind, clientFlush)) == Exited(1)
  {
  }

  // ---------------------------------------------------------------- package state

  /** The package's global state: `var DefaultSink Sink = &SimpleSink{}`. */
  class Package {
    var defaultSink: Sink

    constructor (formats: Formats)
      ensures fresh(defaultSink)
      ensures defaultSink.kind == SimpleSink && defaultSink.formats == formats
      ensures defaultSink.output == [] && defaultSink.calls == []
    {
      defaultSink := new Sink(SimpleSink, formats);
    }

    method Print(ctx: Context, now: Instant, message: string, attrs: Attributes)
      modifies defaultSink
      ensures LoggedOnce(defaultSink, CreateEntry(ctx, now, SeverityTrace1, message, attrs))
    {
      defaultSink.LogEntry(CreateEntry(ctx, now, PrintSeverity, message, attrs));
    }

    method Debug(ctx: Context, now: Instant, message: string, attrs: Attributes)
      modifies defaultSink
      ensures LoggedOnce(defaultSink, CreateEntry(ctx, now, SeverityDebug1, message, attrs))
    {
      defaultSink.LogEntry(CreateEntry(ctx, now, DebugSeverity, message, attrs));
    }

    method Info(ctx: Context, now: Instant, message: string, attrs: Attributes)
      modifies defaultSink
      ensures LoggedOnce(defaultSink, CreateEntry(ctx, now, SeverityInfo1, message, attrs))
    {
      defaultSink.LogEntry(CreateEntry(ctx, now, InfoSeverity, message, attrs));
    }

    method Notice(ctx: Context, now: Instant, message: string, attrs: Attributes)
      modifies defaultSink
      ensures LoggedOnce(defaultSink, CreateEntry(ctx, now, SeverityInfo2, message, attrs))
    {
      defaultSink.LogEntry(CreateEntry(ctx, now, NoticeSeverity, message, attrs));
    }

    method Warning(ctx: Context, now: Instant, message: string, attrs: Attributes)
      modifies defaultSink
      ensures LoggedOnce(defaultSink, CreateEntry(ctx, now, SeverityWarn1, message, attrs))
    {
      defaultSink.LogEntry(CreateEntry(ctx, now, WarningSeverity, message, attrs));
    }

    method Error(ctx: Context, now: Instant, message: string, attrs: Attributes)
      modifies defaultSink
      ensures LoggedOnce(defaultSink, CreateEntry(ctx, now, SeverityError1, message, attrs))
    {
      defaultSink.LogEntry(CreateEntry(ctx, now, ErrorSeverity, message, attrs));
    }

    method Critical(ctx: Context, now: Instant, message: string, attrs: Attributes)
      modifies defaultSink
      ensures LoggedOnce(defaultSink, CreateEntry(ctx, now, SeverityError3, message, attrs))
    {
      defaultSink.LogEntry(CreateEntry(ctx, now, CriticalSeverity, message, attrs));
    }

    /** LogEntry, then Sync; `clientFlush` is what a cloud client's Flush would return. */
    method Fatal(ctx: Context, now: Instant, message: string, attrs: Attributes, clientFlush: Option<Failure>)
      returns (t: Termination)
      modifies defaultSink
      ensures LoggedThenSynced(defaultSink, CreateEntry(ctx, now, SeverityFatal1, message, attrs))
      ensures t == FatalOutcome(SyncResult(defaultSink.kind, clientFlush))
    {
      defaultSink.LogEntry(CreateEntry(ctx, now, FatalSeverity, message, attrs));
      var err := defaultSink.Sync(clientFlush);
      if err.Some? {
        t := Panicked(err.value);
      } else {
        t := Exited(1);
      }
    }

    method Alert(ctx: Context, now: Instant, message: string, attrs: Attributes)
      modifies defaultSink
      ensures LoggedOnce(defaultSink, CreateEntry(ctx, now, SeverityFatal2, message, attrs))
    {
      defaultSink.LogEntry(CreateEntry(ctx, now, AlertSeverity, message, attrs));
    }

    method Emergency(ctx: Context, now: Instant, message: string, attrs: Attributes)
      modifies defaultSink
      ensures LoggedOnce(defaultSink, CreateEntry(ctx, now, SeverityFatal4, message, attrs))
    {
      defaultSink.LogEntry(CreateEntry(ctx, now, EmergencySeverity, message, attrs));
    }
  }

  // ---------------------------------------------------------------- end to end

  /** Info("hello") on the stdout sink: no parenthetical for no attributes, " (x: 5)" for x = 5. */
  lemma InfoHelloLines(f: Formats, ctx: Context, now: Instant)
    ensures Line(f, CreateEntry(ctx, now, InfoSeverity, "hello", NilAttributes)) == f.rfc3339(now) + " INFO1 hello"
    ensures Line(f, CreateEntry(ctx, now, InfoSeverity, "hello", Slice([A("x", Int(5))])))
         == f.rfc3339(now) + " INFO1 hello (x: 5)"
  {
    assert Itoa(5) == "5";
    assert SeverityString(InfoSeverity) == "INFO1";
  }

  /** An entry created in a context reaches the writer with trace keys exactly when the span is sampled. */
  lemma ContextReachesWriter(projectID: string, f: Formats, ctx: Context, now: Instant, severity: Severity, message: string, attrs: Attributes)
    ensures var obj := WriterObject(projectID, f, CreateEntry(ctx, now, severity, message, attrs));
      && obj.Keys == (if ctx.span.sampled then BaseKeys + TraceKeys else BaseKeys)
      && obj[MessageKey] == JString(message)
      && (ctx.span.sampled ==>
            obj[TraceKey] == JString(TraceName(projectID, ctx.span.traceID))
            && obj[SpanIDKey] == JString(ctx.span.spanID))
  {
    var e := CreateEntry(ctx, now, severity, message, attrs);
    CreatedEntrySampled(ctx, now, severity, message, attrs);
    WriterObjectKeys(projectID, f, e);
    WriterObjectValues(projectID, f, e);
  }

  /** The client entry carries the trace fields exactly when the span is sampled, and none otherwise. */
  lemma ContextReachesClient(projectID: string, f: Formats, ctx: Context, now: Instant, severity: Severity, message: string, attrs: Attributes)
    ensures var ce := CloudEntryOf(projectID, f, CreateEntry(ctx, now, severity, message, attrs));
      && ce.payload == Str(message)
      && ce.traceSampled == ctx.span.sampled
      && (ctx.span.sampled ==> ce.trace == TraceName(projectID, ctx.span.traceID) && ce.spanID == ctx.span.spanID)
      && (!ctx.span.sampled ==> ce.trace == "" && ce.spanID == "")
  {
    CreatedEntrySampled(ctx, now, severity, message, attrs);
  }
}
