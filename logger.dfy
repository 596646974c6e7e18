/**
 * Logger (logger.go): the leveled API bound to a chosen sink instead of the
 * package's DefaultSink. The methods use the same severities as the package-level
 * functions and never reassign the sink.
 */
module Loggers {
  import opened Wrappers
  import opened SeverityScale
  import opened AttributeModel
  import opened EntryModel
  import opened Sinks
  import opened LogPackage

  class Logger {
    var sink: Sink

    /** NewLogger */
    constructor (sink: Sink)
      ensures this.sink == sink
    {
      this.sink := sink;
    }

    method Print(ctx: Context, now: Instant, message: string, attrs: Attributes)
      modifies sink
      ensures unchanged(this)
      ensures LoggedOnce(sink, CreateEntry(ctx, now, SeverityTrace1, message, attrs))
    {
      sink.LogEntry(CreateEntry(ctx, now, PrintSeverity, message, attrs));
    }

    method Debug(ctx: Context, now: Instant, message: string, attrs: Attributes)
      modifies sink
      ensures unchanged(this)
      ensures LoggedOnce(sink, CreateEntry(ctx, now, SeverityDebug1, message, attrs))
    {
      sink.LogEntry(CreateEntry(ctx, now, DebugSeverity, message, attrs));
    }

    method Info(ctx: Context, now: Instant, message: string, attrs: Attributes)
      modifies sink
      ensures unchanged(this)
      ensures LoggedOnce(sink, CreateEntry(ctx, now, SeverityInfo1, message, attrs))
    {
      sink.LogEntry(CreateEntry(ctx, now, InfoSeverity, message, attrs));
    }

    method Notice(ctx: Context, now: Instant, message: string, attrs: Attributes)
      modifies sink
      ensures unchanged(this)
      ensures LoggedOnce(sink, CreateEntry(ctx, now, SeverityInfo2, message, attrs))
    {
      sink.LogEntry(CreateEntry(ctx, now, NoticeSeverity, message, attrs));
    }

    method Warning(ctx: Context, now: Instant, message: string, attrs: Attributes)
      modifies sink
      ensures unchanged(this)
      ensures LoggedOnce(sink, CreateEntry(ctx, now, SeverityWarn1, message, attrs))
    {
      sink.LogEntry(CreateEntry(ctx, now, WarningSeverity, message, attrs));
    }

    method Error(ctx: Context, now: Instant, message: string, attrs: Attributes)
      modifies sink
      ensures unchanged(this)
      ensures LoggedOnce(sink, CreateEntry(ctx, now, SeverityError1, message, attrs))
    {
      sink.LogEntry(CreateEntry(ctx, now, ErrorSeverity, message, attrs));
    }

    method Critical(ctx: Context, now: Instant, message: string, attrs: Attributes)
      modifies sink
      ensures unchanged(this)
      ensures LoggedOnce(sink, CreateEntry(ctx, now, SeverityError3, message, attrs))
    {
      sink.LogEntry(CreateEntry(ctx, now, CriticalSeverity, message, attrs));
    }

    /** LogEntry, then Sync; `clientFlush` is what a cloud client's Flush would return. */
    method Fatal(ctx: Context, now: Instant, message: string, attrs: Attributes, clientFlush: Option<Failure>)
      returns (t: Termination)
      modifies sink
      ensures unchanged(this)
      ensures LoggedThenSynced(sink, CreateEntry(ctx, now, SeverityFatal1, message, attrs))
      ensures t == FatalOutcome(SyncResult(sink.kind, clientFlush))
    {
      sink.LogEntry(CreateEntry(ctx, now, FatalSeverity, message, attrs));
      var err := sink.Sync(clientFlush);
      if err.Some? {
        t := Panicked(err.value);
      } else {
        t := Exited(1);
      }
    }

    method Alert(ctx: Context, now: Instant, message: string, attrs: Attributes)
      modifies sink
      ensures unchanged(this)
      ensures LoggedOnce(sink, CreateEntry(ctx, now, SeverityFatal2, message, attrs))
    {
      sink.LogEntry(CreateEntry(ctx, now, AlertSeverity, message, attrs));
    }

    method Emergency(ctx: Context, now: Instant, message: string, attrs: Attributes)
      modifies sink
      ensures unchanged(this)
      ensures LoggedOnce(sink, CreateEntry(ctx, now, SeverityFatal4, message, attrs))
    {
      sink.LogEntry(CreateEntry(ctx, now, EmergencySeverity, message, attrs));
    }
  }
}
