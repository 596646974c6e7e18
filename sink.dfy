/**
 * The Sink interface (sink.go) and its four implementations, as one class whose
 * `kind` selects the behaviour: SimpleSink (simple_sink.go), SimpleLogger
 * (simple_logger.go), the Cloud Logging client adapter and the JSON writer adapter
 * (sinks/gcp/gcp.go). `calls` records the interface calls made on the sink;
 * `output` records what the sink produced.
 */
module Sinks {
  import opened Wrappers
  import opened AttributeModel
  import opened EntryModel
  import opened Printing
  import opened SimpleSinks
  import opened Gcp

  datatype SinkKind =
    | SimpleSink
    | SimpleLogger
    | GcpSink(projectID: string)         // gcp.New: entries go to the logging client
    | GcpWriterSink(projectID: string)   // gcp.NewWriter: entries go to the writer as JSON

  /** A call on the Sink interface. */
  datatype Call = LogEntryCall(entry: Entry) | SyncCall

  /** An effect a sink has on the outside world. */
  datatype Output =
    | StdoutLine(line: string)                 // fmt.Println(line)
    | ClientLog(entry: CloudEntry)             // logger.Log(gcpEntry)
    | ClientFlush                              // logger.Flush()
    | WriterLine(object: map<string, Json>)    // json encoder: one object per line

  /** What one LogEntry call produces. */
  function Emitted(kind: SinkKind, f: Formats, e: Entry): (o: Output)
    ensures o.StdoutLine? <==> kind.SimpleSink? || kind.SimpleLogger?
    ensures o.ClientLog? <==> kind.GcpSink?
    ensures o.WriterLine? <==> kind.GcpWriterSink?
    ensures !o.ClientFlush?
  {
    match kind
    case SimpleSink => StdoutLine(Line(f, e))
    case SimpleLogger => StdoutLine(Line(f, e))
    case GcpSink(projectID) => ClientLog(CloudEntryOf(projectID, f, e))
    case GcpWriterSink(projectID) => WriterLine(WriterObject(projectID, f, e))
  }

  /** What one Sync call produces: only the client adapter touches anything. */
  function SyncEffect(kind: SinkKind): (effects: seq<Output>)
    ensures |effects| <= 1
    ensures forall i :: 0 <= i < |effects| ==> effects[i] == ClientFlush
    ensures effects != [] <==> kind.GcpSink?
  {
    if kind.GcpSink? then [ClientFlush] else []
  }

  /** Sync's result: the client's flush result for the client adapter, nil otherwise. */
  function SyncResult(kind: SinkKind, clientFlush: Option<Failure>): (err: Option<Failure>)
    ensures kind.GcpSink? ==> err == clientFlush
    ensures !kind.GcpSink? ==> err == None
  {
    if kind.GcpSink? then clientFlush else None
  }

  /** SimpleLogger is SimpleSink under another name. */
  lemma SimpleLoggerIsSimpleSink(f: Formats, e: Entry)
    ensures Emitted(SimpleLogger, f, e) == Emitted(SimpleSink, f, e)
    ensures SyncEffect(SimpleLogger) == SyncEffect(SimpleSink) == []
  {
  }

  /** Between two states: `s` received one LogEntry of `e` and nothing else. */
  twostate predicate LoggedOnce(s: Sink, e: Entry)
    reads s
  {
    && s.calls == old(s.calls) + [LogEntryCall(e)]
    && s.output == old(s.output) + [Emitted(s.kind, s.formats, e)]
  }

  /** Between two states: `s` received a LogEntry of `e`, then a Sync, and nothing else. */
  twostate predicate LoggedThenSynced(s: Sink, e: Entry)
    reads s
  {
    && s.calls == old(s.calls) + [LogEntryCall(e), SyncCall]
    && s.output == old(s.output) + [Emitted(s.kind, s.formats, e)] + SyncEffect(s.kind)
  }

  class Sink {
    const kind: SinkKind
    /** The process's time and fmt renderings. */
    const formats: Formats
    var output: seq<Output>
    ghost var calls: seq<Call>

    /** `&SimpleSink{}`, `&SimpleLogger{}`, gcp.New or gcp.NewWriter. */
    constructor (kind: SinkKind, formats: Formats)
      ensures this.kind == kind && this.formats == formats && output == [] && calls == []
    {
      this.kind := kind;
      this.formats := formats;
      output := [];
      calls := [];
    }

    /** LogEntry: exactly one effect per call. */
    method LogEntry(e: Entry)
      modifies this
      ensures calls == old(calls) + [LogEntryCall(e)]
      ensures output == old(output) + [Emitted(kind, formats, e)]
    {
      var effect: Output;
      match kind {
      case SimpleSink =>
        var line := BuildLine(formats, e);
        effect := StdoutLine(line);
      case SimpleLogger =>
        var line := BuildLine(formats, e);
        effect := StdoutLine(line);
      case GcpSink(projectID) =>
        var ce := BuildCloudEntry(projectID, formats, e);
        effect := ClientLog(ce);
      case GcpWriterSink(projectID) =>
        var obj := BuildWriterObject(projectID, formats, e);
        effect := WriterLine(obj);
      }
      output := output + [effect];
      calls := calls + [LogEntryCall(e)];
    }

    /** Sync; `clientFlush` is what the logging client's Flush returns. */
    method Sync(clientFlush: Option<Failure>) returns (err: Option<Failure>)
      modifies this
      ensures calls == old(calls) + [SyncCall]
      ensures output == old(output) + SyncEffect(kind)
      ensures err == SyncResult(kind, clientFlush)
    {
      if kind.GcpSink? {
        output := output + [ClientFlush];
        err := clientFlush;
      } else {
        err := None;
      }
      calls := calls + [SyncCall];
    }
  }
}
