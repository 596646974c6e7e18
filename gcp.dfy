/**
 * The Google Cloud Logging adapters (sinks/gcp/gcp.go): the severity table, the
 * label map, the entry handed to the logging client, and the JSON object the writer
 * variant encodes (structured-logging field names of Cloud Logging).
 */
module Gcp {
  import opened SeverityScale
  import opened AttributeModel
  import opened EntryModel
  import opened Printing

  /** logging.Severity, the backend's nine levels. */
  datatype CloudSeverity = Default | Debug | Info | Notice | Warning | Error | Critical | Alert | Emergency

  /** The backend's integer value of each level (its zero value is Default). */
  function Code(c: CloudSeverity): int {
    match c
    case Default => 0
    case Debug => 100
    case Info => 200
    case Notice => 300
    case Warning => 400
    case Error => 500
    case Critical => 600
    case Alert => 700
    case Emergency => 800
  }

  const SeverityMap: map<Severity, CloudSeverity> := map[
    SeverityNone := Default,
    SeverityTrace1 := Default,
    SeverityTrace2 := Default,
    SeverityTrace3 := Default,
    SeverityTrace4 := Default,
    SeverityDebug1 := Debug,
    SeverityDebug2 := Debug,
    SeverityDebug3 := Debug,
    SeverityDebug4 := Debug,
    SeverityInfo1 := Info,
    SeverityInfo2 := Notice,
    SeverityInfo3 := Notice,
    SeverityInfo4 := Notice,
    SeverityWarn1 := Warning,
    SeverityWarn2 := Warning,
    SeverityWarn3 := Warning,
    SeverityWarn4 := Warning,
    SeverityError1 := Error,
    SeverityError2 := Error,
    SeverityError3 := Critical,
    SeverityError4 := Critical,
    SeverityFatal1 := Critical,
    SeverityFatal2 := Alert,
    SeverityFatal3 := Alert,
    SeverityFatal4 := Emergency
  ]

  /** `severityMap[e.Severity]`: a key that is missing yields the zero value, Default. */
  function MapSeverity(v: Severity): (c: CloudSeverity)
    ensures SeverityNone <= v <= SeverityFatal4 ==> c == SeverityMap[v]
    ensures v < SeverityNone || SeverityFatal4 < v ==> c == Default
  {
    if v in SeverityMap then SeverityMap[v] else Default
  }

  // ---------------------------------------------------------------- severity table

  /** The table has an entry for each of the 25 severities and for nothing else. */
  lemma SeverityMapTotal(v: Severity)
    ensures v in SeverityMap <==> v in SeverityName
  {
  }

  /** Unnamed severities, negative or above Fatal4, become Default. */
  lemma MapSeverityUnnamed(v: Severity)
    requires v < SeverityNone || SeverityFatal4 < v
    ensures MapSeverity(v) == Default
  {
  }

  lemma MapSeverityStep(v: Severity)
    requires SeverityNone <= v < SeverityFatal4
    ensures Code(MapSeverity(v)) <= Code(MapSeverity(v + 1))
  {
  }

  /** A more severe named severity never maps to a less severe backend level. */
  lemma {:induction false} MapSeverityMonotone(a: Severity, b: Severity)
    requires SeverityNone <= a <= b <= SeverityFatal4
    ensures Code(MapSeverity(a)) <= Code(MapSeverity(b))
    decreases b - a
  {
    if a < b {
      MapSeverityStep(a);
      MapSeverityMonotone(a + 1, b);
    }
  }

  /** Every backend level is the image of some named severity. */
  lemma MapSeverityOnto(c: CloudSeverity)
    ensures exists v :: SeverityNone <= v <= SeverityFatal4 && MapSeverity(v) == c
  {
    var v := match c
      case Default => SeverityNone
      case Debug => SeverityDebug1
      case Info => SeverityInfo1
      case Notice => SeverityInfo2
      case Warning => SeverityWarn1
      case Error => SeverityError1
      case Critical => SeverityError3
      case Alert => SeverityFatal2
      case Emergency => SeverityFatal4;
    assert MapSeverity(v) == c;
  }

  // ---------------------------------------------------------------- labels

  /** The label map after assigning the attributes' %v renderings one by one. */
  function Labels(f: Formats, attrs: seq<Attribute>): (labels: map<string, string>)
    ensures |labels| <= |attrs|
    decreases |attrs|
  {
    if attrs == [] then map[]
    else
      var last := attrs[|attrs| - 1];
      Labels(f, attrs[..|attrs| - 1])[last.name := FormatV(f, last.value)]
  }

  function Names(attrs: seq<Attribute>): set<string> {
    set i | 0 <= i < |attrs| :: attrs[i].name
  }

  /** Exactly the attribute names are keys. */
  lemma {:induction false} LabelKeys(f: Formats, attrs: seq<Attribute>)
    ensures Labels(f, attrs).Keys == Names(attrs)
    decreases |attrs|
  {
    if attrs != [] {
      var init := attrs[..|attrs| - 1];
      LabelKeys(f, init);
      assert Names(attrs) == Names(init) + {attrs[|attrs| - 1].name} by {
        forall k | k in Names(attrs) ensures k in Names(init) + {attrs[|attrs| - 1].name} {
          var i :| 0 <= i < |attrs| && attrs[i].name == k;
          if i < |attrs| - 1 {
            assert init[i].name == k;
          }
        }
        forall k | k in Names(init) ensures k in Names(attrs) {
          var i :| 0 <= i < |init| && init[i].name == k;
          assert attrs[i].name == k;
        }
      }
    }
  }

  /** For a repeated name the last attribute carrying it wins. */
  lemma {:induction false} LabelLastWins(f: Formats, attrs: seq<Attribute>, i: nat)
    requires i < |attrs|
    requires forall j :: i < j < |attrs| ==> attrs[j].name != attrs[i].name
    ensures attrs[i].name in Labels(f, attrs)
    ensures Labels(f, attrs)[attrs[i].name] == FormatV(f, attrs[i].value)
    decreases |attrs|
  {
    if i < |attrs| - 1 {
      var init := attrs[..|attrs| - 1];
      LabelLastWins(f, init, i);
    }
  }

  /** The loop `labels[a.Name] = fmt.Sprintf("%v", a.Value)` over the attributes. */
  method BuildLabels(f: Formats, attributes: Attributes) returns (labels: map<string, string>)
    ensures labels == Labels(f, attributes.Items())
  {
    var attrs := attributes.Items();
    labels := map[];
    for i := 0 to |attrs|
      invariant labels == Labels(f, attrs[..i])
    {
      assert attrs[..i + 1][..i] == attrs[..i];
      labels := labels[attrs[i].name := FormatV(f, attrs[i].value)];
    }
    assert attrs[..|attrs|] == attrs;
  }

  // ---------------------------------------------------------------- client entry

  /** logging.Entry, restricted to the fields this adapter sets. */
  datatype CloudEntry = CloudEntry(
    timestamp: Instant,
    severity: CloudSeverity,
    payload: Value,
    labels: map<string, string>,
    trace: string,
    spanID: string,
    traceSampled: bool
  )

  /** The project-scoped trace name "projects/<id>/traces/<traceID>". */
  function TraceName(projectID: string, traceID: string): (r: string)
    ensures |r| == |projectID| + |traceID| + 17
  {
    "projects/" + projectID + "/traces/" + traceID
  }

  /** Within one project the trace name determines the trace id. */
  lemma TraceNameInjective(projectID: string, t1: string, t2: string)
    ensures TraceName(projectID, t1) == TraceName(projectID, t2) ==> t1 == t2
  {
    var n := |projectID| + 17;
    if TraceName(projectID, t1) == TraceName(projectID, t2) {
      assert TraceName(projectID, t1)[n..] == t1;
      assert TraceName(projectID, t2)[n..] == t2;
    }
  }

  /** The entry Sink.LogEntry hands to the client. */
  function CloudEntryOf(projectID: string, f: Formats, e: Entry): (ce: CloudEntry)
    ensures ce.timestamp == e.timestamp && ce.severity == MapSeverity(e.severity) && ce.payload == e.body
    ensures ce.labels == Labels(f, e.attributes.Items())
    ensures IsSampled(e.traceFlags) ==>
      ce.trace == TraceName(projectID, e.traceID) && ce.spanID == e.spanID && ce.traceSampled
    ensures !IsSampled(e.traceFlags) ==> ce.trace == "" && ce.spanID == "" && !ce.traceSampled
  {
    var base := CloudEntry(e.timestamp, MapSeverity(e.severity), e.body, Labels(f, e.attributes.Items()), "", "", false);
    if IsSampled(e.traceFlags) then
      base.(trace := TraceName(projectID, e.traceID), spanID := e.spanID, traceSampled := true)
    else
      base
  }

  /** Sink.LogEntry up to the client call: labels loop, entry, then the sampled fields. */
  method BuildCloudEntry(projectID: string, f: Formats, e: Entry) returns (ce: CloudEntry)
    ensures ce == CloudEntryOf(projectID, f, e)
  {
    var labels := BuildLabels(f, e.attributes);
    ce := CloudEntry(e.timestamp, MapSeverity(e.severity), e.body, labels, "", "", false);
    if IsSampled(e.traceFlags) {
      ce := ce.(trace := TraceName(projectID, e.traceID));
      ce := ce.(spanID := e.spanID);
      ce := ce.(traceSampled := IsSampled(e.traceFlags));
    }
  }

  // ---------------------------------------------------------------- writer JSON

  /** The JSON values the writer variant puts in its object. */
  datatype Json = JString(s: string) | JBool(b: bool) | JObject(fields: map<string, string>)

  const TimeKey := "time"
  const SeverityKey := "severity"
  const MessageKey := "message"
  const LabelsKey := "logging.googleapis.com/labels"
  const SpanIDKey := "logging.googleapis.com/spanId"
  const TraceKey := "logging.googleapis.com/trace"
  const TraceSampledKey := "logging.googleapis.com/trace_sampled"

  const BaseKeys: set<string> := {TimeKey, SeverityKey, MessageKey, LabelsKey}
  const TraceKeys: set<string> := {SpanIDKey, TraceKey, TraceSampledKey}

  /** The object WriterSink.LogEntry encodes for an entry. */
  function WriterObject(projectID: string, f: Formats, e: Entry): (obj: map<string, Json>)
    ensures BaseKeys <= obj.Keys
    ensures TraceKey in obj <==> IsSampled(e.traceFlags)
  {
    var base := map[
      TimeKey := JString(f.rfc3339Nano(e.timestamp)),
      SeverityKey := JString(f.backendSeverityName(Code(MapSeverity(e.severity)))),
      MessageKey := JString(FormatS(f, e.body)),
      LabelsKey := JObject(Labels(f, e.attributes.Items()))
    ];
    if IsSampled(e.traceFlags) then
      base[SpanIDKey := JString(e.spanID)]
          [TraceKey := JString(TraceName(projectID, e.traceID))]
          [TraceSampledKey := JBool(true)]
    else
      base
  }

  /** WriterSink.LogEntry up to the encode: labels loop, four keys, then three more if sampled. */
  method BuildWriterObject(projectID: string, f: Formats, e: Entry) returns (obj: map<string, Json>)
    ensures obj == WriterObject(projectID, f, e)
  {
    var labels := BuildLabels(f, e.attributes);
    obj := map[
      TimeKey := JString(f.rfc3339Nano(e.timestamp)),
      SeverityKey := JString(f.backendSeverityName(Code(MapSeverity(e.severity)))),
      MessageKey := JString(FormatS(f, e.body)),
      LabelsKey := JObject(labels)
    ];
    if IsSampled(e.traceFlags) {
      obj := obj[SpanIDKey := JString(e.spanID)];
      obj := obj[TraceKey := JString(TraceName(projectID, e.traceID))];
      obj := obj[TraceSampledKey := JBool(IsSampled(e.traceFlags))];
    }
  }

  /** Four keys for an unsampled entry, seven for a sampled one. */
  lemma WriterObjectKeys(projectID: string, f: Formats, e: Entry)
    ensures !IsSampled(e.traceFlags) ==> WriterObject(projectID, f, e).Keys == BaseKeys
    ensures IsSampled(e.traceFlags) ==> WriterObject(projectID, f, e).Keys == BaseKeys + TraceKeys
    ensures |WriterObject(projectID, f, e).Keys| == if IsSampled(e.traceFlags) then 7 else 4
  {
    assert |BaseKeys| == 4;
    assert BaseKeys !! TraceKeys;
    assert |TraceKeys| == 3;
  }

  /** What the fixed keys hold, and the trace fields of a sampled entry. */
  lemma WriterObjectValues(projectID: string, f: Formats, e: Entry)
    ensures WriterObject(projectID, f, e)[MessageKey] == JString(FormatS(f, e.body))
    ensures WriterObject(projectID, f, e)[SeverityKey] == JString(f.backendSeverityName(Code(MapSeverity(e.severity))))
    ensures WriterObject(projectID, f, e)[LabelsKey] == JObject(Labels(f, e.attributes.Items()))
    ensures IsSampled(e.traceFlags) ==>
      && WriterObject(projectID, f, e)[TraceKey] == JString(TraceName(projectID, e.traceID))
      && WriterObject(projectID, f, e)[SpanIDKey] == JString(e.spanID)
      && WriterObject(projectID, f, e)[TraceSampledKey] == JBool(true)
  {
    WriterObjectKeys(projectID, f, e);
  }
}
