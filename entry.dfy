/**
 * A log entry (entry.go), after the OpenTelemetry Logs Data Model: timestamp,
 * severity, body, trace correlation, resource and attributes.
 */
module EntryModel {
  import opened SeverityScale
  import opened AttributeModel

  /** Go's `type TraceFlags byte`. */
  type TraceFlags = bv8

  const TraceFlagsNone: TraceFlags := 0
  /** Declared as `1 << iota` on the second line of its const block, where iota is 1. */
  const TraceFlagsSampled: TraceFlags := 1 << 1

  /** The test both cloud sinks apply: `flags & TraceFlagsSampled != 0`. */
  predicate IsSampled(flags: TraceFlags)
    ensures IsSampled(flags) <==> (flags as int / 2) % 2 == 1
  {
    flags & TraceFlagsSampled != 0
  }

  /** A point in time (UTC); only its formatted renderings are observed. */
  datatype Instant = Instant(unixNanos: int)

  /** resource.Resource: identity of the emitting process. */
  type Resource = map<string, Value>

  datatype Entry = Entry(
    timestamp: Instant,
    severity: Severity,
    body: Value,
    traceID: string,
    spanID: string,
    traceFlags: TraceFlags,
    resource: Resource,
    attributes: Attributes
  )

  /** The flag constants: None is 0, Sampled is the single bit 2. */
  lemma TraceFlagValues()
    ensures TraceFlagsNone as int == 0 && TraceFlagsSampled as int == 2
    ensures TraceFlagsNone & TraceFlagsSampled == 0
    ensures !IsSampled(TraceFlagsNone) && IsSampled(TraceFlagsSampled)
  {
  }
}
