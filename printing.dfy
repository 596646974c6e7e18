/**
 * The renderings the sinks take from Go's runtime: time formatting and the fmt
 * package's %v and %s verbs. For strings, integers, booleans, errors and nil the
 * verbs are defined as fmt documents them; everything else is a parameter.
 */
module Printing {
  import opened Decimal
  import opened AttributeModel
  import opened EntryModel

  datatype Formats = Formats(
    rfc3339: Instant -> string,          // Time.Format(time.RFC3339)
    rfc3339Nano: Instant -> string,      // Time.Format(time.RFC3339Nano)
    opaqueV: nat -> string,              // %v of an opaque value
    opaqueS: nat -> string,              // %s of an opaque value
    backendSeverityName: int -> string   // String() of the cloud library's integer severity
  )

  function BoolText(b: bool): string {
    if b then "true" else "false"
  }

  /** fmt's %v verb. */
  function FormatV(f: Formats, v: Value): string {
    match v
    case Str(s) => s
    case Int(i) => Itoa(i)
    case Bool(b) => BoolText(b)
    case Err(err) => err.message
    case Nil => "<nil>"
    case Opaque(t) => f.opaqueV(t)
  }

  /** fmt's %s verb: a wrong-kind operand renders as %!s(type=value). */
  function FormatS(f: Formats, v: Value): string {
    match v
    case Str(s) => s
    case Int(i) => "%!s(int=" + Itoa(i) + ")"
    case Bool(b) => "%!s(bool=" + BoolText(b) + ")"
    case Err(err) => err.message
    case Nil => "%!s(<nil>)"
    case Opaque(t) => f.opaqueS(t)
  }

  /** The two verbs agree exactly on the values that are already text. */
  lemma VerbsAgreeOnText(f: Formats, v: Value)
    requires !v.Opaque?
    ensures FormatV(f, v) == FormatS(f, v) <==> v.Str? || v.Err?
  {
    match v
    case Int(i) =>
      assert |FormatS(f, v)| > |FormatV(f, v)|;
    case Bool(b) =>
      assert |FormatS(f, v)| > |FormatV(f, v)|;
    case Nil =>
      assert FormatS(f, v)[0] != FormatV(f, v)[0];
    case _ =>
  }
}
