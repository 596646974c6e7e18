/**
 * The severity scale of a log entry (severity.go): an integer, numerically larger
 * meaning more severe, with 25 named values following the OpenTelemetry Logs Data
 * Model's SeverityNumber (0 = unset, TRACE 1-4, DEBUG 5-8, INFO 9-12, WARN 13-16,
 * ERROR 17-20, FATAL 21-24).
 */
module SeverityScale {
  import opened Decimal

  /** Go's `type Severity int`: any integer is a Severity, named or not. */
  type Severity = int

  const SeverityNone: Severity := 0
  const SeverityTrace1: Severity := 1
  const SeverityTrace2: Severity := 2
  const SeverityTrace3: Severity := 3
  const SeverityTrace4: Severity := 4
  const SeverityDebug1: Severity := 5
  const SeverityDebug2: Severity := 6
  const SeverityDebug3: Severity := 7
  const SeverityDebug4: Severity := 8
  const SeverityInfo1: Severity := 9
  const SeverityInfo2: Severity := 10
  const SeverityInfo3: Severity := 11
  const SeverityInfo4: Severity := 12
  const SeverityWarn1: Severity := 13
  const SeverityWarn2: Severity := 14
  const SeverityWarn3: Severity := 15
  const SeverityWarn4: Severity := 16
  const SeverityError1: Severity := 17
  const SeverityError2: Severity := 18
  const SeverityError3: Severity := 19
  const SeverityError4: Severity := 20
  const SeverityFatal1: Severity := 21
  const SeverityFatal2: Severity := 22
  const SeverityFatal3: Severity := 23
  const SeverityFatal4: Severity := 24

  /** The constants in the order they are declared. */
  const Declared: seq<Severity> := [
    SeverityNone,
    SeverityTrace1, SeverityTrace2, SeverityTrace3, SeverityTrace4,
    SeverityDebug1, SeverityDebug2, SeverityDebug3, SeverityDebug4,
    SeverityInfo1, SeverityInfo2, SeverityInfo3, SeverityInfo4,
    SeverityWarn1, SeverityWarn2, SeverityWarn3, SeverityWarn4,
    SeverityError1, SeverityError2, SeverityError3, SeverityError4,
    SeverityFatal1, SeverityFatal2, SeverityFatal3, SeverityFatal4
  ]

  const SeverityName: map<Severity, string> := map[
    SeverityNone := "NONE",
    SeverityTrace1 := "TRACE1",
    SeverityTrace2 := "TRACE2",
    SeverityTrace3 := "TRACE3",
    SeverityTrace4 := "TRACE4",
    SeverityDebug1 := "DEBUG1",
    SeverityDebug2 := "DEBUG2",
    SeverityDebug3 := "DEBUG3",
    SeverityDebug4 := "DEBUG4",
    SeverityInfo1 := "INFO1",
    SeverityInfo2 := "INFO2",
    SeverityInfo3 := "INFO3",
    SeverityInfo4 := "INFO4",
    SeverityWarn1 := "WARN1",
    SeverityWarn2 := "WARN2",
    SeverityWarn3 := "WARN3",
    SeverityWarn4 := "WARN4",
    SeverityError1 := "ERROR1",
    SeverityError2 := "ERROR2",
    SeverityError3 := "ERROR3",
    SeverityError4 := "ERROR4",
    SeverityFatal1 := "FATAL1",
    SeverityFatal2 := "FATAL2",
    SeverityFatal3 := "FATAL3",
    SeverityFatal4 := "FATAL4"
  ]

  /** Severity.String: the table name, or the decimal form of an unnamed value. */
  function SeverityString(v: Severity): (s: string)
    ensures |s| > 0
  {
    if v in SeverityName then SeverityName[v] else Itoa(v)
  }

  /** The constants are 0, 1, ..., 24 in declaration order, hence strictly increasing. */
  lemma DeclaredConsecutive()
    ensures |Declared| == 25
    ensures forall i :: 0 <= i < |Declared| ==> Declared[i] == i
  {
  }

  /** The table names exactly the 25 declared constants. */
  lemma NamedAreDeclared(v: Severity)
    ensures v in SeverityName <==> 0 <= v <= 24
  {
  }

  /** Named values render as their table names: None and the Trace tier. */
  lemma SeverityStringNamedTrace()
    ensures SeverityString(SeverityNone) == "NONE"
    ensures SeverityString(SeverityTrace1) == "TRACE1" && SeverityString(SeverityTrace2) == "TRACE2"
    ensures SeverityString(SeverityTrace3) == "TRACE3" && SeverityString(SeverityTrace4) == "TRACE4"
  {
  }

  /** Named values render as their table names: the Debug and Info tiers. */
  lemma SeverityStringNamedDebugInfo()
    ensures SeverityString(SeverityDebug1) == "DEBUG1" && SeverityString(SeverityDebug2) == "DEBUG2"
    ensures SeverityString(SeverityDebug3) == "DEBUG3" && SeverityString(SeverityDebug4) == "DEBUG4"
    ensures SeverityString(SeverityInfo1) == "INFO1" && SeverityString(SeverityInfo2) == "INFO2"
    ensures SeverityString(SeverityInfo3) == "INFO3" && SeverityString(SeverityInfo4) == "INFO4"
  {
  }

  /** Named values render as their table names: the Warn and Error tiers. */
  lemma SeverityStringNamedWarnError()
    ensures SeverityString(SeverityWarn1) == "WARN1" && SeverityString(SeverityWarn2) == "WARN2"
    ensures SeverityString(SeverityWarn3) == "WARN3" && SeverityString(SeverityWarn4) == "WARN4"
    ensures SeverityString(SeverityError1) == "ERROR1" && SeverityString(SeverityError2) == "ERROR2"
    ensures SeverityString(SeverityError3) == "ERROR3" && SeverityString(SeverityError4) == "ERROR4"
  {
  }

  /** Named values render as their table names: the Fatal tier. */
  lemma SeverityStringNamedFatal()
    ensures SeverityString(SeverityFatal1) == "FATAL1" && SeverityString(SeverityFatal2) == "FATAL2"
    ensures SeverityString(SeverityFatal3) == "FATAL3" && SeverityString(SeverityFatal4) == "FATAL4"
  {
  }

  /** Outside 0..24 (negative values included) the decimal form is returned. */
  lemma SeverityStringFallback(v: Severity)
    requires v < 0 || 24 < v
    ensures SeverityString(v) == Itoa(v)
  {
  }

  /** No table name is a decimal numeral, so a name never looks like a fallback. */
  lemma NamesAreNotNumerals(v: Severity)
    requires v in SeverityName
    ensures !IsNumeral(SeverityName[v])
  {
    assert 'A' <= SeverityName[v][0] <= 'Z';
  }

  /** The table names are pairwise distinct. */
  lemma NamesDistinct(a: Severity, b: Severity)
    requires a in SeverityName && b in SeverityName
    ensures SeverityName[a] == SeverityName[b] ==> a == b
  {
  }

  /** String never maps two severities to the same text. */
  lemma SeverityStringInjective(a: Severity, b: Severity)
    ensures SeverityString(a) == SeverityString(b) ==> a == b
  {
    if a in SeverityName && b in SeverityName {
      NamesDistinct(a, b);
    } else if a in SeverityName {
      NamesAreNotNumerals(a);
    } else if b in SeverityName {
      NamesAreNotNumerals(b);
    } else {
      ItoaInjective(a, b);
    }
  }
}
