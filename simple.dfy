/**
 * The stdout line of SimpleSink and SimpleLogger (simple_sink.go and
 * simple_logger.go, which are identical apart from the type name):
 *   <RFC3339 time> <severity name> <body %v>[ (<name>: <value %v>, ...)]
 * The parenthetical is added whenever the attribute slice is non-nil, so an empty
 * non-nil slice gives " ()".
 */
module SimpleSinks {
  import opened SeverityScale
  import opened AttributeModel
  import opened EntryModel
  import opened Printing

  /** strings.Join */
  function Join(parts: seq<string>, sep: string): (r: string)
    ensures |parts| > 0 ==> parts[0] <= r
    decreases |parts|
  {
    if |parts| == 0 then ""
    else if |parts| == 1 then parts[0]
    else Join(parts[..|parts| - 1], sep) + sep + parts[|parts| - 1]
  }

  function TotalLength(parts: seq<string>): nat
    decreases |parts|
  {
    if parts == [] then 0 else TotalLength(parts[..|parts| - 1]) + |parts[|parts| - 1]|
  }

  /** n parts are joined with exactly n - 1 separators and nothing else. */
  lemma {:induction false} JoinLength(parts: seq<string>, sep: string)
    requires |parts| > 0
    ensures |Join(parts, sep)| == TotalLength(parts) + (|parts| - 1) * |sep|
    decreases |parts|
  {
    var n := |parts|;
    if n == 1 {
      assert parts[..0] == [];
    } else {
      var init := parts[..n - 1];
      JoinLength(init, sep);
      assert |Join(parts, sep)| == |Join(init, sep)| + |sep| + |parts[n - 1]|;
      assert TotalLength(parts) == TotalLength(init) + |parts[n - 1]|;
      assert (n - 2) * |sep| + |sep| == (n - 1) * |sep|;
    }
  }

  /** Joining keeps the parts in order: the first part, then a separator, then the rest. */
  lemma {:induction false} JoinCons(x: string, rest: seq<string>, sep: string)
    requires |rest| > 0
    ensures Join([x] + rest, sep) == x + sep + Join(rest, sep)
    decreases |rest|
  {
    var parts := [x] + rest;
    if |rest| > 1 {
      var init := rest[..|rest| - 1];
      JoinCons(x, init, sep);
      assert parts[..|parts| - 1] == [x] + init;
      assert parts[|parts| - 1] == rest[|rest| - 1];
      calc {
        Join(parts, sep);
        Join([x] + init, sep) + sep + rest[|rest| - 1];
        x + sep + Join(init, sep) + sep + rest[|rest| - 1];
        x + sep + Join(rest, sep);
      }
    } else {
      assert parts[..|parts| - 1] == [x];
      assert parts[1] == rest[0];
    }
  }

  /** One attribute: fmt.Sprintf("%s: %v", a.Name, a.Value). */
  function RenderAttribute(f: Formats, a: Attribute): string {
    a.name + ": " + FormatV(f, a.value)
  }

  function RenderAll(f: Formats, attrs: seq<Attribute>): (r: seq<string>)
    ensures |r| == |attrs|
    ensures forall i :: 0 <= i < |attrs| ==> r[i] == RenderAttribute(f, attrs[i])
  {
    seq(|attrs|, i requires 0 <= i < |attrs| => RenderAttribute(f, attrs[i]))
  }

  /** The part of the line that every entry has. */
  function Head(f: Formats, e: Entry): string {
    f.rfc3339(e.timestamp) + " " + SeverityString(e.severity) + " " + FormatV(f, e.body)
  }

  function Parenthetical(f: Formats, attrs: Attributes): string {
    match attrs
    case NilAttributes => ""
    case Slice(xs) => " (" + Join(RenderAll(f, xs), ", ") + ")"
  }

  /** The line printed for an entry (without the newline fmt.Println adds). */
  function Line(f: Formats, e: Entry): (line: string)
    ensures |Head(f, e)| <= |line| && line[..|Head(f, e)|] == Head(f, e)
    ensures |line| == |Head(f, e)| <==> e.attributes.NilAttributes?
  {
    Head(f, e) + Parenthetical(f, e.attributes)
  }

  /** LogEntry's line building: `line +=` steps and an indexed loop over the attributes. */
  method BuildLine(f: Formats, e: Entry) returns (line: string)
    ensures line == Line(f, e)
  {
    line := f.rfc3339(e.timestamp);
    line := line + " ";
    line := line + SeverityString(e.severity) + " " + FormatV(f, e.body);
    if e.attributes != NilAttributes {
      var attrs := e.attributes.elems;
      var entries := new string[|attrs|];
      for i := 0 to |attrs|
        invariant forall k :: 0 <= k < i ==> entries[k] == RenderAttribute(f, attrs[k])
      {
        entries[i] := attrs[i].name + ": " + FormatV(f, attrs[i].value);
      }
      assert entries[..] == RenderAll(f, attrs);
      line := line + " (" + Join(entries[..], ", ") + ")";
    }
  }

  /** A nil slice adds nothing after the body. */
  lemma LineWithoutAttributes(f: Formats, e: Entry)
    requires e.attributes == NilAttributes
    ensures Line(f, e) == f.rfc3339(e.timestamp) + " " + SeverityString(e.severity) + " " + FormatV(f, e.body)
  {
  }

  /** A non-nil slice, however short, adds " (" + the joined renderings + ")". */
  lemma LineWithAttributes(f: Formats, e: Entry)
    requires e.attributes.Slice?
    ensures Line(f, e) == Head(f, e) + " (" + Join(RenderAll(f, e.attributes.elems), ", ") + ")"
    ensures e.attributes.elems == [] ==> Line(f, e) == Head(f, e) + " ()"
  {
  }

  /** The nil slice and the empty slice give different lines. */
  lemma NilAndEmptyDiffer(f: Formats, e: Entry)
    ensures Line(f, e.(attributes := NilAttributes)) != Line(f, e.(attributes := Slice([])))
  {
    var nil, empty := e.(attributes := NilAttributes), e.(attributes := Slice([]));
    assert |Line(f, empty)| == |Line(f, nil)| + 3;
  }

  /** The first attribute comes right after " (", then ", " and the rest, in order. */
  lemma AttributesInOrder(f: Formats, e: Entry, a: Attribute, rest: seq<Attribute>)
    requires e.attributes == Slice([a] + rest) && |rest| > 0
    ensures Line(f, e) == Head(f, e) + " (" + RenderAttribute(f, a) + ", " + Join(RenderAll(f, rest), ", ") + ")"
  {
    var rendered := RenderAll(f, [a] + rest);
    assert rendered == [RenderAttribute(f, a)] + RenderAll(f, rest);
    JoinCons(RenderAttribute(f, a), RenderAll(f, rest), ", ");
    assert Join(rendered, ", ") == RenderAttribute(f, a) + ", " + Join(RenderAll(f, rest), ", ");
  }
}
