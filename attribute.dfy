/**
 * Attributes (attribute.go): name/value pairs attached to a log entry. Values are
 * Go `interface{}` values; the model distinguishes the kinds whose rendering Go's
 * fmt package fixes and keeps every other value as an opaque token.
 */
module AttributeModel {

  /** A Go `error`; `message` is what its Error() method returns. */
  datatype Failure = Failure(message: string)

  /** A Go `interface{}` value. */
  datatype Value =
    | Str(s: string)
    | Int(i: int)
    | Bool(b: bool)
    | Err(err: Failure)
    | Nil
    | Opaque(token: nat)   // any other value; its renderings are parameters of the model

  datatype Attribute = Attribute(name: string, value: Value)

  /**
   * Go's `Attributes []Attribute`. A nil slice and an empty non-nil slice are
   * different values in Go (the stdout sinks tell them apart), so both exist here.
   * Names need not be unique; order is kept.
   */
  datatype Attributes = NilAttributes | Slice(elems: seq<Attribute>) {
    /** What ranging over the slice visits; a nil slice has no elements. */
    function Items(): (xs: seq<Attribute>)
      ensures NilAttributes? ==> xs == []
      ensures Slice? ==> xs == elems
    {
      if NilAttributes? then [] else elems
    }
  }

  /** A: shorthand for an attribute with the given name and value. */
  function A(name: string, value: Value): (a: Attribute)
    ensures a.name == name && a.value == value
  {
    Attribute(name, value)
  }

  /** E: shorthand for an attribute named "error" holding the error. */
  function E(err: Failure): (a: Attribute)
    ensures a.name == "error" && a.value == Err(err)
  {
    Attribute("error", Err(err))
  }

  /** E is A with the fixed name "error". */
  lemma ErrorIsNamedAttribute(err: Failure)
    ensures E(err) == A("error", Err(err))
  {
  }
}
