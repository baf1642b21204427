/** The OpenAPI data type names a Schema's `type` field takes. */
module Types {

  const Object: string := "object"
  const Array: string := "array"
  const Int: string := "integer"
  const Number: string := "number"
  const String: string := "string"
  const Boolean: string := "boolean"

  /** The six type names, in declaration order. */
  const Names: seq<string> := [Object, Array, Int, Number, String, Boolean]

  /** No two type names coincide, so a schema's type names exactly one kind. */
  lemma NamesDistinct()
    ensures |Names| == 6
    ensures forall i, j :: 0 <= i < j < |Names| ==> Names[i] != Names[j]
  {
  }
}
