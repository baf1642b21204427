/** The OpenAPI format names that refine a Schema's type. */
module Formats {

  const Int32: string := "int32"
  const Int64: string := "int64"
  const Float: string := "float"
  const Double: string := "double"
  const Byte: string := "byte"
  const Binary: string := "binary"
  const Date: string := "date"
  const Datetime: string := "date-time"
  const Password: string := "password"
  const Email: string := "email"
  const Uuid: string := "uuid"

  /** The eleven format names, in declaration order. */
  const Names: seq<string> := [Int32, Int64, Float, Double, Byte, Binary, Date, Datetime, Password, Email, Uuid]

  /** No two format names coincide. */
  lemma NamesDistinct()
    ensures |Names| == 11
    ensures forall i, j :: 0 <= i < j < |Names| ==> Names[i] != Names[j]
  {
  }
}
