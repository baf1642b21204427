/**
 * The primitive type catalog: seventeen fixed leaf schemas, each a type name
 * and an optional format, that callers reuse directly as leaves.
 */
module Natives {
  import opened Wrappers
  import Types
  import Formats
  import opened Schemas

  const NUMBER: Schema := Schema(typeName := Types.Number)
  const INT: Schema := Schema(typeName := Types.Int)
  const INT32: Schema := Schema(typeName := Types.Number, format := Some(Formats.Int32))
  const INT64: Schema := Schema(typeName := Types.Number, format := Some(Formats.Int64))
  const FLOAT: Schema := Schema(typeName := Types.Number, format := Some(Formats.Float))
  const DOUBLE: Schema := Schema(typeName := Types.Number, format := Some(Formats.Double))
  const STRING: Schema := Schema(typeName := Types.String)
  const BYTE: Schema := Schema(typeName := Types.String, format := Some(Formats.Byte))
  const BINARY: Schema := Schema(typeName := Types.String, format := Some(Formats.Binary))
  const DATE: Schema := Schema(typeName := Types.String, format := Some(Formats.Date))
  const DATETIME: Schema := Schema(typeName := Types.String, format := Some(Formats.Datetime))
  const PASSWORD: Schema := Schema(typeName := Types.String, format := Some(Formats.Password))
  const EMAIL: Schema := Schema(typeName := Types.String, format := Some(Formats.Email))
  const UUID: Schema := Schema(typeName := Types.String, format := Some(Formats.Uuid))
  const BOOLEAN: Schema := Schema(typeName := Types.Boolean)
  const OBJECT: Schema := Schema(typeName := Types.Object)
  const ARRAY: Schema := Schema(typeName := Types.Array)

  /** The catalog, in declaration order. */
  const Catalog: seq<Schema> := [NUMBER, INT, INT32, INT64, FLOAT, DOUBLE, STRING, BYTE, BINARY,
                                 DATE, DATETIME, PASSWORD, EMAIL, UUID, BOOLEAN, OBJECT, ARRAY]

  /** Every catalog entry carries a type and at most a format; all its other fields are absent. */
  lemma CatalogEntriesAreLeaves()
    ensures |Catalog| == 17
    ensures forall i :: 0 <= i < |Catalog| ==> IsLeaf(Catalog[i])
  {
  }

  /** The numeric entries: plain NUMBER, and FLOAT and DOUBLE with their formats. */
  lemma NumberEntries()
    ensures NUMBER.typeName == "number" && NUMBER.format == None
    ensures FLOAT.typeName == "number" && FLOAT.format == Some("float")
    ensures DOUBLE.typeName == "number" && DOUBLE.format == Some("double")
  {
  }

  /**
   * INT is the only entry of type "integer"; INT32 and INT64 are of type
   * "number" with the integer formats.
   */
  lemma IntegerEntries()
    ensures INT.typeName == "integer" && INT.format == None
    ensures INT32.typeName == "number" && INT32.format == Some("int32")
    ensures INT64.typeName == "number" && INT64.format == Some("int64")
    ensures forall i :: 0 <= i < |Catalog| && Catalog[i].typeName == Types.Int ==> Catalog[i] == INT
  {
  }

  /** The string entries: plain STRING and seven formatted ones. */
  lemma StringEntries()
    ensures STRING.typeName == "string" && STRING.format == None
    ensures BYTE.typeName == "string" && BYTE.format == Some("byte")
    ensures BINARY.typeName == "string" && BINARY.format == Some("binary")
    ensures DATE.typeName == "string" && DATE.format == Some("date")
    ensures DATETIME.typeName == "string" && DATETIME.format == Some("date-time")
    ensures PASSWORD.typeName == "string" && PASSWORD.format == Some("password")
    ensures EMAIL.typeName == "string" && EMAIL.format == Some("email")
    ensures UUID.typeName == "string" && UUID.format == Some("uuid")
  {
  }

  /** BOOLEAN, OBJECT and ARRAY carry only a type: OBJECT has no properties map and ARRAY no items. */
  lemma TypeOnlyEntries()
    ensures BOOLEAN == Schema(typeName := "boolean")
    ensures OBJECT == Schema(typeName := "object") && OBJECT.properties == None
    ensures ARRAY == Schema(typeName := "array") && ARRAY.items == None
  {
  }

  /** No two catalog entries are the same schema. */
  lemma CatalogEntriesDistinct()
    ensures forall i, j :: 0 <= i < j < |Catalog| ==> Catalog[i] != Catalog[j]
  {
    Formats.NamesDistinct();
    Types.NamesDistinct();
  }
}
