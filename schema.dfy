/**
 * The Schema object of the document: a node describing the shape of a data
 * value. Schemas nest through `items`, `not`, `additionalProperties`,
 * `properties` and the `allOf`/`oneOf`/`anyOf` lists. A Schema is a value
 * here: two schemas are equal exactly when they are structurally equal.
 */
module Schemas {
  import opened Wrappers
  import Types

  /** A Kotlin `Number` bound (multipleOf, maximum, maxLength, ...), by its value. */
  type Number = real

  /** A value of Kotlin type `Any`: a text, or some other value known only by its identity. */
  datatype AnyValue = Str(text: string) | Opaque(token: nat)

  /**
   * The Schema record, its fields in declaration order. Every field but
   * `typeName` (the source's `type`) defaults to absent, so a schema cannot be
   * built without a type. No field is checked against another, and no bound
   * is checked against its documented range.
   */
  datatype Schema = Schema(
    title: Option<string> := None,
    description: Option<string> := None,
    multipleOf: Option<Number> := None,
    maximum: Option<Number> := None,
    exclusiveMaximum: Option<Number> := None,
    minimum: Option<Number> := None,
    exclusiveMinimum: Option<Number> := None,
    maxLength: Option<Number> := None,
    minLength: Option<Number> := None,
    maxItems: Option<Number> := None,
    minItems: Option<Number> := None,
    uniqueItems: Option<bool> := None,
    maxProperties: Option<Number> := None,
    minProperties: Option<Number> := None,
    required: Option<seq<string>> := None,
    enum: Option<seq<AnyValue>> := None,
    pattern: Option<string> := None,
    typeName: string,
    allOf: Option<seq<Schema>> := None,
    oneOf: Option<seq<Schema>> := None,
    anyOf: Option<seq<Schema>> := None,
    not: Option<Schema> := None,
    items: Option<Schema> := None,
    properties: Option<seq<(string, Schema)>> := None,
    additionalProperties: Option<Schema> := None,
    format: Option<string> := None,
    default: Option<AnyValue> := None,
    nullable: Option<bool> := None,
    example: Option<AnyValue> := None,
    deprecated: Option<bool> := None)

  /** Every field other than type, format, items and properties is absent. */
  predicate Unconstrained(s: Schema) {
    && s.title.None? && s.description.None?
    && s.multipleOf.None? && s.maximum.None? && s.exclusiveMaximum.None?
    && s.minimum.None? && s.exclusiveMinimum.None?
    && s.maxLength.None? && s.minLength.None? && s.maxItems.None? && s.minItems.None?
    && s.uniqueItems.None? && s.maxProperties.None? && s.minProperties.None?
    && s.required.None? && s.enum.None? && s.pattern.None?
    && s.allOf.None? && s.oneOf.None? && s.anyOf.None? && s.not.None?
    && s.additionalProperties.None?
    && s.default.None? && s.nullable.None? && s.example.None? && s.deprecated.None?
  }

  /** A leaf: only the type, and possibly the format, are present. */
  predicate IsLeaf(s: Schema) {
    Unconstrained(s) && s.items.None? && s.properties.None?
  }

  /** `Schema(type = t)`: a schema built from its type alone is a leaf with no format. */
  lemma TypeOnlyIsLeaf(t: string)
    ensures IsLeaf(Schema(typeName := t)) && Schema(typeName := t).format.None?
    ensures Schema(typeName := t).typeName == t
  {
  }

  /**
   * Nothing ties the type to `properties` or `items`: a string schema may
   * carry both, and an object schema neither.
   */
  lemma ShapeIsUnchecked()
    ensures exists s: Schema :: s.typeName == Types.String && s.items.Some? && s.properties.Some?
    ensures exists s: Schema :: s.typeName == Types.Object && s.items.None? && s.properties.None?
    ensures exists s: Schema :: s.typeName == Types.Array && s.items.None? && s.properties == Some([])
  {
    var leaf := Schema(typeName := Types.String);
    var both := Schema(typeName := Types.String, items := Some(leaf), properties := Some([("p", leaf)]));
    assert both.typeName == Types.String && both.items.Some? && both.properties.Some?;
    var neither := Schema(typeName := Types.Object);
    assert neither.typeName == Types.Object && neither.items.None? && neither.properties.None?;
    var emptyArray := Schema(typeName := Types.Array, properties := Some([]));
    assert emptyArray.typeName == Types.Array && emptyArray.properties == Some([]);
  }

  /**
   * The documented ranges of the numeric keywords (multipleOf strictly
   * positive, length, item and property bounds non-negative, minimum below
   * maximum) are not checked: any number is accepted.
   */
  lemma BoundsAreUnchecked()
    ensures exists s: Schema :: s.multipleOf == Some(-1.0) && s.minLength == Some(-2.0)
                                && s.maxItems == Some(-3.0) && s.minProperties == Some(0.5)
    ensures exists s: Schema :: s.minimum == Some(10.0) && s.maximum == Some(1.0)
  {
    var s := Schema(typeName := Types.Number, multipleOf := Some(-1.0), minLength := Some(-2.0),
                    maxItems := Some(-3.0), minProperties := Some(0.5));
    assert s.multipleOf == Some(-1.0) && s.minLength == Some(-2.0) && s.maxItems == Some(-3.0);
    var t := Schema(typeName := Types.Number, minimum := Some(10.0), maximum := Some(1.0));
    assert t.minimum == Some(10.0) && t.maximum == Some(1.0);
  }
}
