/**
 * The pure part of the builder: the schema assembler (`Object`, `Array`,
 * `map` and the `-` pairing), `Schema.of`, the `or` fallback, the name
 * transform behind `ServerVariable.enum`, and the file-level `todos`
 * placeholder that the file's class initialisation evaluates.
 */
module Themis {
  import opened Wrappers
  import Types
  import opened Schemas
  import opened OrderedMap
  import Natives

  /** The reasons given to the two `TODO(...)` calls that make up the file-level `todos` list. */
  const TodoReasons: seq<string> := ["define all remaining spec definitions", "define all remaining DSL functions"]

  /** The message of the NotImplementedError that `TODO(reason)` throws. */
  function TodoMessage(reason: string): string {
    "An operation is not implemented: " + reason
  }

  /**
   * Initialising the file's JVM class, which the first call of any function
   * declared in the file triggers: the file-level values are evaluated in
   * order, so the elements of `todos` are evaluated one by one. The first
   * `TODO(reason)` throws a NotImplementedError, an Error, which the JVM
   * lets escape the first call unwrapped. The result is its message, or
   * None when initialisation completes.
   */
  function FileClassInitError(todoReasons: seq<string>): (thrown: Option<string>)
    ensures thrown.None? <==> todoReasons == []
    ensures thrown.Some? ==> thrown.value == TodoMessage(todoReasons[0])
  {
    if todoReasons == [] then None else Some(TodoMessage(todoReasons[0]))
  }

  /** As written, initialising the file class always throws, with the first placeholder's reason. */
  lemma TodosThrowOnFirstCall()
    ensures FileClassInitError(TodoReasons) == Some(TodoMessage("define all remaining spec definitions"))
  {
  }

  /** `x or y`: y when it is present, otherwise x; y wins when both are present. */
  function Or<T>(x: T, y: Option<T>): (r: T)
    ensures y.Some? ==> r == y.value
    ensures y.None? ==> r == x
  {
    match y
    case Some(v) => v
    case None => x
  }

  /**
   * `_enum` without its reflection: every enum constant name loses its first
   * character (`E3000` becomes "3000"). Constant names are never empty.
   */
  function EnumNames(names: seq<string>): (r: seq<string>)
    requires forall i :: 0 <= i < |names| ==> names[i] != ""
    ensures |r| == |names|
    ensures forall i :: 0 <= i < |r| ==> |r[i]| == |names[i]| - 1 && [names[i][0]] + r[i] == names[i]
  {
    seq(|names|, i requires 0 <= i < |names| => names[i][1..])
  }

  /**
   * `map(vararg pairs)`: a property map whose keys are exactly the pair
   * names, in the order of their first occurrence, each bound to the value
   * of the last pair with that name.
   */
  function MapOf(pairs: seq<(string, Schema)>): (m: seq<(string, Schema)>)
    ensures UniqueKeys(m)
    ensures forall k :: k in Keys(m) <==> k in Keys(pairs)
    ensures InFirstOccurrenceOrder(m, pairs)
    ensures forall k :: Get(m, k) == LastValue(pairs, k)
    ensures UniqueKeys(pairs) ==> m == pairs
  {
    MapOfLaws(pairs);
    FromPairs(pairs)
  }

  lemma MapOfLaws(pairs: seq<(string, Schema)>)
    ensures forall k :: k in Keys(FromPairs(pairs)) <==> k in Keys(pairs)
    ensures InFirstOccurrenceOrder(FromPairs(pairs), pairs)
    ensures forall k :: Get(FromPairs(pairs), k) == LastValue(pairs, k)
    ensures UniqueKeys(pairs) ==> FromPairs(pairs) == pairs
  {
    if UniqueKeys(pairs) {
      FromPairsDistinct(pairs);
    }
    forall k ensures k in Keys(FromPairs(pairs)) <==> k in Keys(pairs) {
      FromPairsKeys(pairs, k);
    }
    FromPairsInOrder(pairs);
    forall k ensures Get(FromPairs(pairs), k) == LastValue(pairs, k) {
      FromPairsLastWins(pairs, k);
    }
  }

  /** `name - schema`: pairs a property name with its schema, unchanged. */
  function Minus(name: string, schema: Schema): (p: (string, Schema))
    ensures p.0 == name && p.1 == schema
  {
    (name, schema)
  }

  /**
   * `Object(vararg properties)`: an object schema whose properties map is
   * built from the pairs (present, and empty when there are none), with no
   * items and nothing else set.
   */
  function Object(pairs: seq<(string, Schema)>): (s: Schema)
    ensures s.typeName == Types.Object && s.format.None? && s.items.None? && Unconstrained(s)
    ensures s.properties == Some(MapOf(pairs))
    ensures pairs == [] ==> s.properties == Some([])
  {
    Schema(typeName := Types.Object, properties := Some(MapOf(pairs)))
  }

  /**
   * `Array(block)`: an array schema whose items are what the block returns,
   * with no properties map and nothing else set.
   */
  function Array(block: () -> Schema): (s: Schema)
    ensures s.typeName == Types.Array && s.format.None? && s.items == Some(block())
    ensures s.properties.None? && Unconstrained(s)
  {
    Schema(typeName := Types.Array, items := Some(block()))
  }

  /** `Schema.of(block)`, a fluency helper: the result is the block applied to the receiver. */
  function Of(s: Schema, block: Schema -> Schema): (r: Schema)
    ensures r == block(s)
  {
    block(s)
  }

  /**
   * The assemblers differ from the catalog's OBJECT and ARRAY: `Object()`
   * carries an empty properties map where OBJECT has none, and `Array`
   * carries items where ARRAY has none.
   */
  lemma AssemblersDifferFromCatalog(block: () -> Schema)
    ensures Object([]) != Natives.OBJECT && Object([]).properties == Some([])
    ensures Array(block) != Natives.ARRAY
  {
  }
}
