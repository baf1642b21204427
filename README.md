# kthemis document builder, modelled in Dafny

kthemis is a Kotlin DSL that builds an OpenAPI 3.0 document in memory. A
client writes `"v1" api { title(...); server { ... }; schema("k") { ... } }`.
The builder then fills a tree of records:
- `Openapi`, `Info`, `Server`, `ServerVariable`, `Tag`, `ExternalDocumentation`, `Components`, `Example`;
- the recursive `Schema` record.

The finished document is stored in a global registry keyed by version.

This project models that builder and proves what each builder call does to the document.

Modules, one per file:

- `Wrappers` (wrappers.dfy): the `Option` type that stands for Kotlin's nullable values.
- `Types`, `Formats` (types.dfy, formats.dfy): the type-name and format-name constants.
- `Schemas` (schema.dfy): `Schema` as a recursive datatype (a value).
  - Every field but the type defaults to absent.
  - `Number` bounds are reals, and `Any` values are an `AnyValue`.
- `Natives` (natives.dfy): the seventeen catalog leaf schemas, NUMBER through ARRAY.
- `OrderedMap` (ordered_map.dfy): Kotlin's insertion-ordered `MutableMap`, as a sequence of entries.
  - `Put` is `put`/`set`: a new key goes last, and a key already present keeps its place and takes the new value.
  - `FromPairs` is `associate { ... }.toMutableMap()`.
- `Text` (text.dfy): Kotlin's `lines()`, `trimIndent()` and `trim()`, which `Example.value` applies.
- `Themis` (themis.dfy): the pure part of the builder.
  - The schema assembler: `Object`, `Array`, `map`, and the `-` pairing.
  - `Schema.of`, the `or` fallback, and the name transform of `_enum`.
- `Swagger` (swagger.dfy): the entities the builder updates in place, as classes.
  - Their fields are in declared order, without the `val o = this` self-reference.
  - Every builder call is a method: the setters, the list adders `server`/`tag`, the map adders `variable`/`schema`/`example`, and the lazy initialisers.
- `SpecList` (spec_list.dfy): the registry `SpecList.specs` as a `Registry` instance, and `String.api` as `Registry.Api`.
- `Scenario` (scenario.dfy): the example client `ThemisExample.describe`, replayed call by call, with what the finished document holds.

Caller blocks are modelled as follows.
- A builder that takes a block (`server { }`, `tag { }`, `variable(n) { }`, `example(k) { }`, `externalDocs { }`) creates the same seed object the source creates. It stores it where the source stores it and returns it.
- The block is the setter calls the caller then makes on the returned object. The container holds the object itself, so for a block that only calls setters on the seed, the final document is the one the source builds.
- The source runs the block before it stores the seed. A block that calls another builder of an enclosing receiver therefore ends differently; "## Left out" names each such builder.
- `schema(key) { }` differs: its block returns a schema, and that result is stored, not the seed. So it is a function `Schema -> Schema`.

## Model

| member | source | states |
|---|---|---|
| Types.NamesDistinct | src/main/kotlin/themis/types/swagger/Types.kt:5-10 | there are six type names and no two of them are equal |
| Formats.NamesDistinct | src/main/kotlin/themis/types/swagger/Formats.kt:5-15 | there are eleven format names and no two of them are equal |
| Schemas.TypeOnlyIsLeaf | src/main/kotlin/themis/types/swagger/Schema.kt:22-212 | a Schema built from its type alone has that type and every other field absent, including format, items and properties |
| Schemas.ShapeIsUnchecked | src/main/kotlin/themis/types/swagger/Schema.kt:106-136 | nothing ties type to properties or items: a string schema may carry both, an object schema neither, an array schema an empty properties map and no items |
| Schemas.BoundsAreUnchecked | src/main/kotlin/themis/types/swagger/Schema.kt:29-87 | the documented ranges are not enforced: a negative multipleOf, minLength and maxItems, a fractional minProperties, and a minimum above the maximum are all accepted |
| Natives.CatalogEntriesAreLeaves | src/main/kotlin/themis/Natives.kt:5-21 | the catalog has 17 entries, and each carries only a type and possibly a format |
| Natives.NumberEntries | src/main/kotlin/themis/Natives.kt:5-10 | NUMBER is "number" with no format; FLOAT and DOUBLE are "number" with formats "float" and "double" |
| Natives.IntegerEntries | src/main/kotlin/themis/Natives.kt:6-8 | INT is "integer" with no format and is the only "integer" entry; INT32 and INT64 are "number" with formats "int32" and "int64" |
| Natives.StringEntries | src/main/kotlin/themis/Natives.kt:11-18 | STRING is "string" with no format; BYTE through UUID are "string" with formats byte, binary, date, date-time, password, email, uuid |
| Natives.TypeOnlyEntries | src/main/kotlin/themis/Natives.kt:19-21 | BOOLEAN, OBJECT and ARRAY are exactly the type-only schemas of "boolean", "object" and "array"; OBJECT has no properties map and ARRAY no items |
| Natives.CatalogEntriesDistinct | src/main/kotlin/themis/Natives.kt:5-21 | no two catalog entries are the same schema |
| OrderedMap.IndexOf | src/main/kotlin/themis/Themis.kt:243 | a key is found exactly when it is present, at an entry holding it, with no earlier entry holding it |
| OrderedMap.Get | src/main/kotlin/themis/Themis.kt:131-133 | a lookup finds nothing exactly when the key is absent; what it finds is an entry of the map under that key |
| OrderedMap.Put | src/main/kotlin/themis/Themis.kt:243 | binding a new key appends it; binding a present key replaces that entry in place and leaves all others; maps without repeated keys stay so |
| OrderedMap.PutKeys | src/main/kotlin/themis/Themis.kt:243 | after a bind the key order is unchanged, except that a new key is added at the end |
| OrderedMap.PutGet | src/main/kotlin/themis/Themis.kt:243 | after a bind the key looks up the new value (last write wins) |
| OrderedMap.PutGetOther | src/main/kotlin/themis/Themis.kt:243 | a bind leaves the lookup of every other key unchanged |
| OrderedMap.PutBinds | src/main/kotlin/themis/Themis.kt:243 | Put gives the key order and lookups above, all at once |
| OrderedMap.PutHasKey | src/main/kotlin/themis/Themis.kt:243 | after a bind the keys present are the old ones plus the bound key |
| OrderedMap.FromPairs | src/main/kotlin/themis/Themis.kt:96-100 | the map built from the pairs never holds a key twice |
| OrderedMap.FromPairsDistinct | src/main/kotlin/themis/Themis.kt:96-100 | pairs with all-different names give a map that is the pair sequence itself |
| OrderedMap.FromPairsKeys | src/main/kotlin/themis/Themis.kt:96-100 | a key is in the built map exactly when some pair carries that name |
| OrderedMap.FromPairsOrder | src/main/kotlin/themis/Themis.kt:96-100 | any two keys of the built map are in the order of their first occurrence among the pairs |
| OrderedMap.FromPairsInOrder | src/main/kotlin/themis/Themis.kt:96-100 | the whole built map is in first-occurrence order |
| OrderedMap.LastIndexOf | src/main/kotlin/themis/Themis.kt:96-100 | the last pair with a given name is found exactly when the name occurs, and no later pair has it |
| OrderedMap.FromPairsLastWins | src/main/kotlin/themis/Themis.kt:96-100 | each name looks up the value of the last pair with that name |
| OrderedMap.IndexOfPrefix | src/main/kotlin/themis/Themis.kt:96-100 | a key's first position in a prefix is its first position in the whole sequence |
| Text.IsWhitespace | src/main/kotlin/themis/Themis.kt:410 | space, tab, "\n" and "\r" are whitespace; no character from U+0021 to U+009F is |
| Text.IsBlank | src/main/kotlin/themis/Themis.kt:410 | a text is blank exactly when its leading whitespace runs to its end, so the empty text is blank |
| Text.Lines | src/main/kotlin/themis/Themis.kt:410 | `lines()` never returns an empty list: a text without breaks, the empty text included, is one line |
| Text.Join | src/main/kotlin/themis/Themis.kt:410 | the joined text starts with the first line, and a "\n" follows it when there is a second line |
| Text.TrimIndent | src/main/kotlin/themis/Themis.kt:410 | a one-line text loses its leading whitespace, and a blank one-line text becomes empty |
| Text.LinesHaveNoBreaks | src/main/kotlin/themis/Themis.kt:410 | no line that `lines()` returns contains a "\n" or "\r" |
| Text.JoinLines | src/main/kotlin/themis/Themis.kt:410 | for a text without "\r", joining its lines with "\n" gives the text back |
| Text.MinIndent | src/main/kotlin/themis/Themis.kt:410 | the common indent is absent exactly when every line is blank; otherwise it is at most every non-blank line's indent and equals one of them |
| Text.Reindent | src/main/kotlin/themis/Themis.kt:410 | `trimIndent` yields one line for each line it keeps: every line except a blank first line and a blank last line |
| Text.ReindentKeepsText | src/main/kotlin/themis/Themis.kt:410 | every non-blank line is kept; it loses exactly the common indent, which is whitespace, and nothing else |
| Text.ReindentRemovesCommonIndent | src/main/kotlin/themis/Themis.kt:410 | if some line is not blank, some reindented line starts with a character that is not whitespace |
| Text.Trim | src/main/kotlin/themis/Themis.kt:410 | the result is a slice of the text with only whitespace cut on either side; it neither starts nor ends with whitespace; it is empty exactly when the text is blank |
| Text.TrimIdempotent | src/main/kotlin/themis/Themis.kt:410 | trimming twice is the same as trimming once |
| Themis.FileClassInitError | src/main/kotlin/themis/Themis.kt:7-10 | initialising the file class completes exactly when there are no placeholders; otherwise the first placeholder's NotImplementedError is thrown, and it escapes the first call into the file unwrapped |
| Themis.TodosThrowOnFirstCall | src/main/kotlin/themis/Themis.kt:7-10 | with the two placeholders as written, initialisation throws "An operation is not implemented: define all remaining spec definitions" |
| Themis.Or | src/main/kotlin/themis/Themis.kt:38-47 | `x or y` is y when y is present and x otherwise |
| Themis.EnumNames | src/main/kotlin/themis/Themis.kt:34-36 | one name per enum constant, in order; each is the constant's name without its first character |
| Themis.MapOf | src/main/kotlin/themis/Themis.kt:96-100 | no repeated keys; the keys are exactly the pair names, in first-occurrence order; each looks up the last value given for it; distinct names are kept as given |
| Themis.MapOfLaws | src/main/kotlin/themis/Themis.kt:96-100 | the key-set, order, last-wins and distinct-names facts that MapOf promises, proved for the built map |
| Themis.Minus | src/main/kotlin/themis/Themis.kt:107-109 | `name - schema` pairs the name with the schema unchanged |
| Themis.Object | src/main/kotlin/themis/Themis.kt:70-76 | type "object", no format and no items, nothing else set; the properties map is present and is `map(pairs)`; empty when there are no pairs |
| Themis.Array | src/main/kotlin/themis/Themis.kt:84-91 | type "array", items are the block's result, properties absent, nothing else set |
| Themis.Of | src/main/kotlin/themis/Themis.kt:362-364 | `s.of(block)` is the block's result on s |
| Themis.AssemblersDifferFromCatalog | src/main/kotlin/themis/Natives.kt:20-21 | `Object()` is not OBJECT, because it carries an empty properties map; `Array { }` is not ARRAY, because it carries items |
| Swagger.Info.constructor | src/main/kotlin/themis/types/swagger/Info.kt:10-40 | title and version are required; description, termsOfService, contact and license default to absent |
| Swagger.ExternalDocumentation.constructor | src/main/kotlin/themis/types/swagger/ExternalDocumentation.kt:8-20 | url is required; description defaults to absent |
| Swagger.ExternalDocumentation.SetDescription | src/main/kotlin/themis/Themis.kt:322-324 | sets the description and leaves the url |
| Swagger.ExternalDocumentation.SetUrl | src/main/kotlin/themis/Themis.kt:331-333 | sets the url and leaves the description |
| Swagger.Tag.constructor | src/main/kotlin/themis/types/swagger/Tag.kt:12-27 | name is required; description and externalDocs default to absent |
| Swagger.Tag.SetName | src/main/kotlin/themis/Themis.kt:293-295 | sets the name only |
| Swagger.Tag.SetDescription | src/main/kotlin/themis/Themis.kt:302-304 | sets the description only |
| Swagger.Tag.SetExternalDocs | src/main/kotlin/themis/Themis.kt:311-315 | a new ExternalDocumentation with empty description and url replaces the tag's; name and description are kept |
| Swagger.ServerVariable.constructor | src/main/kotlin/themis/types/swagger/ServerVariable.kt:9-28 | default is required; enum and description default to absent |
| Swagger.ServerVariable.SetEnum | src/main/kotlin/themis/Themis.kt:252-254 | the enum becomes the constant names without their first character; default and description are kept |
| Swagger.ServerVariable.SetDefault | src/main/kotlin/themis/Themis.kt:260-262 | sets the default only; it need not be an enum member |
| Swagger.ServerVariable.SetDescription | src/main/kotlin/themis/Themis.kt:269-271 | sets the description only |
| Swagger.Server.constructor | src/main/kotlin/themis/types/swagger/Server.kt:8-28 | url is required; description and variables default to absent |
| Swagger.Server.SetUrl | src/main/kotlin/themis/Themis.kt:214-216 | sets the url only |
| Swagger.Server.SetDescription | src/main/kotlin/themis/Themis.kt:223-225 | sets the description only |
| Swagger.Server.AddVariable | src/main/kotlin/themis/Themis.kt:236-244 | the variables map is created only when absent, so existing variables survive; a new `ServerVariable(default = "")` is then bound to the name, last write wins; url and description are kept |
| Swagger.Example.constructor | src/main/kotlin/themis/types/swagger/Example.kt:11-36 | all four fields default to absent |
| Swagger.Example.SetSummary | src/main/kotlin/themis/Themis.kt:391-393 | sets the summary only |
| Swagger.Example.SetDescription | src/main/kotlin/themis/Themis.kt:400-402 | sets the description only |
| Swagger.Example.SetValue | src/main/kotlin/themis/Themis.kt:409-411 | stores the text after `trimIndent()` then `trim()` (see Text.Trim and Text.ReindentKeepsText); other fields are kept, including externalValue |
| Swagger.Example.SetExternalValue | src/main/kotlin/themis/Themis.kt:418-420 | sets externalValue only, even when a value is set |
| Swagger.Components.constructor | src/main/kotlin/themis/types/swagger/Components.kt:14-51 | all nine sub-maps default to absent |
| Swagger.Openapi.constructor | src/main/kotlin/themis/types/swagger/Openapi.kt:8-61 | openapi and info are required; servers defaults to empty; components, tags and externalDocs default to absent |
| Swagger.Openapi.InitiateTags | src/main/kotlin/themis/Themis.kt:139-142 | creates an empty tag list only when there is none; an existing list is kept; nothing else changes |
| Swagger.Openapi.InitiateComponents | src/main/kotlin/themis/Themis.kt:148-151 | creates an empty Components only when there is none; an existing one is kept; nothing else changes |
| Swagger.Openapi.SetOpenapi | src/main/kotlin/themis/Themis.kt:158-160 | sets the openapi version only |
| Swagger.Openapi.SetTitle | src/main/kotlin/themis/Themis.kt:168-170 | writes the title into the existing Info object; the other Info fields are kept |
| Swagger.Openapi.SetDescription | src/main/kotlin/themis/Themis.kt:178-180 | writes the description into the existing Info object; the other Info fields are kept |
| Swagger.Openapi.SetVersion | src/main/kotlin/themis/Themis.kt:192-194 | writes the document version into the Info object, not the registry key; the other Info fields are kept |
| Swagger.Openapi.AddServer | src/main/kotlin/themis/Themis.kt:203-207 | appends exactly one new `Server("")` after the existing servers; nothing else changes |
| Swagger.Openapi.AddTag | src/main/kotlin/themis/Themis.kt:280-286 | the tag list is created only when absent; exactly one new `Tag("")` is appended after the existing tags; names are not checked to be unique |
| Swagger.Openapi.PutSchema | src/main/kotlin/themis/Themis.kt:344-351 | components and the schemas map are created only when absent; the key is then bound, last write wins, to the block's result on the seed `Schema(type = "string")`; every other sub-map is kept |
| Swagger.Openapi.PutExample | src/main/kotlin/themis/Themis.kt:375-384 | components and the examples map are created only when absent; a new `Example()` is then bound to the key, last write wins; every other sub-map is kept |
| SpecList.Registry.constructor | src/main/kotlin/themis/Themis.kt:15-22 | the registry starts empty, and the builder's file class is not yet initialised |
| SpecList.Registry.Api | src/main/kotlin/themis/Themis.kt:122-134 | a fresh default document (openapi "3.0.0", Info("API Spec", "v1"), nothing else) replaces whatever was under the key, in the key's place or last; every other key keeps its document; the registered document is returned; keys stay unique |
| SpecList.Registry.ApiAsWritten | src/main/kotlin/themis/Themis.kt:122-134 | `api` as written: the first call initialises the file class, and when that throws it reports the placeholder's NotImplementedError and marks the class failed; every later call then reports NoClassDefFoundError ("Could not initialize class themis.ThemisKt") without rerunning the initialiser; a call that throws registers nothing and returns no document; otherwise it registers and returns the default document as `Api` does |
| Scenario.ProfileShape | src/main/kotlin/example/example.kt:51-57 | the profile block's Object has type "object" and its properties are exactly id, firstName, dateOfBirth in that order, each bound to its schema |
| Scenario.PortEnumNames | src/main/kotlin/example/example.kt:6-9 | `enum(Port::class)` gives ["3000", "443"] |
| Scenario.ConfigureVariable | src/main/kotlin/example/example.kt:22-33 | a `variable(name) { ... }` block binds the configured variable to name, with its enum and default |
| Scenario.VariableKeys | src/main/kotlin/example/example.kt:22-33 | the three variables are kept in the order written |
| Scenario.VariableLookups | src/main/kotlin/example/example.kt:22-33 | each variable name looks up the variable its block configured |
| Scenario.DescribeVariables | src/main/kotlin/example/example.kt:22-33 | the server's variables are host, port and apiVersion, in that order, with the example's defaults; port's enum is ["3000", "443"] |
| Scenario.DescribeServer | src/main/kotlin/example/example.kt:18-34 | one server is appended, with the example's url and description, and variables host, port and apiVersion in that order with defaults "http://localhost", "3000" and "v2"; only port has an enum, ["3000", "443"] |
| Scenario.ConfigureTag | src/main/kotlin/example/example.kt:41-49 | a `tag { name(...); description(...) }` block appends one tag with that name and description |
| Scenario.DescribeTags | src/main/kotlin/example/example.kt:41-49 | the tags are Profile then Auth, with their descriptions |
| Scenario.ConfigureSchema | src/main/kotlin/example/example.kt:59-87 | a `schema(key) { ... }` block binds key to what the block returns, and keeps the other keys and the examples |
| Scenario.ObjectSchemaKeys | src/main/kotlin/example/example.kt:51-73 | profile, tile and array are kept in the order written |
| Scenario.ObjectSchemaLookups | src/main/kotlin/example/example.kt:51-73 | profile still looks up its schema after tile and array are bound |
| Scenario.DescribeObjectSchemas | src/main/kotlin/example/example.kt:51-73 | the first three blocks create components and give schemas profile, tile, array, in order |
| Scenario.OtherSchemaKeys | src/main/kotlin/example/example.kt:75-87 | space, tor and single follow profile, tile and array, in the order written |
| Scenario.OtherSchemaLookups | src/main/kotlin/example/example.kt:75-87 | profile is untouched; tor and single look up what their blocks return |
| Scenario.DescribeOtherSchemas | src/main/kotlin/example/example.kt:75-87 | the last three blocks extend the schemas to six keys in order; single is NUMBER |
| Scenario.DescribeSchemas | src/main/kotlin/example/example.kt:51-87 | the six schema blocks give keys profile, tile, array, space, tor, single, in that order |
| Scenario.DescribeExample | src/main/kotlin/example/example.kt:89-99 | examples holds exactly profileSignUp, whose value is the trimmed text |
| Scenario.DescribeInfo | src/main/kotlin/example/example.kt:13-16 | openapi "3.0.0", the example's title, description and version |
| Scenario.DescribeDocument | src/main/kotlin/example/example.kt:12-102 | the finished document: openapi "3.0.0", the example's title, description and version, one server with the example's url and description and variables host, port, apiVersion in order, tags Profile and Auth, six schemas in order, one example; no document-level externalDocs |
| Scenario.Describe | src/main/kotlin/example/example.kt:11-103 | `version api { ... }` registers the built document under version and leaves the other keys |

## Left out

- `env` (Themis.kt:54-64) reads process environment variables. It is I/O and not modelled.
- `enumConstantNames` and the reflection in `_enum`/`ServerVariable.enum` use Java reflection over `KClass`. `Themis.EnumNames` and `SetEnum` take the constant names as a list instead. Constant names are never empty, which `EnumNames` requires.
- The `todos` value (Themis.kt:7-10) makes every builder call throw, as "## Findings" records. The rest of the model describes the builder without that placeholder, and `SpecList.Registry.ApiAsWritten` alone models `api` with it.
- JSON serialisation through Gson, and the expected string of the example test, are left out.
  - Field order is kept only as declaration order.
  - That string holds `paths`, `links` and a document-level `externalDocs`, and no code of this revision produces any of them.
- Entities that no builder constructs or updates (Contact, License, Response, Parameter, RequestBody, Header, SecurityScheme, Link, PathsItem) are opaque tokens. Callback is a map to such tokens. The path, operation, security and callback builders are not part of this model.
- Schema `Number` bounds are reals. Kotlin's integer and floating-point subtypes of `Number` are not distinguished.
- `Any`-typed values (`enum`, `default`, `example`, `Example.value`) are an `AnyValue`: a text, or an opaque token.
- Schema is a value. Two schemas are equal when they are structurally equal, so the following are not modelled:
  - the identity of Kotlin `Schema` objects;
  - the catalog entries being shared singletons, so every use refers to the same node;
  - a schema being changed through an alias after it was stored.
- Map and list containers are values held in fields. Aliasing of a Kotlin `MutableMap` or `MutableList` by outside code is not modelled.
- Themis.Array: the block is a pure function, so "called exactly once" and side effects of the block are not modelled.
- Themis.Object: the `SpecList.specs` access at Themis.kt:70 has no effect, and is left out.
- `Text.IsWhitespace` is the whole `Char.isWhitespace()` set of a Java 9 or later runtime. On a Java 8 runtime, which the build targets (build.gradle.kts:27), U+180E also counts as whitespace; the model leaves that character out.
- Text.JoinLines: the round trip is proved for texts without "\r" only, because `lines()` also splits at "\r" and "\r\n".
- Swagger.Example.SetValue: the contract states the stored text as `Trim(TrimIndent(text))`. Its properties are the lemmas about `Text.Trim` and `Text.Reindent`, not repeated in the method's contract.
- Swagger.Openapi.AddServer: the model stores the new `Server("")` before the caller's block runs; the source stores it after (Themis.kt:204-206). The model covers only blocks that call setters on the seed. A block that calls `server` again on the enclosing document, as in `server { server { url("b") }; url("a") }`, gives [b, a] in the source and [a, b] in the model.
- Swagger.Openapi.AddTag: the model appends the new `Tag("")` before the caller's block runs; the source appends it after (Themis.kt:283-285). The model covers only blocks that call setters on the seed, not a nested `tag` call.
- Swagger.Server.AddVariable: the model binds the new variable before the caller's block runs; the source binds it after (Themis.kt:241-243). The model covers only blocks that call setters on the seed. With a nested `variable` call under the same name, the source ends with the outer variable bound and the model with the inner one.
- Swagger.Openapi.PutExample: the model binds the new `Example()` before the caller's block runs; the source binds it after (Themis.kt:381-383). The model covers only blocks that call setters on the seed. With a nested `example` call under the same key, the source ends with the outer example bound and the model with the inner one.
- Swagger.Tag.SetExternalDocs: the model stores the new `ExternalDocumentation("", "")` before the caller's block runs; the source stores it after (Themis.kt:312-314). The model covers only blocks that call setters on the seed. With `tag { externalDocs { externalDocs { url("b") }; url("a") } }`, the source ends with the outer object (url "a") and the model with the inner one (url "b").
- Swagger.Openapi.PutSchema: the block is a pure function `Schema -> Schema`. Side effects of the block on the document, such as a nested `schema` call made before the result is stored (Themis.kt:350), are not modelled.
- Every entity declares `val o = this` (for example Openapi.kt:61 and Schema.kt:213), a self-reference that matters only to serialisation. It is not a field of the model.
- Concurrency on the global `SpecList.specs` and its being a single global object are left out. The registry is a `Registry` instance passed to the caller.
- SpecList.Registry.Api: the caller's block runs after `Api` returns. A block that itself calls `api` on the same key, and so replaces the document being built, is not modelled.
- Scenario.DescribeDocument: the example's document-level `externalDocs { ... }` call (example.kt:36-39) names a builder that does not exist in this revision, so it is left out.
- Scenario.Describe: the `version!!` null check is not modelled; the version is a non-null string.
- Scenario.Describe: what the schema blocks return is passed in as parameters (ProfileShape states the profile block's shape). The sign-up text is a parameter too.
- The build configuration (build.gradle.kts) and the example.kts script are not part of this model. The script embeds the current time.

## Findings

| source | as written | input that shows it | evidently intended | confidence | as-written member | corrected member |
|---|---|---|---|---|---|---|
| src/main/kotlin/themis/Themis.kt:7-10 | `todos` is a file-level value built from two `TODO(...)` calls. The file's class initialiser evaluates it, and the first call into the file triggers that initialiser, so the initialiser throws NotImplementedError ("define all remaining spec definitions"). The first call throws that NotImplementedError; every later call fails with NoClassDefFoundError. | `"v1" api { }`, the first line of the example client (example.kt:12): `api` never registers a document | the placeholders are reminders with no effect, and `api` registers and returns the default document | high; not executed | SpecList.Registry.ApiAsWritten, with Themis.TodosThrowOnFirstCall | SpecList.Registry.Api |
