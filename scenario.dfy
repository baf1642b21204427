/**
 * The example client's document (`ThemisExample.describe`), replayed as the
 * sequence of builder calls its blocks make, with what the finished document
 * holds.
 */
module Scenario {
  import opened Wrappers
  import Types
  import opened Schemas
  import opened OrderedMap
  import Natives
  import Themis
  import Text
  import opened Swagger
  import opened SpecList

  /** The constant names of the example's `Port` enum. */
  const PortNames: seq<string> := ["E3000", "E443"]

  /**
   * What the example's profile block assembles, whatever leaf schemas it
   * pairs: an object whose properties are the three pairs, in the order
   * written.
   */
  lemma ProfileShape(id: Schema, firstName: Schema, dateOfBirth: Schema)
    ensures var s := Themis.Object([Themis.Minus("id", id), Themis.Minus("firstName", firstName),
                                    Themis.Minus("dateOfBirth", dateOfBirth)]);
      && s.typeName == Types.Object && s.properties.Some?
      && s.properties == Some([("id", id), ("firstName", firstName), ("dateOfBirth", dateOfBirth)])
      && Keys(s.properties.value) == ["id", "firstName", "dateOfBirth"]
      && Get(s.properties.value, "id") == Some(id)
      && Get(s.properties.value, "firstName") == Some(firstName)
      && Get(s.properties.value, "dateOfBirth") == Some(dateOfBirth)
  {
    var ps := [Themis.Minus("id", id), Themis.Minus("firstName", firstName), Themis.Minus("dateOfBirth", dateOfBirth)];
    assert Keys(ps) == ["id", "firstName", "dateOfBirth"];
    assert UniqueKeys(ps);
    assert IndexOf(ps, "id") == Some(0);
    IndexOfFirst(ps, "firstName", 1);
    IndexOfFirst(ps, "dateOfBirth", 2);
  }

  /** `enum(Port::class)`: the example's port names lose their leading `E`. */
  lemma PortEnumNames()
    ensures Themis.EnumNames(PortNames) == ["3000", "443"]
  {
    var names := Themis.EnumNames(PortNames);
    assert names[0] == "3000" by { assert ["E3000"[0]] + names[0] == "E3000"; }
    assert names[1] == "443" by { assert ["E443"[0]] + names[1] == "E443"; }
  }

  /**
   * `variable(name) { enum(...); default(...) }`: the variable the block
   * configures is bound to name in the server's variables map.
   */
  method ConfigureVariable(server: Server, name: string, default: string, enumNames: Option<seq<string>>)
    returns (v: ServerVariable)
    requires enumNames.Some? ==> forall i :: 0 <= i < |enumNames.value| ==> enumNames.value[i] != ""
    modifies server
    ensures fresh(v) && v.default == default && v.description == None
    ensures v.enum == if enumNames.Some? then Some(Themis.EnumNames(enumNames.value)) else None
    ensures server.variables.Some?
    ensures Binds(if old(server.variables).None? then [] else old(server.variables).value, server.variables.value, name, v)
    ensures server.url == old(server.url) && server.description == old(server.description)
  {
    v := server.AddVariable(name);
    PutBinds(if old(server.variables).None? then [] else old(server.variables).value, name, v);
    if enumNames.Some? {
      v.SetEnum(enumNames.value);
    }
    v.SetDefault(default);
  }

  /** The three `variable` blocks of the example's server, in the order written. */
  method DescribeVariables(server: Server)
    requires server.variables == None
    modifies server
    ensures server.url == old(server.url) && server.description == old(server.description)
    ensures server.variables.Some? && Keys(server.variables.value) == ["host", "port", "apiVersion"]
    ensures var host := Get(server.variables.value, "host");
      host.Some? && host.value.default == "http://localhost" && host.value.enum == None
    ensures var port := Get(server.variables.value, "port");
      port.Some? && port.value.default == "3000" && port.value.enum == Some(["3000", "443"])
    ensures var apiVersion := Get(server.variables.value, "apiVersion");
      apiVersion.Some? && apiVersion.value.default == "v2" && apiVersion.value.enum == None
  {
    var host := ConfigureVariable(server, "host", "http://localhost", None);
    ghost var m1 := server.variables.value;
    var port := ConfigureVariable(server, "port", "3000", Some(PortNames));
    ghost var m2 := server.variables.value;
    var apiVersion := ConfigureVariable(server, "apiVersion", "v2", None);
    VariableKeys(m1, m2, server.variables.value);
    VariableLookups(m1, m2, server.variables.value, host, port, apiVersion);
    PortEnumNames();
  }

  /** Binding host, port and apiVersion into an empty map keeps them in that order. */
  lemma VariableKeys(m1: seq<(string, ServerVariable)>, m2: seq<(string, ServerVariable)>, m3: seq<(string, ServerVariable)>)
    requires KeysAfterBind([], m1, "host") && KeysAfterBind(m1, m2, "port") && KeysAfterBind(m2, m3, "apiVersion")
    ensures Keys(m3) == ["host", "port", "apiVersion"]
  {
  }

  /** Binding three different names one after another, each keeps what was bound to it. */
  lemma VariableLookups(m1: seq<(string, ServerVariable)>, m2: seq<(string, ServerVariable)>, m3: seq<(string, ServerVariable)>,
                        host: ServerVariable, port: ServerVariable, apiVersion: ServerVariable)
    requires Binds([], m1, "host", host) && Binds(m1, m2, "port", port) && Binds(m2, m3, "apiVersion", apiVersion)
    ensures Get(m3, "host") == Some(host) && Get(m3, "port") == Some(port) && Get(m3, "apiVersion") == Some(apiVersion)
  {
  }

  /** The example's `server { ... }` block: one server appended, with its description, url and variables. */
  method DescribeServer(doc: Openapi) returns (server: Server)
    modifies doc
    ensures fresh(server) && doc.servers == old(doc.servers) + [server]
    ensures doc.openapi == old(doc.openapi) && doc.components == old(doc.components)
    ensures doc.tags == old(doc.tags) && doc.externalDocs == old(doc.externalDocs)
    ensures server.url == "{host}:{port}/{apiVersion}" && server.description == Some("Development Server")
    ensures server.variables.Some? && Keys(server.variables.value) == ["host", "port", "apiVersion"]
    ensures var host := Get(server.variables.value, "host");
      host.Some? && host.value.default == "http://localhost" && host.value.enum == None
    ensures var port := Get(server.variables.value, "port");
      port.Some? && port.value.default == "3000" && port.value.enum == Some(["3000", "443"])
    ensures var apiVersion := Get(server.variables.value, "apiVersion");
      apiVersion.Some? && apiVersion.value.default == "v2" && apiVersion.value.enum == None
  {
    server := doc.AddServer();
    server.SetDescription("Development Server");
    server.SetUrl("{host}:{port}/{apiVersion}");
    DescribeVariables(server);
  }

  /** `tag { name(...); description(...) }`: the tag the block configures is appended. */
  method ConfigureTag(doc: Openapi, name: string, description: string) returns (t: Tag)
    modifies doc
    ensures fresh(t) && t.name == name && t.description == Some(description) && t.externalDocs == null
    ensures doc.tags == Some((if old(doc.tags).None? then [] else old(doc.tags).value) + [t])
    ensures doc.openapi == old(doc.openapi) && doc.servers == old(doc.servers)
    ensures doc.components == old(doc.components) && doc.externalDocs == old(doc.externalDocs)
  {
    t := doc.AddTag();
    t.SetName(name);
    t.SetDescription(description);
  }

  /** The example's two `tag { ... }` blocks, on a document with no tags yet. */
  method DescribeTags(doc: Openapi)
    requires doc.tags == None
    modifies doc
    ensures doc.tags.Some? && |doc.tags.value| == 2
    ensures doc.tags.value[0].name == "Profile" && doc.tags.value[0].description == Some("Profile control section.")
    ensures doc.tags.value[1].name == "Auth" && doc.tags.value[1].description == Some("API access section.")
    ensures doc.openapi == old(doc.openapi) && doc.servers == old(doc.servers)
    ensures doc.components == old(doc.components) && doc.externalDocs == old(doc.externalDocs)
  {
    var profile := ConfigureTag(doc, "Profile", "Profile control section.");
    var auth := ConfigureTag(doc, "Auth", "API access section.");
    assert doc.tags.value == [profile, auth];
  }

  /**
   * `schema(key) { ... }` with a block that ignores the seed and returns
   * schema, on a document whose schemas map exists: key is bound to schema.
   */
  method ConfigureSchema(doc: Openapi, key: string, schema: Schema)
    requires doc.components != null && doc.components.schemas.Some?
    modifies doc, doc.components
    ensures doc.components == old(doc.components)
    ensures doc.components.schemas.Some? && Binds(old(doc.components.schemas).value, doc.components.schemas.value, key, schema)
    ensures doc.components.examples == old(doc.components.examples)
    ensures doc.openapi == old(doc.openapi) && doc.servers == old(doc.servers)
    ensures doc.tags == old(doc.tags) && doc.externalDocs == old(doc.externalDocs)
  {
    doc.PutSchema(key, _ => schema);
    PutBinds(old(doc.components.schemas).value, key, schema);
  }

  /** The example's first three `schema(key) { ... }` blocks, given what their blocks return, on a document with no components yet. */
  method DescribeObjectSchemas(doc: Openapi, profile: Schema, tile: Schema, arrays: Schema)
    requires doc.components == null
    modifies doc
    ensures doc.components != null && fresh(doc.components)
    ensures doc.components.schemas.Some? && doc.components.examples.None?
    ensures Keys(doc.components.schemas.value) == ["profile", "tile", "array"]
    ensures Get(doc.components.schemas.value, "profile") == Some(profile)
    ensures doc.openapi == old(doc.openapi) && doc.servers == old(doc.servers)
    ensures doc.tags == old(doc.tags) && doc.externalDocs == old(doc.externalDocs)
  {
    doc.PutSchema("profile", _ => profile);
    ghost var m1 := doc.components.schemas.value;
    PutBinds([], "profile", profile);
    ConfigureSchema(doc, "tile", tile);
    ghost var m2 := doc.components.schemas.value;
    ConfigureSchema(doc, "array", arrays);
    ObjectSchemaKeys(m1, m2, doc.components.schemas.value);
    ObjectSchemaLookups(m1, m2, doc.components.schemas.value, profile, tile, arrays);
  }

  /** Binding profile, tile and array into an empty map keeps them in that order. */
  lemma ObjectSchemaKeys(m1: seq<(string, Schema)>, m2: seq<(string, Schema)>, m3: seq<(string, Schema)>)
    requires KeysAfterBind([], m1, "profile") && KeysAfterBind(m1, m2, "tile") && KeysAfterBind(m2, m3, "array")
    ensures Keys(m3) == ["profile", "tile", "array"]
  {
  }

  /** Binding tile and array after profile leaves profile bound to what it was given. */
  lemma ObjectSchemaLookups(m1: seq<(string, Schema)>, m2: seq<(string, Schema)>, m3: seq<(string, Schema)>,
                            profile: Schema, tile: Schema, arrays: Schema)
    requires Binds([], m1, "profile", profile) && Binds(m1, m2, "tile", tile) && Binds(m2, m3, "array", arrays)
    ensures Get(m3, "profile") == Some(profile)
  {
  }

  /** The example's last three `schema(key) { ... }` blocks, given what the first two return. */
  method DescribeOtherSchemas(doc: Openapi, space: Schema, tor: Schema)
    requires doc.components != null && doc.components.schemas.Some?
    requires Keys(doc.components.schemas.value) == ["profile", "tile", "array"]
    modifies doc, doc.components
    ensures doc.components == old(doc.components) && doc.components.schemas.Some?
    ensures doc.components.examples == old(doc.components.examples)
    ensures Keys(doc.components.schemas.value) == ["profile", "tile", "array", "space", "tor", "single"]
    ensures Get(doc.components.schemas.value, "profile") == Get(old(doc.components.schemas).value, "profile")
    ensures Get(doc.components.schemas.value, "tor") == Some(tor)
    ensures Get(doc.components.schemas.value, "single") == Some(Natives.NUMBER)
    ensures doc.openapi == old(doc.openapi) && doc.servers == old(doc.servers)
    ensures doc.tags == old(doc.tags) && doc.externalDocs == old(doc.externalDocs)
  {
    ghost var m3 := doc.components.schemas.value;
    ConfigureSchema(doc, "space", space);
    ghost var m4 := doc.components.schemas.value;
    ConfigureSchema(doc, "tor", tor);
    ghost var m5 := doc.components.schemas.value;
    ConfigureSchema(doc, "single", Natives.NUMBER);
    OtherSchemaKeys(m3, m4, m5, doc.components.schemas.value);
    OtherSchemaLookups(m3, m4, m5, doc.components.schemas.value, space, tor, Natives.NUMBER);
  }

  /** Binding space, tor and single after profile, tile and array appends the three keys in that order. */
  lemma OtherSchemaKeys(m3: seq<(string, Schema)>, m4: seq<(string, Schema)>, m5: seq<(string, Schema)>,
                        m6: seq<(string, Schema)>)
    requires Keys(m3) == ["profile", "tile", "array"]
    requires KeysAfterBind(m3, m4, "space") && KeysAfterBind(m4, m5, "tor") && KeysAfterBind(m5, m6, "single")
    ensures Keys(m6) == ["profile", "tile", "array", "space", "tor", "single"]
  {
  }

  /** After binding space, tor and single, profile is untouched and the last two hold what was bound. */
  lemma OtherSchemaLookups(m3: seq<(string, Schema)>, m4: seq<(string, Schema)>, m5: seq<(string, Schema)>,
                           m6: seq<(string, Schema)>, space: Schema, tor: Schema, single: Schema)
    requires Binds(m3, m4, "space", space) && Binds(m4, m5, "tor", tor) && Binds(m5, m6, "single", single)
    ensures Get(m6, "profile") == Get(m3, "profile")
    ensures Get(m6, "tor") == Some(tor) && Get(m6, "single") == Some(single)
  {
  }

  /** The example's six `schema(key) { ... }` blocks, given what the first five blocks return, on a document with no components yet. */
  method DescribeSchemas(doc: Openapi, profile: Schema, tile: Schema, arrays: Schema, space: Schema, tor: Schema)
    requires doc.components == null
    modifies doc
    ensures doc.components != null && fresh(doc.components)
    ensures doc.components.schemas.Some? && doc.components.examples.None?
    ensures Keys(doc.components.schemas.value) == ["profile", "tile", "array", "space", "tor", "single"]
    ensures Get(doc.components.schemas.value, "profile") == Some(profile)
    ensures Get(doc.components.schemas.value, "tor") == Some(tor)
    ensures Get(doc.components.schemas.value, "single") == Some(Natives.NUMBER)
    ensures doc.openapi == old(doc.openapi) && doc.servers == old(doc.servers)
    ensures doc.tags == old(doc.tags) && doc.externalDocs == old(doc.externalDocs)
  {
    DescribeObjectSchemas(doc, profile, tile, arrays);
    DescribeOtherSchemas(doc, space, tor);
  }

  /** The example's `example("profileSignUp") { value(text) }` block, on a document with components and no examples. */
  method DescribeExample(doc: Openapi, text: string)
    requires doc.components != null && doc.components.examples.None?
    modifies doc, doc.components
    ensures doc.components == old(doc.components) && doc.components.schemas == old(doc.components.schemas)
    ensures doc.components.examples.Some? && Keys(doc.components.examples.value) == ["profileSignUp"]
    ensures var e := Get(doc.components.examples.value, "profileSignUp");
      e.Some? && e.value.value == Some(Str(Text.Trim(Text.TrimIndent(text))))
    ensures doc.openapi == old(doc.openapi) && doc.servers == old(doc.servers)
    ensures doc.tags == old(doc.tags) && doc.externalDocs == old(doc.externalDocs)
  {
    var signUp := doc.PutExample("profileSignUp");
    PutNewKey([], "profileSignUp", signUp, []);
    PutGet([], "profileSignUp", signUp);
    signUp.SetValue(text);
  }

  /** The example's `openapi`, `title`, `description` and `version` calls. */
  method DescribeInfo(doc: Openapi)
    modifies doc, doc.info
    ensures doc.openapi == "3.0.0"
    ensures doc.info.title == "BillTheBoard API" && doc.info.description == Some("An API to serve BillTheBoard.")
    ensures doc.info.version == "0.0.1"
    ensures doc.servers == old(doc.servers) && doc.components == old(doc.components)
    ensures doc.tags == old(doc.tags) && doc.externalDocs == old(doc.externalDocs)
  {
    doc.SetOpenapi("3.0.0");
    doc.SetTitle("BillTheBoard API");
    doc.SetDescription("An API to serve BillTheBoard.");
    doc.SetVersion("0.0.1");
  }

  /**
   * The body of the example's `api` block, run on the document `api` has
   * just registered. The caller supplies what the example's first five
   * `schema` blocks return (profile, tile, arrays, space and tor; the sixth
   * returns NUMBER) and signUpText, the raw text it passes to `value(...)`.
   * The block's document-level `externalDocs { ... }` call is left out: no
   * builder provides it.
   */
  method DescribeDocument(doc: Openapi, profile: Schema, tile: Schema, arrays: Schema,
                          space: Schema, tor: Schema, signUpText: string)
    requires IsDefaultDocument(doc)
    modifies doc, doc.info
    ensures doc.openapi == "3.0.0" && doc.info.title == "BillTheBoard API" && doc.info.version == "0.0.1"
    ensures doc.info.description == Some("An API to serve BillTheBoard.")
    ensures |doc.servers| == 1 && doc.servers[0].variables.Some?
    ensures doc.servers[0].url == "{host}:{port}/{apiVersion}" && doc.servers[0].description == Some("Development Server")
    ensures Keys(doc.servers[0].variables.value) == ["host", "port", "apiVersion"]
    ensures doc.tags.Some? && |doc.tags.value| == 2
    ensures doc.tags.value[0].name == "Profile" && doc.tags.value[1].name == "Auth"
    ensures doc.components != null && doc.components.schemas.Some? && doc.components.examples.Some?
    ensures Keys(doc.components.schemas.value) == ["profile", "tile", "array", "space", "tor", "single"]
    ensures Get(doc.components.schemas.value, "profile") == Some(profile)
    ensures Get(doc.components.schemas.value, "tor") == Some(tor)
    ensures Get(doc.components.schemas.value, "single") == Some(Natives.NUMBER)
    ensures Keys(doc.components.examples.value) == ["profileSignUp"]
    ensures var e := Get(doc.components.examples.value, "profileSignUp");
      e.Some? && e.value.value == Some(Str(Text.Trim(Text.TrimIndent(signUpText))))
    ensures doc.externalDocs == null
  {
    DescribeInfo(doc);
    var server := DescribeServer(doc);
    DescribeTags(doc);
    DescribeSchemas(doc, profile, tile, arrays, space, tor);
    DescribeExample(doc, signUpText);
  }

  /** `version api { ... }` as the example writes it: the document is registered under version, then built. */
  method Describe(registry: Registry, version: string, profile: Schema, tile: Schema, arrays: Schema,
                  space: Schema, tor: Schema, signUpText: string) returns (doc: Openapi)
    modifies registry
    ensures Get(registry.specs, version) == Some(doc)
    ensures forall k :: k != version ==> Get(registry.specs, k) == Get(old(registry.specs), k)
    ensures doc.openapi == "3.0.0" && doc.info.title == "BillTheBoard API" && doc.info.version == "0.0.1"
    ensures |doc.servers| == 1 && doc.tags.Some? && |doc.tags.value| == 2
    ensures doc.components != null && doc.components.schemas.Some?
    ensures Keys(doc.components.schemas.value) == ["profile", "tile", "array", "space", "tor", "single"]
  {
    doc := registry.Api(version);
    DescribeDocument(doc, profile, tile, arrays, space, tor, signUpText);
  }
}
