/**
 * The document entities that the builder creates and updates in place, each
 * a class whose fields are declared in the source's order, with the builder
 * operations that act on it as methods.
 *
 * A builder that takes a caller block in the source (`server { ... }`,
 * `tag { ... }`, `variable(name) { ... }`, `example(key) { ... }`,
 * `externalDocs { ... }`) creates the same seed object, stores it where the
 * source stores it, and returns it: the caller's block is the setter calls
 * the caller then makes on the returned object. The container holds the
 * object itself, so for a block that only calls setters on the seed the
 * document ends up as if the block had run first. The source stores the
 * seed only after the block, so a block that calls a builder of an
 * enclosing receiver can end differently.
 */
module Swagger {
  import opened Wrappers
  import Types
  import opened Schemas
  import opened OrderedMap
  import Text
  import Themis

  // Entities that no builder of this model constructs or updates; each stands
  // for a record of that kind, known only by its identity.
  datatype Contact = Contact(token: nat)
  datatype License = License(token: nat)
  datatype Response = Response(token: nat)
  datatype Parameter = Parameter(token: nat)
  datatype RequestBody = RequestBody(token: nat)
  datatype Header = Header(token: nat)
  datatype SecurityScheme = SecurityScheme(token: nat)
  datatype Link = Link(token: nat)
  datatype PathsItem = PathsItem(token: nat)

  /** A callback: a map from a runtime expression to a path item. */
  type Callback = seq<(string, PathsItem)>

  /** Metadata about the API. Title and version are required; contact and license are fixed at construction. */
  class Info {
    var title: string
    var description: Option<string>
    var termsOfService: Option<string>
    const contact: Option<Contact>
    const license: Option<License>
    var version: string

    constructor (title: string, description: Option<string> := None, termsOfService: Option<string> := None,
                 contact: Option<Contact> := None, license: Option<License> := None, version: string)
      ensures this.title == title && this.description == description && this.termsOfService == termsOfService
      ensures this.contact == contact && this.license == license && this.version == version
    {
      this.title := title;
      this.description := description;
      this.termsOfService := termsOfService;
      this.contact := contact;
      this.license := license;
      this.version := version;
    }
  }

  /** A reference to external documentation. The url is required and not checked to be a URL. */
  class ExternalDocumentation {
    var description: Option<string>
    var url: string

    constructor (description: Option<string> := None, url: string)
      ensures this.description == description && this.url == url
    {
      this.description := description;
      this.url := url;
    }

    /** `description(d)` */
    method SetDescription(d: string)
      modifies this
      ensures description == Some(d) && url == old(url)
    {
      description := Some(d);
    }

    /** `url(u)` */
    method SetUrl(u: string)
      modifies this
      ensures url == u && description == old(description)
    {
      url := u;
    }
  }

  /** Metadata for one tag. The name is required. */
  class Tag {
    var name: string
    var description: Option<string>
    var externalDocs: ExternalDocumentation?

    constructor (name: string, description: Option<string> := None, externalDocs: ExternalDocumentation? := null)
      ensures this.name == name && this.description == description && this.externalDocs == externalDocs
    {
      this.name := name;
      this.description := description;
      this.externalDocs := externalDocs;
    }

    /** `name(n)` */
    method SetName(n: string)
      modifies this
      ensures name == n && description == old(description) && externalDocs == old(externalDocs)
    {
      name := n;
    }

    /** `description(d)` */
    method SetDescription(d: string)
      modifies this
      ensures description == Some(d) && name == old(name) && externalDocs == old(externalDocs)
    {
      description := Some(d);
    }

    /**
     * `externalDocs { ... }`: a new `ExternalDocumentation("", "")` (the
     * description present and empty, the url empty) replaces the tag's
     * external documentation.
     */
    method SetExternalDocs() returns (docs: ExternalDocumentation)
      modifies this
      ensures fresh(docs) && docs.description == Some("") && docs.url == ""
      ensures externalDocs == docs && name == old(name) && description == old(description)
    {
      docs := new ExternalDocumentation(Some(""), "");
      externalDocs := docs;
    }
  }

  /**
   * A server variable. The default is required; it need not be one of the
   * enum values, and the enum may be empty.
   */
  class ServerVariable {
    var enum: Option<seq<string>>
    var default: string
    var description: Option<string>

    constructor (enum: Option<seq<string>> := None, default: string, description: Option<string> := None)
      ensures this.enum == enum && this.default == default && this.description == description
    {
      this.enum := enum;
      this.default := default;
      this.description := description;
    }

    /** `enum(E::class)`, given the enum's constant names: the names without their first character. */
    method SetEnum(names: seq<string>)
      requires forall i :: 0 <= i < |names| ==> names[i] != ""
      modifies this
      ensures enum == Some(Themis.EnumNames(names))
      ensures default == old(default) && description == old(description)
    {
      enum := Some(Themis.EnumNames(names));
    }

    /** `default(d)` */
    method SetDefault(d: string)
      modifies this
      ensures default == d && enum == old(enum) && description == old(description)
    {
      default := d;
    }

    /** `description(d)` */
    method SetDescription(d: string)
      modifies this
      ensures description == Some(d) && enum == old(enum) && default == old(default)
    {
      description := Some(d);
    }
  }

  /** A server. The url is required; variable names are not checked against its `{name}` placeholders. */
  class Server {
    var url: string
    var description: Option<string>
    var variables: Option<seq<(string, ServerVariable)>>

    constructor (url: string, description: Option<string> := None,
                 variables: Option<seq<(string, ServerVariable)>> := None)
      ensures this.url == url && this.description == description && this.variables == variables
    {
      this.url := url;
      this.description := description;
      this.variables := variables;
    }

    /** `url(u)` */
    method SetUrl(u: string)
      modifies this
      ensures url == u && description == old(description) && variables == old(variables)
    {
      url := u;
    }

    /** `description(d)` */
    method SetDescription(d: string)
      modifies this
      ensures description == Some(d) && url == old(url) && variables == old(variables)
    {
      description := Some(d);
    }

    /**
     * `variable(name) { ... }`: the variables map is created only when it is
     * absent, then a new `ServerVariable(default = "")` is bound to the name;
     * a new name goes last, a name already bound keeps its place and gets the
     * new variable.
     */
    method AddVariable(name: string) returns (v: ServerVariable)
      modifies this
      ensures fresh(v) && v.enum == None && v.default == "" && v.description == None
      ensures old(variables).None? ==> variables == Some([(name, v)])
      ensures old(variables).Some? ==> variables == Some(Put(old(variables).value, name, v))
      ensures url == old(url) && description == old(description)
    {
      if variables == None {
        variables := Some([]);
      }
      v := new ServerVariable(default := "");
      variables := Some(Put(variables.value, name, v));
    }
  }

  /** An example. Every field defaults to absent; value and externalValue may both be set. */
  class Example {
    var summary: Option<string>
    var description: Option<string>
    var value: Option<AnyValue>
    var externalValue: Option<string>

    constructor (summary: Option<string> := None, description: Option<string> := None,
                 value: Option<AnyValue> := None, externalValue: Option<string> := None)
      ensures this.summary == summary && this.description == description
      ensures this.value == value && this.externalValue == externalValue
    {
      this.summary := summary;
      this.description := description;
      this.value := value;
      this.externalValue := externalValue;
    }

    /** `summary(s)` */
    method SetSummary(s: string)
      modifies this
      ensures summary == Some(s)
      ensures description == old(description) && value == old(value) && externalValue == old(externalValue)
    {
      summary := Some(s);
    }

    /** `description(d)` */
    method SetDescription(d: string)
      modifies this
      ensures description == Some(d)
      ensures summary == old(summary) && value == old(value) && externalValue == old(externalValue)
    {
      description := Some(d);
    }

    /**
     * `value(text)`: the text is stored with its common indent and its blank
     * first and last lines removed (`trimIndent()`), and then without
     * leading or trailing whitespace (`trim()`).
     */
    method SetValue(text: string)
      modifies this
      ensures value == Some(Str(Text.Trim(Text.TrimIndent(text))))
      ensures summary == old(summary) && description == old(description) && externalValue == old(externalValue)
    {
      value := Some(Str(Text.Trim(Text.TrimIndent(text))));
    }

    /** `externalValue(u)`: the url is stored even when a value is set. */
    method SetExternalValue(u: string)
      modifies this
      ensures externalValue == Some(u)
      ensures summary == old(summary) && description == old(description) && value == old(value)
    {
      externalValue := Some(u);
    }
  }

  /**
   * Reusable objects of the document: nine sub-maps, each absent until a
   * builder first creates it. Keys are documented to match
   * `^[a-zA-Z0-9\.\-_]+$`; nothing checks this.
   */
  class Components {
    var schemas: Option<seq<(string, Schema)>>
    var responses: Option<seq<(string, Response)>>
    var parameters: Option<seq<(string, Parameter)>>
    var examples: Option<seq<(string, Example)>>
    var requestBodies: Option<seq<(string, RequestBody)>>
    var headers: Option<seq<(string, Header)>>
    var securitySchemes: Option<seq<(string, SecurityScheme)>>
    var links: Option<seq<(string, Link)>>
    var callbacks: Option<seq<(string, Callback)>>

    /** `Components()`: every sub-map absent. */
    constructor ()
      ensures IsEmpty()
    {
      schemas, responses, parameters, examples := None, None, None, None;
      requestBodies, headers, securitySchemes, links, callbacks := None, None, None, None, None;
    }

    /** Every sub-map is absent. */
    ghost predicate IsEmpty()
      reads this
    {
      && schemas.None? && responses.None? && parameters.None? && examples.None?
      && requestBodies.None? && headers.None? && securitySchemes.None? && links.None? && callbacks.None?
    }

    /** The seven sub-maps that no builder writes. */
    ghost predicate UnbuiltAbsent()
      reads this
    {
      && responses.None? && parameters.None? && requestBodies.None? && headers.None?
      && securitySchemes.None? && links.None? && callbacks.None?
    }
  }

  /**
   * The root document. `openapi` and `info` are required; the Info object is
   * fixed (only its fields change); the servers list is never absent and only
   * grows; components, tags and externalDocs start absent. This revision has
   * no paths and no security field.
   */
  class Openapi {
    var openapi: string
    const info: Info
    var servers: seq<Server>
    var components: Components?
    var tags: Option<seq<Tag>>
    var externalDocs: ExternalDocumentation?

    constructor (openapi: string, info: Info, servers: seq<Server> := [], components: Components? := null,
                 tags: Option<seq<Tag>> := None, externalDocs: ExternalDocumentation? := null)
      ensures this.openapi == openapi && this.info == info && this.servers == servers
      ensures this.components == components && this.tags == tags && this.externalDocs == externalDocs
    {
      this.openapi := openapi;
      this.info := info;
      this.servers := servers;
      this.components := components;
      this.tags := tags;
      this.externalDocs := externalDocs;
    }

    /** `initiateTags()`: an empty tag list when there is none; an existing list is kept. */
    method InitiateTags()
      modifies this
      ensures tags == if old(tags).None? then Some([]) else old(tags)
      ensures openapi == old(openapi) && servers == old(servers)
      ensures components == old(components) && externalDocs == old(externalDocs)
    {
      if tags == None {
        tags := Some([]);
      }
    }

    /** `initiateComponents()`: an empty Components when there is none; an existing one is kept as it is. */
    method InitiateComponents()
      modifies this
      ensures components != null
      ensures old(components) != null ==> components == old(components)
      ensures old(components) == null ==> fresh(components) && components.IsEmpty()
      ensures openapi == old(openapi) && servers == old(servers)
      ensures tags == old(tags) && externalDocs == old(externalDocs)
    {
      if components == null {
        components := new Components();
      }
    }

    /** `openapi(v)` */
    method SetOpenapi(v: string)
      modifies this
      ensures openapi == v && servers == old(servers) && components == old(components)
      ensures tags == old(tags) && externalDocs == old(externalDocs)
    {
      openapi := v;
    }

    /** `title(t)`: writes the title into the document's Info object. */
    method SetTitle(t: string)
      modifies info
      ensures info.title == t && info.description == old(info.description)
      ensures info.termsOfService == old(info.termsOfService) && info.version == old(info.version)
    {
      info.title := t;
    }

    /** `description(d)`: writes the description into the document's Info object. */
    method SetDescription(d: string)
      modifies info
      ensures info.description == Some(d) && info.title == old(info.title)
      ensures info.termsOfService == old(info.termsOfService) && info.version == old(info.version)
    {
      info.description := Some(d);
    }

    /** `version(v)`: writes the document version (not the registry key) into the Info object. */
    method SetVersion(v: string)
      modifies info
      ensures info.version == v && info.title == old(info.title)
      ensures info.description == old(info.description) && info.termsOfService == old(info.termsOfService)
    {
      info.version := v;
    }

    /** `server { ... }`: a new `Server("")` is appended to the servers list. */
    method AddServer() returns (s: Server)
      modifies this
      ensures fresh(s) && s.url == "" && s.description == None && s.variables == None
      ensures servers == old(servers) + [s]
      ensures openapi == old(openapi) && components == old(components)
      ensures tags == old(tags) && externalDocs == old(externalDocs)
    {
      s := new Server("");
      servers := servers + [s];
    }

    /**
     * `tag { ... }`: the tag list is created only when absent, then a new
     * `Tag("")` is appended. Tag names are not checked to be unique.
     */
    method AddTag() returns (t: Tag)
      modifies this
      ensures fresh(t) && t.name == "" && t.description == None && t.externalDocs == null
      ensures tags == Some((if old(tags).None? then [] else old(tags).value) + [t])
      ensures openapi == old(openapi) && servers == old(servers)
      ensures components == old(components) && externalDocs == old(externalDocs)
    {
      InitiateTags();
      t := new Tag("");
      tags := Some(tags.value + [t]);
    }

    /**
     * `schema(key) { ... }`: components and its schemas map are created only
     * when absent, then key is bound to what the block returns for the seed
     * `Schema(type = "string")`.
     */
    method PutSchema(key: string, block: Schema -> Schema)
      modifies this, components
      ensures components != null
      ensures old(components) != null ==> components == old(components)
      ensures old(components) == null ==> fresh(components) && components.examples.None? && components.UnbuiltAbsent()
      ensures old(components) != null && old(components.schemas).Some? ==>
                components.schemas == Some(Put(old(components.schemas).value, key, block(Schema(typeName := Types.String))))
      ensures old(components) == null || old(components.schemas).None? ==>
                components.schemas == Some([(key, block(Schema(typeName := Types.String)))])
      ensures old(components) != null ==>
                && components.examples == old(components.examples)
                && components.responses == old(components.responses)
                && components.parameters == old(components.parameters)
                && components.requestBodies == old(components.requestBodies)
                && components.headers == old(components.headers)
                && components.securitySchemes == old(components.securitySchemes)
                && components.links == old(components.links)
                && components.callbacks == old(components.callbacks)
      ensures openapi == old(openapi) && servers == old(servers)
      ensures tags == old(tags) && externalDocs == old(externalDocs)
    {
      InitiateComponents();
      if components.schemas == None {
        components.schemas := Some([]);
      }
      components.schemas := Some(Put(components.schemas.value, key, block(Schema(typeName := Types.String))));
    }

    /**
     * `example(key) { ... }`: components and its examples map are created
     * only when absent, then a new `Example()` is bound to key.
     */
    method PutExample(key: string) returns (e: Example)
      modifies this, components
      ensures fresh(e) && e.summary == None && e.description == None && e.value == None && e.externalValue == None
      ensures components != null
      ensures old(components) != null ==> components == old(components)
      ensures old(components) == null ==> fresh(components) && components.schemas.None? && components.UnbuiltAbsent()
      ensures old(components) != null && old(components.examples).Some? ==>
                components.examples == Some(Put(old(components.examples).value, key, e))
      ensures old(components) == null || old(components.examples).None? ==>
                components.examples == Some([(key, e)])
      ensures old(components) != null ==>
                && components.schemas == old(components.schemas)
                && components.responses == old(components.responses)
                && components.parameters == old(components.parameters)
                && components.requestBodies == old(components.requestBodies)
                && components.headers == old(components.headers)
                && components.securitySchemes == old(components.securitySchemes)
                && components.links == old(components.links)
                && components.callbacks == old(components.callbacks)
      ensures openapi == old(openapi) && servers == old(servers)
      ensures tags == old(tags) && externalDocs == old(externalDocs)
    {
      InitiateComponents();
      if components.examples == None {
        components.examples := Some([]);
      }
      e := new Example();
      components.examples := Some(Put(components.examples.value, key, e));
    }
  }
}
