/**
 * The registry of documents: an ordered map from a version key (the
 * version string used in request urls) to the document registered under it.
 */
module SpecList {
  import opened Wrappers
  import opened OrderedMap
  import opened Swagger
  import Themis

  /** The document `api` registers: openapi "3.0.0", Info("API Spec", "v1"), and nothing else. */
  ghost predicate IsDefaultDocument(doc: Openapi)
    reads doc, doc.info
  {
    && doc.openapi == "3.0.0"
    && doc.info.title == "API Spec" && doc.info.version == "v1"
    && doc.info.description == None && doc.info.termsOfService == None
    && doc.info.contact == None && doc.info.license == None
    && doc.servers == [] && doc.components == null && doc.tags == None && doc.externalDocs == null
  }

  /**
   * The initialisation state of the JVM class that holds the file-level
   * declarations of the builder: initialised on the first call into the
   * file, and marked failed for good when its initialiser throws.
   */
  datatype ClassInit = Uninitialised | Initialised | Failed

  /** The message of the NoClassDefFoundError that every call into a failed class throws. */
  const NoClassDefMessage := "Could not initialize class themis.ThemisKt"

  /**
   * `SpecList.specs`: the one registry of the program, an instance here,
   * together with the initialisation state of the builder's file class.
   */
  class Registry {
    var specs: seq<(string, Openapi)>
    var fileClass: ClassInit

    /** No key is bound twice. */
    ghost predicate Valid()
      reads this
    {
      UniqueKeys(specs)
    }

    /** The registry starts empty. */
    constructor ()
      ensures specs == [] && fileClass == Uninitialised && Valid()
    {
      specs := [];
      fileClass := Uninitialised;
    }

    /**
     * `key api { ... }`: a new default document replaces whatever was
     * registered under key (a new key goes last, an existing key keeps its
     * place); every other key keeps its document. The registered document is
     * returned, and the caller's block is the builder calls it then makes on it.
     */
    method Api(key: string) returns (doc: Openapi)
      modifies this
      ensures fresh(doc) && fresh(doc.info) && IsDefaultDocument(doc)
      ensures specs == Put(old(specs), key, doc)
      ensures Get(specs, key) == Some(doc)
      ensures forall k :: k != key ==> Get(specs, k) == Get(old(specs), k)
      ensures old(Valid()) ==> Valid()
      ensures fileClass == old(fileClass)
    {
      ghost var before := specs;
      var info := new Info("API Spec", version := "v1");
      doc := new Openapi("3.0.0", info);
      specs := Put(specs, key, doc);
      PutGet(before, key, doc);
      forall k | k != key
        ensures Get(specs, k) == Get(before, k)
      {
        PutGetOther(before, key, doc, k);
      }
    }

    /**
     * `key api { ... }` as the file is written, with the file's `todos`
     * placeholders given as todoReasons. The first call initialises the
     * file's class; when that throws, the NotImplementedError escapes and the
     * class stays failed, so every later call throws NoClassDefFoundError
     * without rerunning the initialiser. A call that throws registers nothing
     * and returns no document; otherwise the call is `Api`.
     */
    method ApiAsWritten(key: string, todoReasons: seq<string>) returns (doc: Option<Openapi>, thrown: Option<string>)
      modifies this
      ensures old(fileClass) == Failed ==> thrown == Some(NoClassDefMessage) && fileClass == Failed
      ensures old(fileClass) == Initialised ==> thrown.None? && fileClass == Initialised
      ensures old(fileClass) == Uninitialised ==> thrown == Themis.FileClassInitError(todoReasons)
      ensures old(fileClass) == Uninitialised ==> fileClass == if thrown.Some? then Failed else Initialised
      ensures thrown.Some? ==> doc.None? && specs == old(specs)
      ensures thrown.None? ==> doc.Some? && fresh(doc.value) && IsDefaultDocument(doc.value)
      ensures thrown.None? ==> specs == Put(old(specs), key, doc.value)
    {
      if fileClass == Failed {
        thrown := Some(NoClassDefMessage);
      } else if fileClass == Initialised {
        thrown := None;
      } else {
        thrown := Themis.FileClassInitError(todoReasons);
        fileClass := if thrown.Some? then Failed else Initialised;
      }
      if thrown.Some? {
        doc := None;
      } else {
        var registered := Api(key);
        doc := Some(registered);
      }
    }
  }
}
