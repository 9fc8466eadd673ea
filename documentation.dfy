/**
 * The documentation feature (src/substrate/features/documentation/handler.py).
 *
 * Documentation comes from three places, tried in order: an external source
 * (private projects), YAML files shipped in the package, and legacy Markdown
 * files. What each place holds is a parameter of the model: the external
 * loader's answers, and the two directories as maps from a file's stem to the
 * file (`None` for a directory that does not exist).
 */
module Documentation {
  import opened Common
  import Navigation

  /** What the external loader answers: `load_documentation` per type and the stems `get_all_documentation_types` lists. */
  datatype ExternalDocs = ExternalDocs(docs: map<string, Value>, types: set<string>)

  /** An internal `<type>.yaml`: what `yaml.safe_load` makes of it (or the message it raises), and its size. */
  datatype YamlDoc = Yaml(content: Value, size: nat) | BadYaml(message: string, size: nat)

  /** A legacy `<type>.md`: its text and size. */
  datatype MarkdownDoc = Markdown(text: string, size: nat)

  /** A `DocumentationHandler`: the instance type and the three sources. */
  datatype Handler = Handler(
    instanceType: string,
    external: Option<ExternalDocs>,          // `None` when `is_available()` is false
    internal: Option<map<string, YamlDoc>>,  // `None` when the docs directory does not exist
    legacy: Option<map<string, MarkdownDoc>>)

  // ---------------------------------------------------------------------------
  // get_documentation
  // ---------------------------------------------------------------------------

  /** The outcome of `get_documentation`, before it is wrapped by the response builder. */
  datatype DocResult =
    | Found(content: Value, docType: string, source: string, format: string, message: string)
    | Failed(error: string, details: Obj)

  /** `_get_default_documentation`. */
  function DefaultDoc(instanceType: string): (d: Value)
    ensures d.Dict? && d.entries.Keys == {"version", "name", "description", "summary", "usage"}
    ensures d.entries["name"] == Str(instanceType)
    ensures d.entries["description"] == Str(Title(instanceType) + " MCP server")
  {
    var up := Upper(instanceType);
    Dict(map[
      "version" := Str("1.0"),
      "name" := Str(instanceType),
      "description" := Str(Title(instanceType) + " MCP server"),
      "summary" := Str("I am " + up + ", a cognitive manipulation server."),
      "usage" := Str("I am " + up + UsageTail)])
  }

  /** The fixed part of the generated usage text, after the server's name. */
  const UsageTail: string :=
    ", part of the cognitive manipulation system.\n\n"
    + "Available features depend on configuration. Use the available tools to:\n"
    + "- Manage references\n- Execute prompts\n- Access documentation\n\n"
    + "For more information, check if external documentation is available."

  /** The external document for a type, when the source is available and gives a truthy one. */
  predicate HasExternal(h: Handler, t: string) {
    h.external.Some? && t in h.external.value.docs && Truthy(h.external.value.docs[t])
  }

  predicate HasInternal(h: Handler, t: string) {
    h.internal.Some? && t in h.internal.value
  }

  predicate HasLegacy(h: Handler, t: string) {
    h.legacy.Some? && t in h.legacy.value
  }

  /** The type asked for: the instance type when none is given (an empty string is kept). */
  function RequestedType(h: Handler, docType: Option<string>): (t: string)
    ensures docType.None? ==> t == h.instanceType
    ensures docType.Some? ==> t == docType.value
  {
    if docType.None? then h.instanceType else docType.value
  }

  /**
   * `get_documentation`: the first source that has the type wins; with none,
   * the instance's own type gets generated documentation and any other type
   * an error. A YAML file that fails to parse ends the search with an error.
   */
  function GetDocumentation(h: Handler, docType: Option<string>): (r: DocResult)
    ensures var t := RequestedType(h, docType);
      (HasExternal(h, t) ==> r == Found(h.external.value.docs[t], t, "external", "yaml",
                                         "Loaded external documentation for " + t))
      && (!HasExternal(h, t) && HasInternal(h, t) && h.internal.value[t].Yaml? ==>
            r == Found(h.internal.value[t].content, t, "internal", "yaml", "Loaded internal documentation for " + t))
      && (!HasExternal(h, t) && HasInternal(h, t) && h.internal.value[t].BadYaml? ==>
            r == Failed("Failed to load documentation: " + h.internal.value[t].message,
                        map["doc_type" := Str(t), "instance" := Str(h.instanceType)]))
      && (!HasExternal(h, t) && !HasInternal(h, t) && HasLegacy(h, t) ==>
            r == Found(Str(h.legacy.value[t].text), t, "legacy", "markdown", "Loaded legacy documentation for " + t))
  {
    var t := RequestedType(h, docType);
    if HasExternal(h, t) then
      Found(h.external.value.docs[t], t, "external", "yaml", "Loaded external documentation for " + t)
    else if HasInternal(h, t) then
      match h.internal.value[t]
      case Yaml(content, _) => Found(content, t, "internal", "yaml", "Loaded internal documentation for " + t)
      case BadYaml(message, _) =>
        Failed("Failed to load documentation: " + message, map["doc_type" := Str(t), "instance" := Str(h.instanceType)])
    else if HasLegacy(h, t) then
      Found(Str(h.legacy.value[t].text), t, "legacy", "markdown", "Loaded legacy documentation for " + t)
    else if t == h.instanceType then
      Found(DefaultDoc(h.instanceType), t, "generated", "yaml", "Default documentation generated")
    else
      Failed("Documentation type '" + t + "' not found",
             map["requested" := Str(t), "instance" := Str(h.instanceType), "external_available" := Bool(h.external.Some?)])
  }

  /** When no source has the type, generated documentation comes back iff the type is the instance's own. */
  lemma NotFoundIff(h: Handler, docType: Option<string>)
    requires var t := RequestedType(h, docType); !HasExternal(h, t) && !HasInternal(h, t) && !HasLegacy(h, t)
    ensures var t := RequestedType(h, docType);
      (GetDocumentation(h, docType).Found? <==> t == h.instanceType)
      && (t == h.instanceType ==> GetDocumentation(h, docType).content == DefaultDoc(h.instanceType)
                                  && GetDocumentation(h, docType).source == "generated")
  {
    var t := RequestedType(h, docType);
    if t == h.instanceType {
      assert GetDocumentation(h, docType) == Found(DefaultDoc(h.instanceType), t, "generated", "yaml", "Default documentation generated");
    } else {
      assert GetDocumentation(h, docType).Failed?;
    }
  }

  /** Asking for nothing is asking for the instance's own type, so it never fails for lack of a source. */
  lemma DefaultTypeNeverMissing(h: Handler)
    ensures GetDocumentation(h, None).Failed? ==>
      HasInternal(h, h.instanceType) && h.internal.value[h.instanceType].BadYaml?
  {
  }

  /** The response the handler returns for a documentation outcome. */
  function Respond(server: string, r: DocResult, now: real): (resp: Obj)
    ensures "data" in resp && "metadata" in resp && resp["metadata"].Dict?
    ensures "status" in resp["metadata"].entries
    ensures resp["metadata"].entries["status"] == Str(if r.Found? then "success" else "error")
    ensures "server" in resp["metadata"].entries && resp["metadata"].entries["server"] == Str(server)
    ensures r.Found? ==> resp["data"] == Dict(map["content" := r.content, "doc_type" := Str(r.docType),
                                                  "source" := Str(r.source), "format" := Str(r.format)])
    ensures r.Failed? ==> resp["data"] == Dict(map["error" := Str(r.error), "details" := Dict(r.details)])
  {
    match r
    case Found(content, t, source, format, message) =>
      Navigation.Success(server,
        Dict(map["content" := content, "doc_type" := Str(t), "source" := Str(source), "format" := Str(format)]),
        Some(message), None, now)
    case Failed(error, details) => Navigation.Error(server, error, Some(details), now)
  }

  // ---------------------------------------------------------------------------
  // list_documentation
  // ---------------------------------------------------------------------------

  /** One listed document; legacy and internal entries carry the file size. */
  datatype DocEntry = DocEntry(docType: string, source: string, format: string, size: Option<nat>)

  function TypeOf(d: DocEntry): string {
    d.docType
  }

  function ExternalTypes(h: Handler): set<string> {
    if h.external.Some? then h.external.value.types else {}
  }

  function InternalTypes(h: Handler): set<string> {
    if h.internal.Some? then h.internal.value.Keys else {}
  }

  function LegacyTypes(h: Handler): set<string> {
    if h.legacy.Some? then h.legacy.value.Keys else {}
  }

  /** The entry a type is listed with: from the first source that has it. */
  function EntryFor(h: Handler, t: string): (d: DocEntry)
    requires t in ExternalTypes(h) + InternalTypes(h) + LegacyTypes(h)
    ensures d.docType == t
  {
    if t in ExternalTypes(h) then DocEntry(t, "external", "yaml", None)
    else if t in InternalTypes(h) then DocEntry(t, "internal", "yaml", Some(h.internal.value[t].size))
    else DocEntry(t, "legacy", "markdown", Some(h.legacy.value[t].size))
  }

  /** The types of a list of entries. */
  function Types(docs: seq<DocEntry>): set<string> {
    set d | d in docs :: d.docType
  }

  /** No type is listed twice. */
  predicate UniqueTypes(docs: seq<DocEntry>) {
    forall i, j :: 0 <= i < j < |docs| ==> docs[i].docType != docs[j].docType
  }

  /** One loop of the listing: add an entry for each type of `names` that `skip` does not exclude. */
  method AddEntries(docs: seq<DocEntry>, names: set<string>, h: Handler, skip: set<string>)
    returns (r: seq<DocEntry>)
    requires forall t :: t in names ==> t in ExternalTypes(h) + InternalTypes(h) + LegacyTypes(h)
    requires UniqueTypes(docs) && skip <= Types(docs)
    requires forall t :: t in names - skip ==> t !in Types(docs)
    ensures UniqueTypes(r) && Types(r) == Types(docs) + (names - skip)
    ensures forall d :: d in r ==> d in docs || (d.docType in names - skip && d == EntryFor(h, d.docType))
  {
    r := docs;
    var todo := names;
    while todo != {}
      invariant todo <= names
      invariant UniqueTypes(r) && Types(r) == Types(docs) + ((names - todo) - skip)
      invariant forall d :: d in r ==> d in docs || (d.docType in (names - todo) - skip && d == EntryFor(h, d.docType))
      decreases |todo|
    {
      var t :| t in todo;
      if t !in skip {
        var e := EntryFor(h, t);
        assert t !in Types(r);
        r := r + [e];
      }
      todo := todo - {t};
    }
  }

  /** The dictionary `list_documentation` puts under `data`. */
  datatype DocListing = DocListing(documentation: seq<DocEntry>, count: nat, external: bool, internal: bool, legacy: bool)

  /**
   * `list_documentation`: external types, then internal ones external does not
   * have, then legacy ones no earlier source has, sorted by type.
   */
  method ListDocumentation(h: Handler) returns (r: DocListing)
    ensures SortedBy(r.documentation, TypeOf) && UniqueTypes(r.documentation)
    ensures r.count == |r.documentation|
    ensures Types(r.documentation) == ExternalTypes(h) + InternalTypes(h) + LegacyTypes(h)
    ensures forall d :: d in r.documentation ==> d == EntryFor(h, d.docType)
    ensures r.external == h.external.Some? && r.internal == h.internal.Some? && r.legacy == h.legacy.Some?
  {
    var docs: seq<DocEntry> := [];
    docs := AddEntries(docs, ExternalTypes(h), h, {});
    docs := AddEntries(docs, InternalTypes(h), h, ExternalTypes(h));
    docs := AddEntries(docs, LegacyTypes(h), h, ExternalTypes(h) + InternalTypes(h));
    var sorted := SortBy(docs, TypeOf);
    SortKeepsUnique(docs, sorted);
    r := DocListing(sorted, |docs|, h.external.Some?, h.internal.Some?, h.legacy.Some?);
  }

  /** A permutation keeps the entries, hence the types and their uniqueness. */
  lemma SortKeepsUnique(docs: seq<DocEntry>, sorted: seq<DocEntry>)
    requires UniqueTypes(docs) && multiset(sorted) == multiset(docs)
    ensures UniqueTypes(sorted) && Types(sorted) == Types(docs) && |sorted| == |docs|
    ensures forall d :: d in sorted <==> d in docs
  {
    assert forall d :: d in sorted <==> d in multiset(sorted);
    assert forall d :: d in docs <==> d in multiset(docs);
    assert |sorted| == |multiset(sorted)| == |multiset(docs)| == |docs|;
    assert NoDups(docs);
    NoDupsMultiset(docs);
    NoDupsMultiset(sorted);
    forall i, j | 0 <= i < j < |sorted| ensures sorted[i].docType != sorted[j].docType {
      assert sorted[i] in docs && sorted[j] in docs;
      var a :| 0 <= a < |docs| && docs[a] == sorted[i];
      var b :| 0 <= b < |docs| && docs[b] == sorted[j];
      assert sorted[i] != sorted[j];
      assert a != b;
    }
  }
}
