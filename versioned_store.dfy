/**
 * The reference store of components.py, shared by all substrate servers:
 * references are YAML files under `refs/` carrying a version number that each
 * write increments, with read-only fallback to legacy `.json` files and a
 * clean-up of old temporary references.
 */
module VersionedRefStore {
  import opened Common
  import opened RefFiles
  import SubstrateErrors

  const Yaml := ".yaml"
  const Json := ".json"

  /** `_get_ref_path`: surrounding slashes removed, `.yaml` appended. */
  function Key(ref: string): (k: string)
    ensures EndsWith(k, Yaml)
  {
    var k := Strip(ref, {'/'}) + Yaml;
    assert k[|k| - |Yaml|..] == Yaml;
    k
  }

  /**
   * `_get_ref_path(ref).with_suffix('.json')`: the legacy file. For an empty name
   * the YAML path's file name is the bare `.yaml`, which pathlib takes as a name
   * without a suffix, so `.json` is appended to it.
   */
  function JsonKey(ref: string): (k: string)
    ensures EndsWith(k, Json)
  {
    var n := Strip(ref, {'/'});
    var k := if n == "" then Yaml + Json else n + Json;
    assert k[|k| - |Json|..] == Json;
    k
  }

  lemma KeysDiffer(ref: string)
    ensures Key(ref) != JsonKey(ref)
  {
    assert Key(ref)[|Key(ref)| - 1] == 'l';
    assert JsonKey(ref)[|JsonKey(ref)| - 1] == 'n';
  }

  /** A name without surrounding slashes is stored under itself plus `.yaml`: no component, not even `..`, is rejected. */
  lemma {:induction false} KeyOfUnslashed(ref: string)
    requires |ref| > 0 && ref[0] != '/' && ref[|ref| - 1] != '/'
    ensures Key(ref) == ref + Yaml
  {
    assert LeadCount(ref, {'/'}) == 0;
    assert TrailCount(ref, {'/'}) == 0;
  }

  /** Names that differ only in surrounding slashes address the same file. */
  lemma {:induction false} OuterSlashesIgnored(ref: string)
    ensures Key("/" + ref) == Key(ref) && Key(ref + "/") == Key(ref)
  {
    StripLeading('/', ref, {'/'});
    StripTrailing(ref, '/', {'/'});
    assert "/" + ref == ['/'] + ref;
    assert ref + "/" == ref + ['/'];
  }

  /** The message every not-found failure of this store carries. */
  function NotFoundMessage(ref: string): string {
    "Reference '" + ref + "' not found"
  }

  /** The file a read consults: the YAML file, else the legacy JSON file, else none. */
  function Located(fs: Files, ref: string): (k: Option<string>)
    ensures k.Some? ==> k.value in fs
    ensures k.Some? ==> k.value == Key(ref) || (k.value == JsonKey(ref) && Key(ref) !in fs)
    ensures k.None? <==> Key(ref) !in fs && JsonKey(ref) !in fs
  {
    if Key(ref) in fs then Some(Key(ref))
    else if JsonKey(ref) in fs then Some(JsonKey(ref))
    else None
  }

  /** `get_ref_metadata`: the whole parsed document. */
  function Metadata(fs: Files, ref: string): (r: Result<Value, StoreError>)
    ensures r.Err? && Located(fs, ref).None? ==> r.error == NotFound(NotFoundMessage(ref))
    ensures r.Ok? <==> Located(fs, ref).Some? && fs[Located(fs, ref).value].body.Parsed?
  {
    match Located(fs, ref)
    case None => Err(NotFound(NotFoundMessage(ref)))
    case Some(k) =>
      match fs[k].body
      case Unparseable => Err(ParseError)
      case Parsed(data) => Ok(data)
  }

  /** `read_ref`: the document's `content`, which must be present. */
  function Read(fs: Files, ref: string): (r: Result<Value, StoreError>)
    ensures Metadata(fs, ref).Err? ==> r == Metadata(fs, ref)
    ensures r.Ok? <==>
      Metadata(fs, ref).Ok? && Metadata(fs, ref).value.Dict? && "content" in Metadata(fs, ref).value.entries
    ensures r.Ok? ==> r.value == Metadata(fs, ref).value.entries["content"]
  {
    match Metadata(fs, ref)
    case Err(e) => Err(e)
    case Ok(data) =>
      if !data.Dict? then Err(NotAMapping)
      else if "content" !in data.entries then Err(MissingKey("content"))
      else Ok(data.entries["content"])
  }

  /** What a write takes over from the existing YAML document: its version and its creation stamp. */
  datatype Prior = Prior(version: Value, created: Value)

  /**
   * Python's `v + 1`: a boolean counts as 0 or 1, an integer or a float is
   * incremented, and anything else (a string, a list, a mapping, None) raises
   * TypeError.
   */
  function PlusOne(v: Value): (r: Option<Value>)
    ensures r.Some? <==> v.Bool? || v.Int? || v.Real?
    ensures r.Some? ==> r.value.Int? || r.value.Real?
  {
    match v
    case Bool(b) => Some(Int(if b then 2 else 1))
    case Int(i) => Some(Int(i + 1))
    case Real(x) => Some(Real(x + 1.0))
    case _ => None
  }

  /** The document `create_ref` finds under `k` and may take its version from: present, parsed, a mapping. */
  predicate Readable(fs: Files, k: string) {
    k in fs && fs[k].body.Parsed? && fs[k].body.data.Dict?
  }

  /**
   * The version and `created` stamp `create_ref` writes. An existing mapping
   * whose version (absent counts as 0) can be incremented gives that version
   * plus one and its own `created`; a missing or unreadable document, or one
   * whose version raises on `+ 1` before `created` is read, is ignored.
   */
  function PriorOf(fs: Files, k: string, now: Clock): (p: Prior)
    ensures p.version.Int? || p.version.Real?
    ensures var v := if Readable(fs, k) then PlusOne(Get(fs[k].body.data.entries, "version", Int(0))) else None;
      if v.Some? then p == Prior(v.value, Get(fs[k].body.data.entries, "created", Str(now.iso)))
      else p == Prior(Int(1), Str(now.iso))
  {
    if Readable(fs, k) && PlusOne(Get(fs[k].body.data.entries, "version", Int(0))).Some? then
      var d := fs[k].body.data.entries;
      Prior(PlusOne(Get(d, "version", Int(0))).value, Get(d, "created", Str(now.iso)))
    else Prior(Int(1), Str(now.iso))
  }

  /** The document `create_ref` writes. */
  function Document(content: string, metadata: Option<Obj>, p: Prior, now: Clock): (d: Obj)
    ensures d.Keys == {"content", "metadata", "created", "updated", "version"}
    ensures d["content"] == Str(content) && d["version"] == p.version && d["created"] == p.created
  {
    Record(content, metadata, p.created, now.iso)["version" := p.version]
  }

  /** The directory after `create_ref`. */
  function Created(fs: Files, ref: string, content: string, metadata: Option<Obj>, now: Clock): Files {
    fs[Key(ref) := File(Parsed(Dict(Document(content, metadata, PriorOf(fs, Key(ref), now), now))), now.seconds)]
  }

  /** The name `list_refs` reports for a file: the extension dropped and backslashes turned into slashes. */
  function NameOf(k: string): string {
    var n := if EndsWith(k, Yaml) then Stem(k, Yaml) else if EndsWith(k, Json) then Stem(k, Json) else k;
    ReplaceChar(n, '\\', '/')
  }

  /** The files `list_refs` reports: `*.yaml` and `*.json` files whose name starts with the prefix, when one is given. */
  predicate Listed(k: string, prefix: Option<string>) {
    (EndsWith(k, Yaml) || EndsWith(k, Json)) && (prefix.None? || StartsWith(NameOf(k), prefix.value))
  }

  function Names(keys: set<string>, prefix: Option<string>): set<string> {
    set k | k in keys && Listed(k, prefix) :: NameOf(k)
  }

  lemma NamesAdd(keys: set<string>, k: string, prefix: Option<string>)
    ensures Names(keys + {k}, prefix) == Names(keys, prefix) + (if Listed(k, prefix) then {NameOf(k)} else {})
  {
  }

  /** One step of the listing loop: a new name is appended once, a repeated one skipped. */
  lemma ListStep(refs: seq<string>, done: set<string>, k: string, prefix: Option<string>)
    requires Elems(refs) == Names(done, prefix) && NoDups(refs)
    ensures var next := if Listed(k, prefix) && NameOf(k) !in refs then refs + [NameOf(k)] else refs;
      Elems(next) == Names(done + {k}, prefix) && NoDups(next)
  {
    NamesAdd(done, k, prefix);
    if Listed(k, prefix) && NameOf(k) !in refs {
      ElemsAppend(refs, NameOf(k));
    } else if Listed(k, prefix) {
      assert NameOf(k) in Elems(refs);
    }
  }

  /** The files `cleanup_old_refs` visits: YAML and JSON files under the prefix. */
  predicate Swept(k: string, prefix: string) {
    StartsWith(k, prefix) && (EndsWith(k, Yaml) || EndsWith(k, Json))
  }

  /** The files `cleanup_old_refs` removes: swept, older than the cut-off, and not among those whose removal fails. */
  function Expired(fs: Files, prefix: string, cutoff: int, failing: set<string>): set<string> {
    set k | k in fs && Expires(fs, k, prefix, cutoff, failing)
  }

  predicate Expires(fs: Files, k: string, prefix: string, cutoff: int, failing: set<string>)
    requires k in fs
  {
    Swept(k, prefix) && fs[k].mtime < cutoff && k !in failing
  }

  class ReferenceManager {
    /** The server the store belongs to; its data lives under `/app/data/<server_name>` by default. */
    const serverName: string
    /** The files under the store's `refs/` directory. */
    var files: Files

    constructor(serverName: string, existing: Files)
      ensures this.serverName == serverName && files == existing
    {
      this.serverName := serverName;
      files := existing;
    }

    /** `create_ref`: write the document with the next version, keeping `created` from the previous one. */
    method CreateRef(ref: string, content: string, metadata: Option<Obj>, now: Clock) returns (r: Obj)
      modifies this
      ensures files == Created(old(files), ref, content, metadata, now)
      ensures r == map["ref" := Str(ref), "version" := PriorOf(old(files), Key(ref), now).version]
    {
      var k := Key(ref);
      var version := Int(1);
      var created := Str(now.iso);
      if k in files {
        var body := files[k].body;
        if body.Parsed? && body.data.Dict? {
          var v := PlusOne(Get(body.data.entries, "version", Int(0)));
          if v.Some? {
            version := v.value;
            created := Get(body.data.entries, "created", created);
          }
        }
      }
      assert Prior(version, created) == PriorOf(files, k, now);
      files := files[k := File(Parsed(Dict(Document(content, metadata, Prior(version, created), now))), now.seconds)];
      r := map["ref" := Str(ref), "version" := version];
    }

    /** `read_ref`. */
    method ReadRef(ref: string) returns (r: Result<Value, StoreError>)
      ensures r == Read(files, ref)
    {
      var k := Key(ref);
      if k !in files {
        k := JsonKey(ref);
        if k !in files {
          return Err(NotFound(NotFoundMessage(ref)));
        }
      }
      var body := files[k].body;
      if body.Unparseable? {
        return Err(ParseError);
      }
      if !body.data.Dict? {
        return Err(NotAMapping);
      }
      if "content" !in body.data.entries {
        return Err(MissingKey("content"));
      }
      r := Ok(body.data.entries["content"]);
    }

    /** `update_ref`: a plain re-creation, which drops the metadata. */
    method UpdateRef(ref: string, content: string, now: Clock) returns (r: Obj)
      modifies this
      ensures files == Created(old(files), ref, content, None, now)
      ensures r == map["ref" := Str(ref), "version" := PriorOf(old(files), Key(ref), now).version]
    {
      r := CreateRef(ref, content, None, now);
    }

    /** `delete_ref`: remove the YAML file; a legacy JSON file is not considered. */
    method DeleteRef(ref: string) returns (r: Result<Obj, StoreError>)
      modifies this
      ensures Key(ref) !in old(files) ==> r == Err(NotFound(NotFoundMessage(ref))) && files == old(files)
      ensures Key(ref) in old(files) ==> r == Ok(map["deleted" := Str(ref)]) && files == old(files) - {Key(ref)}
    {
      var k := Key(ref);
      if k !in files {
        return Err(NotFound(NotFoundMessage(ref)));
      }
      files := files - {k};
      r := Ok(map["deleted" := Str(ref)]);
    }

    /** `list_refs`: the sorted names of YAML and JSON files, each name once, filtered by the prefix when given. */
    method ListRefs(prefix: Option<string>) returns (r: seq<string>)
      ensures SortedBy(r, SelfKey)
      ensures NoDups(r)
      ensures Elems(r) == Names(files.Keys, prefix)
    {
      var refs: seq<string> := [];
      var todo := files.Keys;
      while todo != {}
        invariant todo <= files.Keys
        invariant NoDups(refs)
        invariant Elems(refs) == Names(files.Keys - todo, prefix)
        decreases |todo|
      {
        var k :| k in todo;
        ghost var done := files.Keys - todo;
        ListStep(refs, done, k, prefix);
        if Listed(k, prefix) && NameOf(k) !in refs {
          refs := refs + [NameOf(k)];
        }
        todo := todo - {k};
        assert files.Keys - todo == done + {k};
      }
      assert files.Keys - todo == files.Keys;
      r := SortStrings(refs);
      SortStringsNoDups(refs);
      assert Elems(r) == Elems(refs);
    }

    /** `get_ref_metadata`. */
    method GetRefMetadata(ref: string) returns (r: Result<Value, StoreError>)
      ensures r == Metadata(files, ref)
    {
      var k := Key(ref);
      if k !in files {
        k := JsonKey(ref);
        if k !in files {
          return Err(NotFound(NotFoundMessage(ref)));
        }
      }
      var body := files[k].body;
      if body.Unparseable? {
        return Err(ParseError);
      }
      r := Ok(body.data);
    }

    /**
     * `cleanup_old_refs`: remove every YAML or JSON file under `prefix` whose
     * modification time is before `now - max_age_days` days. Files whose removal
     * raises (`failing`) are skipped. The result counts the removed files.
     */
    method CleanupOldRefs(maxAgeDays: int, prefix: string, now: Clock, failing: set<string>) returns (cleaned: nat)
      modifies this
      ensures var gone := Expired(old(files), prefix, now.seconds - maxAgeDays * 86400, failing);
        files == old(files) - gone && cleaned == |gone|
    {
      var cutoff := now.seconds - maxAgeDays * 86400;
      var original := files;
      var removed: set<string> := {};
      cleaned := 0;
      var todo := original.Keys;
      while todo != {}
        invariant todo <= original.Keys
        invariant forall k :: k in removed <==> k in original && k !in todo && Expires(original, k, prefix, cutoff, failing)
        invariant cleaned == |removed|
        decreases |todo|
      {
        var k :| k in todo;
        if Swept(k, prefix) && k !in failing && original[k].mtime < cutoff {
          assert k !in removed;
          removed := removed + {k};
          cleaned := cleaned + 1;
        }
        todo := todo - {k};
      }
      assert removed == Expired(original, prefix, cutoff, failing);
      files := original - removed;
    }
  }

  // ---------------------------------------------------------------------------
  // Properties of the store
  // ---------------------------------------------------------------------------

  /**
   * The first write of a reference is version 1, and each later write stores
   * Python's `version + 1` of the document before it, keeping its `created`.
   */
  lemma {:induction false} VersionIncrements(fs: Files, ref: string, content: string, metadata: Option<Obj>, now: Clock)
    ensures Key(ref) !in fs ==> PriorOf(fs, Key(ref), now).version == Int(1)
    ensures var after := Created(fs, ref, content, metadata, now);
      Metadata(after, ref).Ok? && Metadata(after, ref).value.Dict? &&
      Metadata(after, ref).value.entries["version"] == PriorOf(fs, Key(ref), now).version
    ensures forall later: Clock ::
      PlusOne(PriorOf(fs, Key(ref), now).version) == Some(PriorOf(Created(fs, ref, content, metadata, now), Key(ref), later).version) &&
      PriorOf(Created(fs, ref, content, metadata, now), Key(ref), later).created == PriorOf(fs, Key(ref), now).created
  {
    var k := Key(ref);
    var p := PriorOf(fs, k, now);
    var after := Created(fs, ref, content, metadata, now);
    var d := Document(content, metadata, p, now);
    assert after[k].body.data == Dict(d);
    assert Readable(after, k);
    assert Get(d, "version", Int(0)) == p.version;
    assert Get(d, "created", Str(now.iso)) == p.created;
  }

  /** `n` successive writes of a new reference, each with fresh content. */
  function Rewritten(fs: Files, ref: string, contents: seq<string>, now: Clock): Files
    decreases |contents|
  {
    if |contents| == 0 then fs
    else Created(Rewritten(fs, ref, contents[..|contents| - 1], now), ref, contents[|contents| - 1], None, now)
  }

  /** After `n` writes of a reference that did not exist, its version is `n` and its content the last one written. */
  lemma {:induction false} VersionCountsWrites(fs: Files, ref: string, contents: seq<string>, now: Clock)
    requires Key(ref) !in fs && |contents| > 0
    ensures var after := Rewritten(fs, ref, contents, now);
      Metadata(after, ref).Ok? && Metadata(after, ref).value.Dict? &&
      Metadata(after, ref).value.entries["version"] == Int(|contents|) &&
      Read(after, ref) == Ok(Str(contents[|contents| - 1]))
    decreases |contents|
  {
    var before := Rewritten(fs, ref, contents[..|contents| - 1], now);
    if |contents| > 1 {
      VersionCountsWrites(fs, ref, contents[..|contents| - 1], now);
      VersionIncrements(before, ref, contents[|contents| - 1], None, now);
    } else {
      VersionIncrements(before, ref, contents[0], None, now);
    }
  }

  /** What `create_ref` wrote is what `read_ref` returns. */
  lemma {:induction false} ReadAfterCreate(fs: Files, ref: string, content: string, metadata: Option<Obj>, now: Clock)
    ensures Read(Created(fs, ref, content, metadata, now), ref) == Ok(Str(content))
  {
    var after := Created(fs, ref, content, metadata, now);
    assert Located(after, ref) == Some(Key(ref));
  }

  /** A name without surrounding slashes or backslashes is listed under itself once it has been written. */
  lemma {:induction false} CreatedIsListed(fs: Files, ref: string, content: string, metadata: Option<Obj>, now: Clock)
    requires |ref| > 0 && ref[0] != '/' && ref[|ref| - 1] != '/' && '\\' !in ref
    ensures ref in Names(Created(fs, ref, content, metadata, now).Keys, None)
  {
    KeyOfUnslashed(ref);
    var k := ref + Yaml;
    assert k[|k| - |Yaml|..] == Yaml;
    assert k != Yaml && k[|k| - |Yaml| - 1] == ref[|ref| - 1];
    assert Stem(k, Yaml) == ref;
    assert ReplaceChar(ref, '\\', '/') == ref;
    assert Listed(k, None) && NameOf(k) == ref;
  }

  /** A YAML file shadows the legacy JSON file of the same name. */
  lemma YamlShadowsJson(fs: Files, ref: string)
    requires Key(ref) in fs
    ensures Located(fs, ref) == Some(Key(ref))
  {
  }

  /** Deleting a reference that also has a legacy JSON file makes reads return the JSON file's content. */
  lemma {:induction false} DeleteUncoversLegacy(fs: Files, ref: string)
    requires Key(ref) in fs && JsonKey(ref) in fs
    ensures Located(fs - {Key(ref)}, ref) == Some(JsonKey(ref))
    ensures (fs[JsonKey(ref)].body.Parsed? && fs[JsonKey(ref)].body.data.Dict? &&
             "content" in fs[JsonKey(ref)].body.data.entries) ==>
      Read(fs - {Key(ref)}, ref) == Ok(fs[JsonKey(ref)].body.data.entries["content"])
  {
    KeysDiffer(ref);
  }

  /** A reference that exists only as a legacy JSON file can be read, but `delete_ref` does not see it. */
  lemma {:induction false} LegacyOnlyNotDeletable(fs: Files, ref: string)
    requires Key(ref) !in fs && JsonKey(ref) in fs
    ensures Located(fs, ref) == Some(JsonKey(ref))
    ensures Read(fs, ref) != Err(NotFound(NotFoundMessage(ref)))
  {
  }

  /** After clean-up, every swept file that is still there is recent, or its removal failed. */
  lemma {:induction false} CleanupLeavesOnlyRecent(fs: Files, prefix: string, cutoff: int, failing: set<string>)
    ensures forall k :: k in fs - Expired(fs, prefix, cutoff, failing) && Swept(k, prefix) ==>
      fs[k].mtime >= cutoff || k in failing
    ensures forall k :: k in fs && !Swept(k, prefix) ==> k in fs - Expired(fs, prefix, cutoff, failing)
  {
  }

  // ---------------------------------------------------------------------------
  // Finding: the not-found error of components.py
  // ---------------------------------------------------------------------------

  /**
   * As written, a missing reference is reported by calling the substrate
   * `NotFoundError` with the finished message as its only argument; that class
   * needs a resource kind and an identifier, so the call itself fails with a
   * TypeError and no not-found error is raised.
   */
  lemma MissingRefErrorAsWritten(ref: string)
    ensures SubstrateErrors.NotFoundCall([NotFoundMessage(ref)]).Err?
  {
  }

  /**
   * Passing the kind and the identifier instead gives the error the store reports
   * in `read_ref`, `delete_ref` and `get_ref_metadata`: its message is exactly
   * the message the code meant to raise.
   */
  lemma MissingRefErrorCorrected(fs: Files, ref: string)
    ensures var e := SubstrateErrors.NotFoundCall(["Reference", ref]);
      e.Ok? && SubstrateErrors.Message(e.value) == NotFoundMessage(ref)
    ensures var e := SubstrateErrors.NotFoundCall(["Reference", ref]);
      Located(fs, ref).None? ==>
        Read(fs, ref) == Err(NotFound(SubstrateErrors.Message(e.value)))
        && Metadata(fs, ref) == Err(NotFound(SubstrateErrors.Message(e.value)))
  {
    SubstrateErrors.NotFoundMessageShape("Reference", ref);
    assert "Reference" + " '" + ref + "' not found" == NotFoundMessage(ref);
  }
}
