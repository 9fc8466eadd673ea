/**
 * The reference store the feature handlers use (storage/reference_manager.py):
 * each reference `ref` is one YAML file under `refs/`, named after `ref` with
 * backslashes turned into slashes, surrounding slashes removed and `.yaml`
 * appended unless already present.
 */
module YamlRefStore {
  import opened Common
  import opened RefFiles

  const Ext := ".yaml"

  /** `_get_ref_path`: the file (relative to `refs/`) that holds `ref`. */
  function Key(ref: string): (k: string)
    ensures EndsWith(k, Ext)
  {
    var r := Strip(ReplaceChar(ref, '\\', '/'), {'/'});
    if EndsWith(r, Ext) then r else r + Ext
  }

  /** A string that `_get_ref_path` leaves as it is apart from the extension. */
  predicate Clean(r: string) {
    '\\' !in r && (|r| > 0 ==> r[0] != '/' && r[|r| - 1] != '/')
  }

  lemma StripClean(r: string)
    requires Clean(r)
    ensures Strip(r, {'/'}) == r
  {
    if |r| > 0 {
      assert LeadCount(r, {'/'}) == 0;
      assert TrailCount(r, {'/'}) == 0;
    }
  }

  lemma ReplaceClean(r: string)
    requires Clean(r)
    ensures ReplaceChar(r, '\\', '/') == r
  {
  }

  lemma CleanExt(r: string)
    requires Clean(r)
    ensures Clean(r + Ext)
  {
    var k := r + Ext;
    assert k[|k| - 1] == Ext[4];
    if |r| > 0 {
      assert k[0] == r[0];
    }
  }

  /** A clean name addresses the file named after it, with `.yaml` appended once. */
  lemma {:induction false} KeyOfClean(r: string)
    requires Clean(r)
    ensures Key(r) == if EndsWith(r, Ext) then r else r + Ext
  {
    ReplaceClean(r);
    StripClean(r);
  }

  /** Normalising a reference name twice addresses the same file as normalising it once. */
  lemma {:induction false} KeyIdempotent(ref: string)
    ensures Key(Key(ref)) == Key(ref)
  {
    var r := Strip(ReplaceChar(ref, '\\', '/'), {'/'});
    assert '\\' !in ReplaceChar(ref, '\\', '/');
    assert '\\' !in r by {
      StripChars(ReplaceChar(ref, '\\', '/'), {'/'});
      assert multiset(r)['\\'] == multiset(ReplaceChar(ref, '\\', '/'))['\\'];
    }
    var k := Key(ref);
    assert Clean(k) by {
      if !EndsWith(r, Ext) {
        CleanExt(r);
      }
    }
    KeyOfClean(k);
  }

  /** `ref` and `ref + ".yaml"` name the same reference. */
  lemma {:induction false} KeyExtensionOptional(r: string)
    requires Clean(r) && !EndsWith(r, Ext)
    ensures Key(r + Ext) == Key(r)
  {
    KeyOfClean(r);
    CleanExt(r);
    KeyOfClean(r + Ext);
    assert (r + Ext)[|r + Ext| - |Ext|..] == Ext;
  }

  /** `read_ref`, on a directory given as a value. */
  function Read(fs: Files, ref: string, includeMetadata: bool): (r: Result<Value, StoreError>)
    ensures r.Err? && Key(ref) !in fs ==> r.error == NotFound("Reference not found: " + ref)
    ensures r.Ok? <==>
      Key(ref) in fs && fs[Key(ref)].body.Parsed? && (includeMetadata || fs[Key(ref)].body.data.Dict?)
    ensures Key(ref) in fs && fs[Key(ref)].body.Unparseable? ==> r == Err(ParseError)
    ensures r.Ok? ==> Key(ref) in fs && fs[Key(ref)].body.Parsed?
    ensures r.Ok? && includeMetadata ==> r.value == fs[Key(ref)].body.data
    ensures r.Ok? && !includeMetadata ==>
      fs[Key(ref)].body.data.Dict? && r.value == Get(fs[Key(ref)].body.data.entries, "content", Str(""))
  {
    var k := Key(ref);
    if k !in fs then Err(NotFound("Reference not found: " + ref))
    else match fs[k].body
      case Unparseable => Err(ParseError)
      case Parsed(data) =>
        if includeMetadata then Ok(data)
        else if data.Dict? then Ok(Get(data.entries, "content", Str("")))
        else Err(NotAMapping)
  }

  /** The `created` stamp `create_ref` writes, or the failure of reading the existing file. */
  function CreatedStamp(fs: Files, ref: string, now: Clock): (r: Result<Value, StoreError>)
    ensures Key(ref) !in fs ==> r == Ok(Str(now.iso))
    ensures r.Ok? <==> Key(ref) !in fs || (fs[Key(ref)].body.Parsed? && fs[Key(ref)].body.data.Dict?)
    ensures r.Ok? && Key(ref) in fs ==>
      fs[Key(ref)].body.Parsed? && fs[Key(ref)].body.data.Dict? &&
      r.value == Get(fs[Key(ref)].body.data.entries, "created", Str(now.iso))
    ensures r.Err? ==> Key(ref) in fs && r.error == (if fs[Key(ref)].body.Unparseable? then ParseError else NotAMapping)
  {
    var k := Key(ref);
    if k !in fs then Ok(Str(now.iso))
    else match fs[k].body
      case Unparseable => Err(ParseError)
      case Parsed(data) =>
        if data.Dict? then Ok(Get(data.entries, "created", Str(now.iso))) else Err(NotAMapping)
  }

  /** The directory after `create_ref` has written its document. */
  function Written(fs: Files, ref: string, content: string, metadata: Option<Obj>, created: Value, now: Clock): Files {
    fs[Key(ref) := File(Parsed(Dict(Record(content, metadata, created, now.iso))), now.seconds)]
  }

  /** The files `list_refs` reports: every `*.yaml` file, filtered by a non-empty prefix. */
  predicate Listed(k: string, prefix: Option<string>) {
    EndsWith(k, Ext) && (!Given(prefix) || StartsWith(Stem(k, Ext), prefix.value))
  }

  /** The names `list_refs` reports: the listed files with the extension dropped. */
  function Names(keys: set<string>, prefix: Option<string>): set<string> {
    set k | k in keys && Listed(k, prefix) :: Stem(k, Ext)
  }

  lemma NamesAdd(keys: set<string>, k: string, prefix: Option<string>)
    ensures Names(keys + {k}, prefix) == Names(keys, prefix) + (if Listed(k, prefix) then {Stem(k, Ext)} else {})
  {
  }

  /** The listed files themselves: `list_refs` reports one name for each. */
  function ListedKeys(keys: set<string>, prefix: Option<string>): set<string> {
    set k | k in keys && Listed(k, prefix)
  }

  lemma ListedKeysAdd(keys: set<string>, k: string, prefix: Option<string>)
    ensures ListedKeys(keys + {k}, prefix) == ListedKeys(keys, prefix) + (if Listed(k, prefix) then {k} else {})
  {
  }

  /** The listed files whose reported name is `n`: `list_refs` reports `n` once for each. */
  function FilesNamed(keys: set<string>, prefix: Option<string>, n: string): set<string> {
    set k | k in keys && Listed(k, prefix) && Stem(k, Ext) == n
  }

  lemma FilesNamedAdd(keys: set<string>, k: string, prefix: Option<string>, n: string)
    ensures FilesNamed(keys + {k}, prefix, n) ==
      FilesNamed(keys, prefix, n) + (if Listed(k, prefix) && Stem(k, Ext) == n then {k} else {})
  {
  }

  /** One step of the listing loop: the file's name is appended exactly when the file is listed. */
  lemma ListStep(refs: seq<string>, done: set<string>, k: string, prefix: Option<string>)
    requires k !in done
    requires Elems(refs) == Names(done, prefix) && |refs| == |ListedKeys(done, prefix)|
    ensures var next := if Listed(k, prefix) then refs + [Stem(k, Ext)] else refs;
      Elems(next) == Names(done + {k}, prefix) && |next| == |ListedKeys(done + {k}, prefix)|
  {
    NamesAdd(done, k, prefix);
    ListedKeysAdd(done, k, prefix);
    if Listed(k, prefix) {
      ElemsAppend(refs, Stem(k, Ext));
    }
  }

  /** The same step counted per name: each name occurs once per listed file that reports it. */
  lemma CountStep(refs: seq<string>, done: set<string>, k: string, prefix: Option<string>)
    requires k !in done
    requires forall n :: multiset(refs)[n] == |FilesNamed(done, prefix, n)|
    ensures var next := if Listed(k, prefix) then refs + [Stem(k, Ext)] else refs;
      forall n :: multiset(next)[n] == |FilesNamed(done + {k}, prefix, n)|
  {
    forall n {
      FilesNamedAdd(done, k, prefix, n);
    }
  }

  class ReferenceManager {
    /** The files under the store's `refs/` directory. */
    var files: Files

    /** The directory is created if missing; files already in it are kept. */
    constructor(existing: Files)
      ensures files == existing
    {
      files := existing;
    }

    /** `read_ref`. */
    method ReadRef(ref: string, includeMetadata: bool) returns (r: Result<Value, StoreError>)
      ensures r == Read(files, ref, includeMetadata)
    {
      var k := Key(ref);
      if k !in files {
        return Err(NotFound("Reference not found: " + ref));
      }
      var body := files[k].body;
      if body.Unparseable? {
        return Err(ParseError);
      }
      var data := body.data;
      if includeMetadata {
        return Ok(data);
      }
      if !data.Dict? {
        return Err(NotAMapping);
      }
      r := Ok(Get(data.entries, "content", Str("")));
    }

    /**
     * `create_ref`: write content, metadata and timestamps, keeping the `created`
     * stamp of an existing document. Reading the existing document is not guarded,
     * so an unreadable one makes the call fail and nothing is written. The reply's
     * `created` is whether the file exists after the write, which is always true.
     */
    method CreateRef(ref: string, content: string, metadata: Option<Obj>, now: Clock) returns (r: Result<Obj, StoreError>)
      modifies this
      ensures var c := CreatedStamp(old(files), ref, now);
        if c.Err? then r == Err(c.error) && files == old(files)
        else r == Ok(map["ref" := Str(ref), "created" := Bool(true), "path" := Str("refs/" + Key(ref))]) &&
             files == Written(old(files), ref, content, metadata, c.value, now)
    {
      var k := Key(ref);
      var created := Str(now.iso);
      if k in files {
        var existing := ReadRef(ref, true);
        if existing.Err? {
          return Err(existing.error);
        }
        if !existing.value.Dict? {
          return Err(NotAMapping);
        }
        created := Get(existing.value.entries, "created", created);
      }
      assert created == CreatedStamp(files, ref, now).value;
      ghost var before := files;
      files := files[k := File(Parsed(Dict(Record(content, metadata, created, now.iso))), now.seconds)];
      assert files == Written(before, ref, content, metadata, created, now);
      r := Ok(map["ref" := Str(ref), "created" := Bool(k in files), "path" := Str("refs/" + k)]);
    }

    /** `update_ref`: the reference must be readable; then it is re-created with empty metadata. */
    method UpdateRef(ref: string, content: string, now: Clock) returns (r: Result<Obj, StoreError>)
      modifies this
      ensures Read(old(files), ref, false).Err? ==> r == Err(Read(old(files), ref, false).error) && files == old(files)
      ensures Read(old(files), ref, false).Ok? ==>
        var c := CreatedStamp(old(files), ref, now);
        c.Ok? && files == Written(old(files), ref, content, None, c.value, now) &&
        r == Ok(map["ref" := Str(ref), "created" := Bool(true), "path" := Str("refs/" + Key(ref))])
    {
      var check := ReadRef(ref, false);
      if check.Err? {
        return Err(check.error);
      }
      r := CreateRef(ref, content, None, now);
    }

    /** `delete_ref`: remove the file, failing when it is missing. */
    method DeleteRef(ref: string) returns (r: Result<Obj, StoreError>)
      modifies this
      ensures Key(ref) !in old(files) ==> r == Err(NotFound("Reference not found: " + ref)) && files == old(files)
      ensures Key(ref) in old(files) ==>
        r == Ok(map["ref" := Str(ref), "deleted" := Bool(true)]) && files == old(files) - {Key(ref)}
    {
      var k := Key(ref);
      if k !in files {
        return Err(NotFound("Reference not found: " + ref));
      }
      files := files - {k};
      r := Ok(map["ref" := Str(ref), "deleted" := Bool(true)]);
    }

    /**
     * `list_refs`: the sorted names of all `*.yaml` files, filtered by the prefix
     * when one is given, one entry per file. Two files can give the same name.
     */
    method ListRefs(prefix: Option<string>) returns (r: seq<string>)
      ensures SortedBy(r, SelfKey)
      ensures Elems(r) == Names(files.Keys, prefix)
      ensures |r| == |ListedKeys(files.Keys, prefix)|
      ensures forall n :: multiset(r)[n] == |FilesNamed(files.Keys, prefix, n)|
    {
      var refs: seq<string> := [];
      var todo := files.Keys;
      while todo != {}
        invariant todo <= files.Keys
        invariant Elems(refs) == Names(files.Keys - todo, prefix)
        invariant |refs| == |ListedKeys(files.Keys - todo, prefix)|
        invariant forall n :: multiset(refs)[n] == |FilesNamed(files.Keys - todo, prefix, n)|
        decreases |todo|
      {
        var k :| k in todo;
        ghost var done := files.Keys - todo;
        ListStep(refs, done, k, prefix);
        CountStep(refs, done, k, prefix);
        if EndsWith(k, Ext) && (!Given(prefix) || StartsWith(Stem(k, Ext), prefix.value)) {
          refs := refs + [Stem(k, Ext)];
        }
        todo := todo - {k};
        assert files.Keys - todo == done + {k};
      }
      assert files.Keys - todo == files.Keys;
      r := SortStrings(refs);
      SortStringsKeeps(refs);
    }
  }

  // ---------------------------------------------------------------------------
  // Properties of the store
  // ---------------------------------------------------------------------------

  /** What was written is what is read back, under the same name. */
  lemma {:induction false} ReadAfterWrite(fs: Files, ref: string, content: string, metadata: Option<Obj>, created: Value, now: Clock)
    ensures Read(Written(fs, ref, content, metadata, created, now), ref, false) == Ok(Str(content))
    ensures Read(Written(fs, ref, content, metadata, created, now), ref, true) ==
      Ok(Dict(Record(content, metadata, created, now.iso)))
  {
  }

  /** Re-creating a reference keeps the `created` stamp of its first creation. */
  lemma {:induction false} RecreateKeepsCreated(fs: Files, ref: string, c1: string, c2: string, m1: Option<Obj>, m2: Option<Obj>, t1: Clock, t2: Clock)
    requires CreatedStamp(fs, ref, t1) == Ok(Str(t1.iso))
    ensures var fs1 := Written(fs, ref, c1, m1, Str(t1.iso), t1);
      CreatedStamp(fs1, ref, t2) == Ok(Str(t1.iso))
  {
    var fs1 := Written(fs, ref, c1, m1, Str(t1.iso), t1);
    assert Read(fs1, ref, true) == Ok(Dict(Record(c1, m1, Str(t1.iso), t1.iso)));
  }

  /** Writing one reference does not change what any other file holds. */
  lemma {:induction false} WriteIsolated(fs: Files, ref: string, other: string, content: string, metadata: Option<Obj>, created: Value, now: Clock, incl: bool)
    requires Key(other) != Key(ref)
    ensures Read(Written(fs, ref, content, metadata, created, now), other, incl) == Read(fs, other, incl)
  {
    var k := Key(other);
    var f := File(Parsed(Dict(Record(content, metadata, created, now.iso))), now.seconds);
    var fs' := fs[Key(ref) := f];
    assert k in fs' <==> k in fs;
    assert k in fs ==> fs'[k] == fs[k];
    ReadSameFile(fs', fs, other, incl);
  }

  /** A read looks at one file only: stores that agree on it read alike. */
  lemma ReadSameFile(fs1: Files, fs2: Files, ref: string, incl: bool)
    requires Key(ref) in fs1 <==> Key(ref) in fs2
    requires Key(ref) in fs1 ==> fs1[Key(ref)] == fs2[Key(ref)]
    ensures Read(fs1, ref, incl) == Read(fs2, ref, incl)
  {
  }

  /** After an update the metadata written with the reference is gone. */
  lemma {:induction false} UpdateClearsMetadata(fs: Files, ref: string, content: string, created: Value, now: Clock)
    ensures var d := Read(Written(fs, ref, content, None, created, now), ref, true);
      d.Ok? && d.value.Dict? && d.value.entries["metadata"] == Dict(map[])
  {
    ReadAfterWrite(fs, ref, content, None, created, now);
  }

  /** A deleted reference is not found any more. */
  lemma {:induction false} ReadAfterDelete(fs: Files, ref: string, incl: bool)
    ensures Read(fs - {Key(ref)}, ref, incl) == Err(NotFound("Reference not found: " + ref))
  {
  }

  /**
   * Every listed name leads back to the file it was listed for, unless the name
   * itself still ends in `.yaml` (a file `x.yaml.yaml` is listed as `x.yaml`,
   * which addresses `x.yaml`).
   */
  lemma {:induction false} ListedNameResolves(k: string)
    requires Clean(k) && HasProperSuffix(k, Ext)
    ensures !EndsWith(Stem(k, Ext), Ext) ==> Key(Stem(k, Ext)) == k
    ensures EndsWith(Stem(k, Ext), Ext) ==> Key(Stem(k, Ext)) == Stem(k, Ext) != k
  {
    var n := Stem(k, Ext);
    StemDrops(k, Ext);
    assert k == n + Ext;
    assert Clean(n) by {
      if |n| > 0 {
        assert n[0] == k[0];
        assert n[|n| - 1] == k[|k| - |Ext| - 1];
        assert k[|k| - |Ext| - 1..] != "/" + Ext;
      }
      assert forall i :: 0 <= i < |n| ==> n[i] == k[i];
    }
    KeyOfClean(n);
  }

  /** A reference written under a clean name that does not already end in `.yaml` is listed under that name. */
  lemma {:induction false} WrittenIsListed(fs: Files, ref: string, content: string, metadata: Option<Obj>, created: Value, now: Clock)
    requires Clean(ref) && |ref| > 0 && !EndsWith(ref, Ext)
    ensures ref in Names(Written(fs, ref, content, metadata, created, now).Keys, None)
  {
    KeyOfClean(ref);
    var k := ref + Ext;
    assert Key(ref) == k;
    assert k[|k| - |Ext|..] == Ext;
    assert k != Ext;
    assert k[|k| - |Ext| - 1] == ref[|ref| - 1];
    assert Stem(k, Ext) == ref;
    assert Listed(k, None);
  }

  /**
   * The listing can name one reference twice: to pathlib a file named just
   * `.yaml` has no suffix, so `x/.yaml` and `x/.yaml.yaml` are both reported
   * as `x/.yaml`.
   */
  lemma ListingCanRepeat()
    ensures var keys := {"x/.yaml", "x/.yaml.yaml"};
      |ListedKeys(keys, None)| == 2 && Names(keys, None) == {"x/.yaml"}
  {
    var k1, k2 := "x/.yaml", "x/.yaml.yaml";
    assert k1[|k1| - |Ext|..] == Ext && k2[|k2| - |Ext|..] == Ext;
    assert k1[|k1| - 6..] == "/" + Ext;
    assert k2[|k2| - 6] == 'l';
    assert Stem(k1, Ext) == "x/.yaml" && Stem(k2, Ext) == "x/.yaml";
    assert k1 != k2;
    assert ListedKeys({k1, k2}, None) == {k1, k2};
  }
}
