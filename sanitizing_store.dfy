/**
 * The standalone reference store of storage/references.py: references are YAML
 * files directly under a data directory. Names are sanitised by deleting every
 * `..` pair and surrounding slashes; `.yaml` is appended unless the last path
 * component already has an extension.
 */
module SanitizingRefStore {
  import opened Common
  import opened RefFiles

  const Ext := ".yaml"

  /** Python's `s.replace('..', '')`: pairs of dots are deleted left to right, without overlap. */
  function RemoveDotPairs(s: string): (r: string)
    ensures |r| <= |s|
    decreases |s|
  {
    if |s| >= 2 && s[0] == '.' && s[1] == '.' then RemoveDotPairs(s[2..])
    else if |s| == 0 then ""
    else [s[0]] + RemoveDotPairs(s[1..])
  }

  /** `s` has no two adjacent dots. */
  predicate NoDotPair(s: string) {
    forall i :: 0 <= i < |s| - 1 ==> !(s[i] == '.' && s[i + 1] == '.')
  }

  /** After the deletion no `..` is left. */
  lemma {:induction false} RemoveDotPairsClean(s: string)
    ensures NoDotPair(RemoveDotPairs(s))
    decreases |s|
  {
    if |s| >= 2 && s[0] == '.' && s[1] == '.' {
      RemoveDotPairsClean(s[2..]);
    } else if |s| > 0 {
      var t := RemoveDotPairs(s[1..]);
      RemoveDotPairsClean(s[1..]);
      var r := [s[0]] + t;
      if s[0] == '.' && |s| > 1 {
        // a lone dot: the next character is kept and is not a dot
        assert t == [s[1]] + RemoveDotPairs(s[2..]);
      }
      forall i | 0 <= i < |r| - 1 ensures !(r[i] == '.' && r[i + 1] == '.') {
        if i > 0 {
          assert r[i] == t[i - 1] && r[i + 1] == t[i];
        }
      }
    }
  }

  /** The final component of a path written with `/`. */
  function LastComponent(s: string): (c: string)
    ensures '/' !in c
    ensures EndsWith(s, c)
    ensures |c| < |s| ==> s[|s| - |c| - 1] == '/'
    decreases |s|
  {
    if |s| == 0 || s[|s| - 1] == '/' then ""
    else
      var init := s[..|s| - 1];
      var c' := LastComponent(init);
      var c := c' + [s[|s| - 1]];
      assert s[|s| - |c|..] == init[|init| - |c'|..] + [s[|s| - 1]];
      c
  }

  /** Index of the last `.` in `s`, or -1. */
  function LastDot(s: string): (i: int)
    ensures -1 <= i < |s|
    ensures i >= 0 ==> s[i] == '.'
    ensures forall j :: i < j < |s| ==> s[j] != '.'
    decreases |s|
  {
    if |s| == 0 then -1
    else if s[|s| - 1] == '.' then |s| - 1
    else LastDot(s[..|s| - 1])
  }

  /** pathlib's `suffix` of a file name: from its last dot, unless that dot is first or last. */
  predicate HasExtension(name: string) {
    0 < LastDot(name) < |name| - 1
  }

  /** The sanitised name `_get_ref_path` starts from. */
  function Sanitize(ref: string): string {
    Strip(RemoveDotPairs(ref), {'/'})
  }

  /**
   * `_get_ref_path`, as a path relative to the data directory. An empty sanitised
   * name makes pathlib give the data directory itself a `.yaml` suffix, a file
   * beside the directory; that file is the key "" here.
   */
  function Key(ref: string): (k: string)
    ensures k == "" <==> Sanitize(ref) == ""
    ensures HasExtension(LastComponent(Sanitize(ref))) ==> k == Sanitize(ref)
    ensures Sanitize(ref) != "" && !HasExtension(LastComponent(Sanitize(ref))) ==> k == Sanitize(ref) + Ext
  {
    var n := Sanitize(ref);
    if n == "" then ""
    else if HasExtension(LastComponent(n)) then n
    else n + Ext
  }

  /** No sanitised name can climb out of the data directory: it has no `..` and does not start with `/`. */
  lemma {:induction false} SanitizeIsContained(ref: string)
    ensures NoDotPair(Sanitize(ref))
    ensures |Sanitize(ref)| > 0 ==> Sanitize(ref)[0] != '/'
  {
    var s := RemoveDotPairs(ref);
    RemoveDotPairsClean(ref);
    var lead := LeadCount(s, {'/'});
    var left := s[lead..];
    var n := left[..|left| - TrailCount(left, {'/'})];
    assert n == Sanitize(ref);
    forall i | 0 <= i < |n| - 1 ensures !(n[i] == '.' && n[i + 1] == '.') {
      assert n[i] == s[lead + i] && n[i + 1] == s[lead + i + 1];
    }
  }

  /** `read_ref` on a directory given as a value. */
  function Read(fs: Files, ref: string): (r: Result<Value, StoreError>)
    ensures Key(ref) !in fs <==> r == Err(NotFound("Reference not found: " + ref))
    ensures r.Ok? <==> Key(ref) in fs && fs[Key(ref)].body.Parsed? && fs[Key(ref)].body.data.Dict?
    ensures r.Ok? ==> r.value == Get(fs[Key(ref)].body.data.entries, "content", Str(""))
  {
    var k := Key(ref);
    if k !in fs then Err(NotFound("Reference not found: " + ref))
    else match fs[k].body
      case Unparseable => Err(ParseError)
      case Parsed(data) => if data.Dict? then Ok(Get(data.entries, "content", Str(""))) else Err(NotAMapping)
  }

  /** The `created` stamp `create_ref` writes: the existing one when the old file can be read as a mapping, otherwise now. */
  function CreatedStamp(fs: Files, k: string, now: Clock): (c: Value)
    ensures k in fs && fs[k].body.Parsed? && fs[k].body.data.Dict? ==>
      c == Get(fs[k].body.data.entries, "created", Str(now.iso))
    ensures !(k in fs && fs[k].body.Parsed? && fs[k].body.data.Dict?) ==> c == Str(now.iso)
  {
    if k in fs && fs[k].body.Parsed? && fs[k].body.data.Dict? then Get(fs[k].body.data.entries, "created", Str(now.iso))
    else Str(now.iso)
  }

  /** The name `list_refs` reports for a file: the extension dropped and backslashes turned into slashes. */
  function NameOf(k: string): string
    requires EndsWith(k, Ext)
  {
    ReplaceChar(Stem(k, Ext), '\\', '/')
  }

  /** The files `list_refs` reports: `*.yaml` files whose name starts with the prefix, when one is given. */
  predicate Listed(k: string, prefix: Option<string>) {
    EndsWith(k, Ext) && (prefix.None? || StartsWith(NameOf(k), prefix.value))
  }

  function Names(keys: set<string>, prefix: Option<string>): set<string> {
    set k | k in keys && Listed(k, prefix) :: NameOf(k)
  }

  /** The listed files themselves: `list_refs` reports one name for each. */
  function ListedKeys(keys: set<string>, prefix: Option<string>): set<string> {
    set k | k in keys && Listed(k, prefix)
  }

  lemma NamesAdd(keys: set<string>, k: string, prefix: Option<string>)
    ensures Names(keys + {k}, prefix) == Names(keys, prefix) + (if Listed(k, prefix) then {NameOf(k)} else {})
  {
  }

  lemma ListedKeysAdd(keys: set<string>, k: string, prefix: Option<string>)
    ensures ListedKeys(keys + {k}, prefix) == ListedKeys(keys, prefix) + (if Listed(k, prefix) then {k} else {})
  {
  }

  /** The listed files whose reported name is `n`: `list_refs` reports `n` once for each. */
  function FilesNamed(keys: set<string>, prefix: Option<string>, n: string): set<string> {
    set k | k in keys && Listed(k, prefix) && NameOf(k) == n
  }

  lemma FilesNamedAdd(keys: set<string>, k: string, prefix: Option<string>, n: string)
    ensures FilesNamed(keys + {k}, prefix, n) ==
      FilesNamed(keys, prefix, n) + (if Listed(k, prefix) && NameOf(k) == n then {k} else {})
  {
  }

  /** One step of the listing loop: the file's name is appended exactly when the file is listed. */
  lemma ListStep(refs: seq<string>, done: set<string>, k: string, prefix: Option<string>)
    requires k !in done
    requires Elems(refs) == Names(done, prefix) && |refs| == |ListedKeys(done, prefix)|
    ensures var next := if Listed(k, prefix) then refs + [NameOf(k)] else refs;
      Elems(next) == Names(done + {k}, prefix) && |next| == |ListedKeys(done + {k}, prefix)|
  {
    NamesAdd(done, k, prefix);
    ListedKeysAdd(done, k, prefix);
    if Listed(k, prefix) {
      ElemsAppend(refs, NameOf(k));
    }
  }

  /** The same step counted per name: each name occurs once per listed file that reports it. */
  lemma CountStep(refs: seq<string>, done: set<string>, k: string, prefix: Option<string>)
    requires k !in done
    requires forall n :: multiset(refs)[n] == |FilesNamed(done, prefix, n)|
    ensures var next := if Listed(k, prefix) then refs + [NameOf(k)] else refs;
      forall n :: multiset(next)[n] == |FilesNamed(done + {k}, prefix, n)|
  {
    forall n {
      FilesNamedAdd(done, k, prefix, n);
    }
  }

  /** Why `compose_input` produced no text. */
  datatype ComposeError =
    | StoreFailure(error: StoreError)   // a read failed with something other than "not found"
    | JoinTypeError                     // `"...".join` met a content that is not a string
    | NoInput(message: string)          // ValueError: none of the inputs was given

  const Separator := "\n\n---\n\n"
  const NoInputMessage := "No input provided. Use prompt, ref, refs, or prompt_ref."

  /** The contents the `refs` loop collects: missing references are skipped, any other failure ends the loop. */
  function Collected(fs: Files, refs: seq<string>): (r: Result<seq<Value>, StoreError>)
    ensures r.Ok? ==> |r.value| <= |refs|
    decreases |refs|
  {
    if |refs| == 0 then Ok([])
    else match Collected(fs, refs[..|refs| - 1])
      case Err(e) => Err(e)
      case Ok(vs) =>
        match Read(fs, refs[|refs| - 1])
        case Ok(v) => Ok(vs + [v])
        case Err(e) => if e.NotFound? then Ok(vs) else Err(e)
  }

  /** All strings? Then the joined text; otherwise the TypeError `join` raises. */
  function JoinContents(vs: seq<Value>): (r: Result<string, ComposeError>)
    ensures r.Ok? <==> forall i :: 0 <= i < |vs| ==> vs[i].Str?
    ensures r.Ok? ==> r.value == Join(seq(|vs|, i requires 0 <= i < |vs| && vs[i].Str? => vs[i].s), Separator)
  {
    if forall i :: 0 <= i < |vs| ==> vs[i].Str? then
      Ok(Join(seq(|vs|, i requires 0 <= i < |vs| && vs[i].Str? => vs[i].s), Separator))
    else Err(JoinTypeError)
  }

  class ReferenceManager {
    /** The data directory, as the string `str(path)` would print. */
    const dataDir: string
    /** The files under the data directory (and, at key "", the file beside it). */
    var files: Files

    constructor(dataDir: string, existing: Files)
      ensures this.dataDir == dataDir && files == existing
    {
      this.dataDir := dataDir;
      files := existing;
    }

    /** `str(ref_path)` for a key. */
    function PathOf(k: string): string
      reads this
    {
      if k == "" then dataDir + Ext else dataDir + "/" + k
    }

    /**
     * `create_ref`: write content, metadata and timestamps. An existing document's
     * `created` stamp is kept when it can be read; any failure reading it is ignored.
     */
    method CreateRef(ref: string, content: string, metadata: Option<Obj>, now: Clock) returns (r: Obj)
      modifies this
      ensures var k := Key(ref); var c := CreatedStamp(old(files), k, now);
        files == old(files)[k := File(Parsed(Dict(Record(content, metadata, c, now.iso))), now.seconds)] &&
        r == map["ref" := Str(ref), "path" := Str(PathOf(k)), "created" := c, "updated" := Str(now.iso)]
    {
      var k := Key(ref);
      var created := Str(now.iso);
      if k in files {
        var body := files[k].body;
        if body.Parsed? && body.data.Dict? {
          created := Get(body.data.entries, "created", created);
        }
      }
      files := files[k := File(Parsed(Dict(Record(content, metadata, created, now.iso))), now.seconds)];
      r := map["ref" := Str(ref), "path" := Str(PathOf(k)), "created" := created, "updated" := Str(now.iso)];
    }

    /** `read_ref`. */
    method ReadRef(ref: string) returns (r: Result<Value, StoreError>)
      ensures r == Read(files, ref)
    {
      var k := Key(ref);
      if k !in files {
        return Err(NotFound("Reference not found: " + ref));
      }
      var body := files[k].body;
      if body.Unparseable? {
        return Err(ParseError);
      }
      if !body.data.Dict? {
        return Err(NotAMapping);
      }
      r := Ok(Get(body.data.entries, "content", Str("")));
    }

    /**
     * `update_ref`: replace the content and the `updated` stamp of an existing
     * mapping, keeping every other key. The reply reads `created` after the file is
     * written, so a document without it is updated and the call still fails.
     */
    method UpdateRef(ref: string, content: string, now: Clock) returns (r: Result<Obj, StoreError>)
      modifies this
      ensures var k := Key(ref);
        if k !in old(files) then r == Err(NotFound("Reference not found: " + ref)) && files == old(files)
        else if old(files)[k].body.Unparseable? then r == Err(ParseError) && files == old(files)
        else if !old(files)[k].body.data.Dict? then r == Err(NotAMapping) && files == old(files)
        else
          var d := old(files)[k].body.data.entries["content" := Str(content)]["updated" := Str(now.iso)];
          files == old(files)[k := File(Parsed(Dict(d)), now.seconds)] &&
          r == (if "created" in d
                then Ok(map["ref" := Str(ref), "path" := Str(PathOf(k)), "created" := d["created"], "updated" := Str(now.iso)])
                else Err(MissingKey("created")))
    {
      var k := Key(ref);
      if k !in files {
        return Err(NotFound("Reference not found: " + ref));
      }
      var body := files[k].body;
      if body.Unparseable? {
        return Err(ParseError);
      }
      if !body.data.Dict? {
        return Err(NotAMapping);
      }
      var d := body.data.entries["content" := Str(content)]["updated" := Str(now.iso)];
      files := files[k := File(Parsed(Dict(d)), now.seconds)];
      if "created" !in d {
        return Err(MissingKey("created"));
      }
      r := Ok(map["ref" := Str(ref), "path" := Str(PathOf(k)), "created" := d["created"], "updated" := Str(now.iso)]);
    }

    /** `delete_ref`: whether a file was removed. */
    method DeleteRef(ref: string) returns (deleted: bool)
      modifies this
      ensures deleted <==> Key(ref) in old(files)
      ensures files == old(files) - {Key(ref)}
    {
      var k := Key(ref);
      deleted := k in files;
      if deleted {
        files := files - {k};
      }
    }

    /**
     * `list_refs`: sorted names of all `*.yaml` files that start with the prefix,
     * when one is given, one entry per file. Two files can give the same name.
     */
    method ListRefs(prefix: Option<string>) returns (r: seq<string>)
      ensures SortedBy(r, SelfKey)
      ensures Elems(r) == Names(files.Keys, prefix)
      ensures |r| == |ListedKeys(files.Keys, prefix)|
      ensures forall n :: multiset(r)[n] == |FilesNamed(files.Keys, prefix, n)|
    {
      var refs: seq<string> := [];
      var todo := files.Keys;
      while todo != {}
        invariant todo <= files.Keys
        invariant Elems(refs) == Names(files.Keys - todo, prefix)
        invariant |refs| == |ListedKeys(files.Keys - todo, prefix)|
        invariant forall n :: multiset(refs)[n] == |FilesNamed(files.Keys - todo, prefix, n)|
        decreases |todo|
      {
        var k :| k in todo;
        ghost var done := files.Keys - todo;
        ListStep(refs, done, k, prefix);
        CountStep(refs, done, k, prefix);
        if EndsWith(k, Ext) {
          var name := NameOf(k);
          if prefix.None? || StartsWith(name, prefix.value) {
            refs := refs + [name];
          }
        }
        todo := todo - {k};
        assert files.Keys - todo == done + {k};
      }
      assert files.Keys - todo == files.Keys;
      r := SortStrings(refs);
      SortStringsKeeps(refs);
    }

    /** The `refs` loop of `compose_input`: the contents of the references found, in order, skipping missing ones. */
    method CollectRefs(names: seq<string>) returns (r: Result<seq<Value>, StoreError>)
      ensures r == Collected(files, names)
    {
      var contents: seq<Value> := [];
      var i := 0;
      while i < |names|
        invariant 0 <= i <= |names|
        invariant Collected(files, names[..i]) == Ok(contents)
      {
        assert names[..i + 1][..i] == names[..i];
        var c := ReadRef(names[i]);
        if c.Ok? {
          contents := contents + [c.value];
        } else if !c.error.NotFound? {
          assert Collected(files, names[..i + 1]) == Err(c.error);
          CollectedErrSticks(files, names, i + 1);
          return Err(c.error);
        }
        i := i + 1;
      }
      assert names[..i] == names;
      return Ok(contents);
    }

    /**
     * `compose_input`: the first given input wins, in the order ref, refs,
     * prompt_ref, prompt. For `refs`, missing references are skipped and the
     * others joined with a separator; when none is found, the later inputs are tried.
     */
    method ComposeInput(prompt: Option<string>, ref: Option<string>, refs: Option<seq<string>>, promptRef: Option<string>)
      returns (r: Result<Value, ComposeError>)
      ensures Given(ref) ==>
        r == (match Read(files, ref.value) case Ok(v) => Ok(v) case Err(e) => Err(StoreFailure(e)))
      ensures !Given(ref) && refs.Some? && |refs.value| > 0 && Collected(files, refs.value).Err? ==>
        r == Err(StoreFailure(Collected(files, refs.value).error))
      ensures (!Given(ref) && refs.Some? && |refs.value| > 0 && Collected(files, refs.value).Ok? &&
               |Collected(files, refs.value).value| > 0) ==>
        r == (match JoinContents(Collected(files, refs.value).value) case Ok(s) => Ok(Str(s)) case Err(e) => Err(e))
      ensures !Given(ref) && (refs.None? || |refs.value| == 0 || Collected(files, refs.value) == Ok([])) ==>
        if Given(promptRef) then
          r == (match Read(files, promptRef.value) case Ok(v) => Ok(v) case Err(e) => Err(StoreFailure(e)))
        else if Given(prompt) then r == Ok(Str(prompt.value))
        else r == Err(NoInput(NoInputMessage))
    {
      if ref.Some? && |ref.value| > 0 {
        var c := ReadRef(ref.value);
        return match c case Ok(v) => Ok(v) case Err(e) => Err(StoreFailure(e));
      }
      if refs.Some? && |refs.value| > 0 {
        var collected := CollectRefs(refs.value);
        if collected.Err? {
          return Err(StoreFailure(collected.error));
        }
        if |collected.value| > 0 {
          var joined := JoinContents(collected.value);
          return match joined case Ok(s) => Ok(Str(s)) case Err(e) => Err(e);
        }
      }
      if promptRef.Some? && |promptRef.value| > 0 {
        var c := ReadRef(promptRef.value);
        return match c case Ok(v) => Ok(v) case Err(e) => Err(StoreFailure(e));
      }
      if prompt.Some? && |prompt.value| > 0 {
        return Ok(Str(prompt.value));
      }
      r := Err(NoInput(NoInputMessage));
    }
  }

  /** Once a read fails with something other than "not found", the collected result stays that failure. */
  lemma {:induction false} CollectedErrSticks(fs: Files, refs: seq<string>, i: nat)
    requires i <= |refs| && Collected(fs, refs[..i]).Err?
    ensures Collected(fs, refs) == Collected(fs, refs[..i])
    decreases |refs| - i
  {
    if i < |refs| {
      assert refs[..i + 1][..i] == refs[..i];
      CollectedErrSticks(fs, refs, i + 1);
    } else {
      assert refs[..i] == refs;
    }
  }

  // ---------------------------------------------------------------------------
  // Properties of the store
  // ---------------------------------------------------------------------------

  /** References that do not exist contribute nothing to a composition. */
  lemma {:induction false} CollectedSkipsMissing(fs: Files, refs: seq<string>)
    requires forall i :: 0 <= i < |refs| ==> Key(refs[i]) !in fs
    ensures Collected(fs, refs) == Ok([])
    decreases |refs|
  {
    if |refs| > 0 {
      CollectedSkipsMissing(fs, refs[..|refs| - 1]);
    }
  }

  /** When every reference can be read, the composition collects each content in order. */
  lemma {:induction false} CollectedAllPresent(fs: Files, refs: seq<string>)
    requires forall i :: 0 <= i < |refs| ==> Read(fs, refs[i]).Ok?
    ensures Collected(fs, refs).Ok?
    ensures |Collected(fs, refs).value| == |refs|
    ensures forall i :: 0 <= i < |refs| ==> Collected(fs, refs).value[i] == Read(fs, refs[i]).value
    decreases |refs|
  {
    if |refs| > 0 {
      CollectedAllPresent(fs, refs[..|refs| - 1]);
    }
  }

  /** A reference written by `create_ref` is read back with its content. */
  lemma {:induction false} ReadAfterCreate(fs: Files, ref: string, content: string, metadata: Option<Obj>, now: Clock)
    ensures var k := Key(ref);
      Read(fs[k := File(Parsed(Dict(Record(content, metadata, CreatedStamp(fs, k, now), now.iso))), now.seconds)], ref) == Ok(Str(content))
  {
  }

  /** A name whose last component already has another extension is stored under that name, and `list_refs` never reports that file. */
  lemma {:induction false} ForeignExtensionNotListed(ref: string, prefix: Option<string>)
    requires Sanitize(ref) != "" && HasExtension(LastComponent(Sanitize(ref))) && !EndsWith(Sanitize(ref), Ext)
    ensures Key(ref) == Sanitize(ref)
    ensures !Listed(Key(ref), prefix)
  {
  }

  /** A file written under a name without surrounding slashes, backslashes or an extension is listed under that name. */
  lemma {:induction false} CreatedIsListed(fs: Files, ref: string, content: string, metadata: Option<Obj>, now: Clock)
    requires |ref| > 0 && ref[0] != '/' && ref[|ref| - 1] != '/' && '\\' !in ref && NoDotPair(ref)
    requires !HasExtension(LastComponent(ref))
    ensures var k := Key(ref);
      ref in Names(fs[k := File(Parsed(Dict(Record(content, metadata, CreatedStamp(fs, k, now), now.iso))), now.seconds)].Keys, None)
  {
    KeyOfPlain(ref);
    PlainNameListed(ref);
  }

  /** A plain name is stored under itself plus `.yaml`. */
  lemma {:induction false} KeyOfPlain(ref: string)
    requires |ref| > 0 && ref[0] != '/' && ref[|ref| - 1] != '/' && NoDotPair(ref)
    requires !HasExtension(LastComponent(ref))
    ensures Key(ref) == ref + Ext
  {
    NoPairsKept(ref);
    StripNothing(ref, {'/'});
    assert Sanitize(ref) == ref;
  }

  /** The file of a plain name is listed under that name. */
  lemma {:induction false} PlainNameListed(ref: string)
    requires |ref| > 0 && ref[|ref| - 1] != '/' && '\\' !in ref
    ensures Listed(ref + Ext, None) && NameOf(ref + Ext) == ref
  {
    var k := ref + Ext;
    assert k[|k| - |Ext|..] == Ext;
    assert k != Ext && k[|k| - |Ext| - 1] == ref[|ref| - 1];
    assert Stem(k, Ext) == ref;
    assert ReplaceChar(ref, '\\', '/') == ref;
  }

  /** Deleting `..` pairs leaves a string without any unchanged. */
  lemma {:induction false} NoPairsKept(s: string)
    requires NoDotPair(s)
    ensures RemoveDotPairs(s) == s
    decreases |s|
  {
    if |s| > 0 {
      assert !(|s| >= 2 && s[0] == '.' && s[1] == '.');
      assert NoDotPair(s[1..]) by {
        forall i | 0 <= i < |s[1..]| - 1 ensures !(s[1..][i] == '.' && s[1..][i + 1] == '.') {
          assert s[1..][i] == s[i + 1] && s[1..][i + 1] == s[i + 2];
        }
      }
      NoPairsKept(s[1..]);
    }
  }

  /**
   * The listing can name one reference twice: a file written with a backslash
   * in its name and the file with a slash in its place are both reported under
   * the slashed name.
   */
  lemma ListingCanRepeat()
    ensures var keys := {"a\\b.yaml", "a/b.yaml"};
      |ListedKeys(keys, None)| == 2 && Names(keys, None) == {"a/b"}
  {
    var k1, k2 := "a\\b.yaml", "a/b.yaml";
    assert k1[|k1| - |Ext|..] == Ext && k2[|k2| - |Ext|..] == Ext;
    assert k1[|k1| - 6] == 'b' && k2[|k2| - 6] == 'b';
    assert Stem(k1, Ext) == "a\\b" && Stem(k2, Ext) == "a/b";
    assert NameOf(k1) == "a/b" && NameOf(k2) == "a/b";
    assert k1 != k2;
    assert ListedKeys({k1, k2}, None) == {k1, k2};
  }
}
