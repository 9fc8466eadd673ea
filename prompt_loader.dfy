/**
 * The YAML prompt loader (src/substrate/shared/prompts/loader.py).
 *
 * A prompt file holds a `prompts` mapping from prompt names to either a plain
 * string or a dictionary whose `content` key is the text and whose other keys
 * are metadata. `PromptLoader` parses such files on demand and keeps them in a
 * cache keyed by the normalised path. The directory the loader reads and
 * writes is the `files` field: a map from the path handed to the path resolver
 * to what YAML parsing makes of that file.
 */
module PromptLoader {
  import opened Common
  import opened RefFiles

  /** A parsed prompt. `content` is whatever the file holds under `content`, usually a string. */
  datatype Prompt = Prompt(content: Value, metadata: Obj, name: string, sourceFile: string)

  /** `Prompt.models`: the `models` metadata entry, or an empty list. */
  function Models(p: Prompt): (r: Value)
    ensures "models" in p.metadata ==> r == p.metadata["models"]
    ensures "models" !in p.metadata ==> r == List([])
  {
    Get(p.metadata, "models", List([]))
  }

  /** `Prompt.effectiveness`: the `effectiveness` metadata entry, or `0.0`. */
  function Effectiveness(p: Prompt): (r: Value)
    ensures "effectiveness" in p.metadata ==> r == p.metadata["effectiveness"]
    ensures "effectiveness" !in p.metadata ==> r == Real(0.0)
  {
    Get(p.metadata, "effectiveness", Real(0.0))
  }

  /** Why loading or looking up a prompt fails. */
  datatype LoadError =
    | FileNotFound(path: string)            // the resolved file does not exist
    | YamlError                             // the file's text does not parse
    | TypeError                             // `in`, `[...]` or a regex search applied to a value of the wrong type
    | AttributeError                        // `.items()` on a `prompts` entry that is not a mapping
    | MissingPrompts(path: string)          // ValueError: no `prompts` key
    | InvalidPrompt(name: string, path: string)  // ValueError: a prompt that is neither a string nor a dict
    | PromptNotFound(name: string, file: string) // KeyError from `get_prompt`

  // ---------------------------------------------------------------------------
  // Paths
  // ---------------------------------------------------------------------------

  predicate Normalized(path: string) {
    EndsWith(path, ".yaml") || EndsWith(path, ".yml")
  }

  /** The path `load` looks up: `.yaml` is appended unless the path already ends in `.yaml` or `.yml`. */
  function NormalizePath(path: string): (r: string)
    ensures Normalized(r)
    ensures Normalized(path) <==> r == path
    ensures !Normalized(path) ==> r == path + ".yaml"
  {
    if Normalized(path) then path
    else
      var r := path + ".yaml";
      assert r[|r| - 5..] == ".yaml";
      r
  }

  /** Normalising twice is normalising once. */
  lemma NormalizeIdempotent(path: string)
    ensures NormalizePath(NormalizePath(path)) == NormalizePath(path)
  {
  }

  // ---------------------------------------------------------------------------
  // Parsing a prompt file
  // ---------------------------------------------------------------------------

  /**
   * `if 'prompts' not in data` followed by `data['prompts'].items()`: the prompts
   * mapping of a parsed document. On a string `in` is a substring test and on a
   * list a membership test; either way indexing it with `'prompts'` then fails
   * with a TypeError, as does `in` on a value without membership. A `prompts`
   * entry that is not a mapping has no `.items()`.
   */
  function PromptsOf(data: Value, path: string): (r: Result<Obj, LoadError>)
    ensures r.Ok? <==> data.Dict? && "prompts" in data.entries && data.entries["prompts"].Dict?
    ensures r.Ok? ==> r.value == data.entries["prompts"].entries
    ensures data.Dict? && "prompts" !in data.entries ==> r == Err(MissingPrompts(path))
    ensures data.Dict? && "prompts" in data.entries && !data.entries["prompts"].Dict? ==> r == Err(AttributeError)
    ensures !data.Dict? ==> r == Err(TypeError) || r == Err(MissingPrompts(path))
    ensures (data.Null? || data.Bool? || data.Int? || data.Real?) ==> r == Err(TypeError)
    ensures r == Err(MissingPrompts(path)) ==> !(data.Dict? && "prompts" in data.entries)
  {
    match data
    case Dict(m) =>
      if "prompts" !in m then Err(MissingPrompts(path))
      else if m["prompts"].Dict? then Ok(m["prompts"].entries)
      else Err(AttributeError)
    case Str(s) => if IsSubstring("prompts", s) then Err(TypeError) else Err(MissingPrompts(path))
    case List(xs) => if Str("prompts") in xs then Err(TypeError) else Err(MissingPrompts(path))
    case _ => Err(TypeError)
  }

  /** One entry of the `prompts` mapping as a `Prompt`; `None` for a shape that raises `ValueError`. */
  function PromptOf(name: string, v: Value, source: string): (r: Option<Prompt>)
    ensures r.Some? <==> v.Str? || v.Dict?
    ensures r.Some? ==> r.value.name == name && r.value.sourceFile == source && "content" !in r.value.metadata
    ensures v.Str? ==> r == Some(Prompt(v, map[], name, source))
    ensures v.Dict? ==> r.value.content == Get(v.entries, "content", Str(""))
  {
    match v
    case Str(_) => Some(Prompt(v, map[], name, source))
    case Dict(m) => Some(Prompt(Get(m, "content", Str("")), m - {"content"}, name, source))
    case _ => None
  }

  /** A dictionary prompt loses nothing: its metadata and content give back the original entry. */
  lemma PromptOfDictKeeps(name: string, m: Obj, source: string)
    ensures var p := PromptOf(name, Dict(m), source).value;
      (p.metadata.Keys == m.Keys - {"content"})
      && (forall k :: k in p.metadata ==> p.metadata[k] == m[k])
      && ("content" in m ==> p.content == m["content"])
  {
  }

  /** `prompts` parses from `body` read at `path`: the file parses, has a prompts mapping, and every entry is valid. */
  ghost predicate Parses(body: Body, path: string, prompts: map<string, Prompt>) {
    body.Parsed? && PromptsOf(body.data, path).Ok? &&
    var ps := PromptsOf(body.data, path).value;
    prompts.Keys == ps.Keys && forall n :: n in ps ==> PromptOf(n, ps[n], path) == Some(prompts[n])
  }

  /** A file determines its prompts: two parses of one file agree. */
  lemma ParsesUnique(body: Body, path: string, p1: map<string, Prompt>, p2: map<string, Prompt>)
    requires Parses(body, path, p1) && Parses(body, path, p2)
    ensures p1 == p2
  {
    var ps := PromptsOf(body.data, path).value;
    forall n | n in ps ensures p1[n] == p2[n] {
      assert Some(p1[n]) == PromptOf(n, ps[n], path) == Some(p2[n]);
    }
  }

  /**
   * The `for name, prompt_data in data['prompts'].items()` loop. The first invalid
   * entry in dictionary order raises; a map has no order, so any invalid one may be named.
   */
  method ParsePrompts(ps: Obj, path: string) returns (r: Result<map<string, Prompt>, LoadError>)
    ensures r.Ok? <==> forall n :: n in ps ==> PromptOf(n, ps[n], path).Some?
    ensures r.Ok? ==> r.value.Keys == ps.Keys && forall n :: n in ps ==> PromptOf(n, ps[n], path) == Some(r.value[n])
    ensures r.Err? ==> exists n :: n in ps && PromptOf(n, ps[n], path).None? && r.error == InvalidPrompt(n, path)
  {
    var prompts: map<string, Prompt> := map[];
    var todo := ps.Keys;
    while todo != {}
      invariant todo <= ps.Keys
      invariant prompts.Keys == ps.Keys - todo
      invariant forall n :: n in prompts ==> PromptOf(n, ps[n], path) == Some(prompts[n])
      decreases |todo|
    {
      var name :| name in todo;
      var p := PromptOf(name, ps[name], path);
      if p.None? {
        return Err(InvalidPrompt(name, path));
      }
      prompts := prompts[name := p.value];
      todo := todo - {name};
    }
    return Ok(prompts);
  }

  /** The `load` steps after the cache check: find the file, parse it, check its shape, parse every prompt. */
  method ParseFile(files: map<string, Body>, path: string) returns (r: Result<map<string, Prompt>, LoadError>)
    ensures path !in files ==> r == Err(FileNotFound(path))
    ensures path in files && files[path].Unparseable? ==> r == Err(YamlError)
    ensures path in files && files[path].Parsed? && PromptsOf(files[path].data, path).Err? ==>
      r == Err(PromptsOf(files[path].data, path).error)
    ensures r.Ok? <==> exists prompts :: path in files && Parses(files[path], path, prompts)
    ensures r.Ok? ==> Parses(files[path], path, r.value)
  {
    if path !in files {
      return Err(FileNotFound(path));
    }
    var body := files[path];
    if body.Unparseable? {
      return Err(YamlError);
    }
    var ps := PromptsOf(body.data, path);
    if ps.Err? {
      return Err(ps.error);
    }
    r := ParsePrompts(ps.value, path);
    if r.Ok? {
      assert Parses(body, path, r.value);
    } else {
      assert forall prompts :: !Parses(body, path, prompts);
    }
  }

  // ---------------------------------------------------------------------------
  // Placeholders
  // ---------------------------------------------------------------------------

  /** Python's `\w` on ASCII text: a letter, a digit or `_`. */
  predicate IsWordChar(c: char) {
    IsAsciiLetter(c) || ('0' <= c <= '9') || c == '_'
  }

  predicate IsWord(w: string) {
    |w| > 0 && forall k :: 0 <= k < |w| ==> IsWordChar(w[k])
  }

  /**
   * The names `re.findall(r'\{(\w+)\}', content)` finds. The matches of this
   * pattern start with `{`, end with `}` and hold neither in between, so they
   * cannot overlap and the scan finds every occurrence.
   */
  function Placeholders(s: string): (r: set<string>)
    ensures forall w :: w in r ==> IsWord(w)
  {
    set i, j | 0 <= i < j < |s| && s[i] == '{' && s[j] == '}' && IsWord(s[i + 1..j]) :: s[i + 1..j]
  }

  /** Every placeholder appears in braces in the text. */
  lemma PlaceholderOccurs(s: string, w: string)
    requires w in Placeholders(s)
    ensures IsWord(w) && exists i :: OccursAt("{" + w + "}", s, i)
  {
    var i, j :| 0 <= i < j < |s| && s[i] == '{' && s[j] == '}' && IsWord(s[i + 1..j]) && w == s[i + 1..j];
    assert s[i..j + 1] == [s[i]] + s[i + 1..j] + [s[j]];
    assert OccursAt("{" + w + "}", s, i);
  }

  /** Every word in braces in the text is a placeholder. */
  lemma OccurrenceIsPlaceholder(s: string, w: string, i: int)
    requires IsWord(w) && OccursAt("{" + w + "}", s, i)
    ensures w in Placeholders(s)
  {
    var t := "{" + w + "}";
    var j := i + |w| + 1;
    assert t[0] == '{' && t[|w| + 1] == '}' && t[1..|w| + 1] == w;
    assert s[i..j + 1] == t;
    assert s[i] == '{' && s[j] == '}';
    forall k | 0 <= k < |w| ensures s[i + 1..j][k] == w[k] {
      assert s[i + 1 + k] == s[i..j + 1][k + 1] == t[k + 1];
    }
    assert s[i + 1..j] == w;
  }

  /** A name is a placeholder iff `{name}` occurs in the text and the name is a word. */
  lemma PlaceholderIff(s: string, w: string)
    ensures w in Placeholders(s) <==> IsWord(w) && exists i :: OccursAt("{" + w + "}", s, i)
  {
    if w in Placeholders(s) {
      PlaceholderOccurs(s, w);
    }
    if IsWord(w) && exists i :: OccursAt("{" + w + "}", s, i) {
      var i :| OccursAt("{" + w + "}", s, i);
      OccurrenceIsPlaceholder(s, w, i);
    }
  }

  /** `list(names)`: the elements of a set, each once, in no particular order. */
  method ListOfSet(names: set<string>) returns (out: seq<string>)
    ensures NoDups(out) && Elems(out) == names
  {
    out := [];
    var todo := names;
    while todo != {}
      invariant todo <= names
      invariant NoDups(out) && Elems(out) == names - todo
      decreases |todo|
    {
      var w :| w in todo;
      ElemsAppend(out, w);
      out := out + [w];
      todo := todo - {w};
    }
  }

  // ---------------------------------------------------------------------------
  // The loader
  // ---------------------------------------------------------------------------

  /** The document `create_prompt_file` writes. */
  function PromptFileData(prompts: Obj, version: string, created: string): (d: Value)
    ensures d.Dict? && d.entries.Keys == {"version", "created", "prompts"}
    ensures d.entries["prompts"] == Dict(prompts) && d.entries["version"] == Str(version)
    ensures d.entries["created"] == Str(created)
  {
    Dict(map["version" := Str(version), "created" := Str(created), "prompts" := Dict(prompts)])
  }

  /** Every cache entry sits under a normalised path and holds what that file parses to. */
  ghost predicate CacheAgrees(files: map<string, Body>, cache: map<string, map<string, Prompt>>) {
    forall p :: p in cache ==> Normalized(p) && p in files && Parses(files[p], p, cache[p])
  }

  /** Writing a file and evicting the cache entry under the same path keeps the cache in agreement. */
  lemma WriteKeepsAgreement(files: map<string, Body>, cache: map<string, map<string, Prompt>>, path: string, body: Body)
    requires CacheAgrees(files, cache)
    ensures CacheAgrees(files[path := body], cache - {path})
  {
    forall p | p in cache - {path}
      ensures Normalized(p) && p in files[path := body] && Parses(files[path := body][p], p, (cache - {path})[p])
    {
      assert files[path := body][p] == files[p];
    }
  }

  class PromptLoader {
    /** The directory tree the loader resolves paths in. */
    var files: map<string, Body>
    /** `_cache`: normalised path -> the prompts parsed from it. */
    var cache: map<string, map<string, Prompt>>
    /** `_pattern_cache`: path -> the parsed pattern document. */
    var patternCache: map<string, Value>

    /** Only normalised paths are cached, and each cached entry is what its file parsed to when it was loaded. */
    ghost predicate Valid()
      reads this
    {
      CacheAgrees(files, cache)
    }

    /** `__init__`: both caches start empty. */
    constructor(files: map<string, Body>)
      ensures Valid()
      ensures this.files == files && cache == map[] && patternCache == map[]
    {
      this.files := files;
      cache := map[];
      patternCache := map[];
    }

    /**
     * `load`: a non-forced load of a cached path returns the cached prompts and
     * reads nothing; otherwise the file is parsed and, on success, cached.
     */
    method Load(path: string, forceReload: bool) returns (r: Result<map<string, Prompt>, LoadError>)
      requires Valid()
      modifies this
      ensures Valid()
      ensures files == old(files) && patternCache == old(patternCache)
      ensures var p := NormalizePath(path);
        if !forceReload && p in old(cache) then
          r == Ok(old(cache)[p]) && cache == old(cache)
        else
          (r.Ok? <==> exists prompts :: p in files && Parses(files[p], p, prompts))
          && (r.Ok? ==> Parses(files[p], p, r.value) && cache == old(cache)[p := r.value])
          && (r.Err? ==> cache == old(cache))
          && (p !in files ==> r == Err(FileNotFound(p)))
          && (p in files && files[p].Unparseable? ==> r == Err(YamlError))
          && (p in files && files[p].Parsed? && PromptsOf(files[p].data, p).Err? ==> r == Err(PromptsOf(files[p].data, p).error))
    {
      var p := NormalizePath(path);
      if !forceReload && p in cache {
        return Ok(cache[p]);
      }
      r := ParseFile(files, p);
      if r.Ok? {
        cache := cache[p := r.value];
      }
    }

    /** `get_prompt`: the named prompt of the file, `KeyError` when the file has no such prompt. */
    method GetPrompt(file: string, name: string) returns (r: Result<Prompt, LoadError>)
      requires Valid()
      modifies this
      ensures Valid()
      ensures files == old(files) && patternCache == old(patternCache)
      ensures var p := NormalizePath(file);
        p in cache ==>
          (r.Ok? <==> name in cache[p]) && (r.Ok? ==> r.value == cache[p][name])
          && (r.Err? ==> r.error == PromptNotFound(name, file))
      ensures var p := NormalizePath(file);
        p in old(cache) ==> cache == old(cache)
      ensures var p := NormalizePath(file);
        (p in cache <==> p in old(cache) || exists ps :: p in files && Parses(files[p], p, ps))
        && cache - {p} == old(cache) - {p}
        && (p in cache && p !in old(cache) ==> Parses(files[p], p, cache[p]))
      ensures var p := NormalizePath(file);
        p !in cache ==>
          r.Err?
          && (p !in files ==> r == Err(FileNotFound(p)))
          && (p in files && files[p].Unparseable? ==> r == Err(YamlError))
          && (p in files && files[p].Parsed? && PromptsOf(files[p].data, p).Err? ==> r == Err(PromptsOf(files[p].data, p).error))
      ensures var p := NormalizePath(file);
        r.Ok? ==> p in cache && name in cache[p]
    {
      var prompts := Load(file, false);
      if prompts.Err? {
        return Err(prompts.error);
      }
      if name !in prompts.value {
        return Err(PromptNotFound(name, file));
      }
      return Ok(prompts.value[name]);
    }

    /** `load_pattern`: the parsed document, cached by the path as given. */
    method LoadPattern(path: string, forceReload: bool) returns (r: Result<Value, LoadError>)
      modifies this
      ensures files == old(files) && cache == old(cache)
      ensures !forceReload && path in old(patternCache) ==>
        r == Ok(old(patternCache)[path]) && patternCache == old(patternCache)
      ensures forceReload || path !in old(patternCache) ==>
        (path !in files ==> r == Err(FileNotFound(path)) && patternCache == old(patternCache))
        && (path in files && files[path].Unparseable? ==> r == Err(YamlError) && patternCache == old(patternCache))
        && (path in files && files[path].Parsed? ==>
              r == Ok(files[path].data) && patternCache == old(patternCache)[path := files[path].data])
    {
      if !forceReload && path in patternCache {
        return Ok(patternCache[path]);
      }
      if path !in files {
        return Err(FileNotFound(path));
      }
      if files[path].Unparseable? {
        return Err(YamlError);
      }
      patternCache := patternCache[path := files[path].data];
      return Ok(files[path].data);
    }

    /**
     * `create_prompt_file`: writes the document under the path as given and
     * evicts the cache entry under that same raw path. For a path without a
     * YAML extension the entry `load` uses is the normalised one, which stays.
     */
    method CreatePromptFile(path: string, prompts: Obj, version: string, created: string)
      requires Valid()
      modifies this
      ensures Valid()
      ensures files == old(files)[path := Parsed(PromptFileData(prompts, version, created))]
      ensures cache == old(cache) - {path} && patternCache == old(patternCache)
      ensures !Normalized(path) && NormalizePath(path) in old(cache) ==>
        NormalizePath(path) in cache && cache[NormalizePath(path)] == old(cache)[NormalizePath(path)]
    {
      WriteKeepsAgreement(files, cache, path, Parsed(PromptFileData(prompts, version, created)));
      files := files[path := Parsed(PromptFileData(prompts, version, created))];
      // Removing an absent key changes nothing, so the guarded `del` is unconditional here.
      cache := cache - {path};
    }

    /**
     * `validate_variables`: the placeholder names of the prompt's text that are
     * not among the provided variable names, each once, in no particular order.
     */
    method ValidateVariables(file: string, name: string, provided: set<string>)
      returns (r: Result<seq<string>, LoadError>)
      requires Valid()
      modifies this
      ensures Valid()
      ensures files == old(files) && patternCache == old(patternCache)
      ensures var p := NormalizePath(file);
        p in cache && name in cache[p] && cache[p][name].content.Str? ==>
          r.Ok? && NoDups(r.value) && Elems(r.value) == Placeholders(cache[p][name].content.s) - provided
      ensures var p := NormalizePath(file);
        p in cache && name in cache[p] && !cache[p][name].content.Str? ==> r == Err(TypeError)
      ensures var p := NormalizePath(file);
        p in cache && name !in cache[p] ==> r == Err(PromptNotFound(name, file))
      ensures var p := NormalizePath(file);
        (p in cache <==> p in old(cache) || exists ps :: p in files && Parses(files[p], p, ps))
        && cache - {p} == old(cache) - {p}
        && (p in cache && p !in old(cache) ==> Parses(files[p], p, cache[p]))
      ensures var p := NormalizePath(file);
        p !in cache ==>
          r.Err?
          && (p !in files ==> r == Err(FileNotFound(p)))
          && (p in files && files[p].Unparseable? ==> r == Err(YamlError))
          && (p in files && files[p].Parsed? && PromptsOf(files[p].data, p).Err? ==> r == Err(PromptsOf(files[p].data, p).error))
    {
      var prompt := GetPrompt(file, name);
      if prompt.Err? {
        return Err(prompt.error);
      }
      if !prompt.value.content.Str? {
        return Err(TypeError);
      }
      var out := ListOfSet(Placeholders(prompt.value.content.s) - provided);
      return Ok(out);
    }
  }
}
