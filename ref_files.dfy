/**
 * The directory tree that the three reference stores keep their YAML (and legacy
 * JSON) files in.
 *
 * A directory is a map from the path of a file, relative to the store's root
 * and written with `/`, to what a parser makes of the file's text and the
 * file's modification time. Writing a mapping as YAML and reading it back is
 * taken to give the same mapping.
 */
module RefFiles {
  import opened Common

  /** What `yaml.safe_load` / `json.loads` make of a file: a parse failure or a value. */
  datatype Body = Unparseable | Parsed(data: Value)

  datatype File = File(body: Body, mtime: int)

  /** Relative path -> file. */
  type Files = map<string, File>

  /** One reading of `datetime.now()`: its ISO-8601 text and its POSIX timestamp in seconds. */
  datatype Clock = Clock(iso: string, seconds: int)

  /** How reading a reference file can fail. */
  datatype StoreError =
    | NotFound(message: string)   // FileNotFoundError (or the store's not-found error) with its message
    | ParseError                  // the YAML/JSON text does not parse
    | NotAMapping                 // the document parsed, but `.get` / `[...]` is applied to a non-dict
    | MissingKey(key: string)     // `data[key]` on a dict without that key (KeyError)

  /** The document every store writes: content, metadata (`metadata or {}`), and the two timestamps. */
  function Record(content: string, metadata: Option<Obj>, created: Value, updated: string): (d: Obj)
    ensures d.Keys == {"content", "metadata", "created", "updated"}
    ensures d["content"] == Str(content) && d["created"] == created && d["updated"] == Str(updated)
    ensures d["metadata"] == Dict(ObjOrEmpty(metadata))
  {
    map["content" := Str(content), "metadata" := Dict(ObjOrEmpty(metadata)),
        "created" := created, "updated" := Str(updated)]
  }

  /**
   * pathlib's `with_suffix('')` on a path whose name ends with `ext` (`ext` starts
   * with a dot): the extension is dropped, except when the name is exactly `ext`,
   * which pathlib reads as a hidden file without a suffix.
   */
  function Stem(k: string, ext: string): (n: string)
    requires EndsWith(k, ext)
    ensures |n| <= |k|
    ensures n == k || n + ext == k
  {
    if k == ext || EndsWith(k, "/" + ext) then k else k[..|k| - |ext|]
  }

  /** The final component of a relative path has an extension `ext` that pathlib would strip. */
  predicate HasProperSuffix(k: string, ext: string) {
    EndsWith(k, ext) && k != ext && !EndsWith(k, "/" + ext)
  }

  lemma StemDrops(k: string, ext: string)
    requires HasProperSuffix(k, ext)
    ensures Stem(k, ext) + ext == k
  {
    assert k == k[..|k| - |ext|] + ext;
  }
}
