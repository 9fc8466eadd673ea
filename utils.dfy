/**
 * The pure helpers of utils.py: string truncation, recursive dictionary merge,
 * file-name sanitising, list chunking and dictionary flattening.
 */
module Utils {
  import opened Common

  // ---------------------------------------------------------------------------
  // truncate_string
  // ---------------------------------------------------------------------------

  /** Python's `text[:n]`: a negative `n` counts from the end, and the bound is clamped. */
  function SliceTo<T>(text: seq<T>, n: int): (r: seq<T>)
    ensures n >= 0 ==> r == text[..if n <= |text| then n else |text|]
    ensures n < 0 ==> r == text[..if |text| + n >= 0 then |text| + n else 0]
  {
    if n >= 0 then text[..if n <= |text| then n else |text|]
    else text[..if |text| + n >= 0 then |text| + n else 0]
  }

  /** `truncate_string`: unchanged when short enough, otherwise cut and marked with the suffix. */
  function TruncateString(text: string, maxLength: int, suffix: string): (r: string)
    ensures |text| <= maxLength ==> r == text
    ensures |text| > maxLength ==> EndsWith(r, suffix)
    ensures |text| > maxLength && maxLength >= |suffix| ==>
      |r| == maxLength && r == text[..maxLength - |suffix|] + suffix
  {
    if |text| <= maxLength then text
    else
      var r := SliceTo(text, maxLength - |suffix|) + suffix;
      assert r[|r| - |suffix|..] == suffix;
      r
  }

  /** The result never exceeds the limit once the limit leaves room for the suffix. */
  lemma TruncateWithinLimit(text: string, maxLength: int, suffix: string)
    requires maxLength >= |suffix|
    ensures |TruncateString(text, maxLength, suffix)| <= maxLength
    ensures TruncateString(text, maxLength, suffix) == text <==> |text| <= maxLength
  {
    if |text| > maxLength {
      assert |TruncateString(text, maxLength, suffix)| == maxLength < |text|;
    }
  }

  /**
   * As written, a limit shorter than the suffix makes the slice bound negative,
   * which Python counts from the end: `truncate_string("abcdef", 1)` keeps
   * "abcd" and returns seven characters for a limit of one.
   */
  lemma TruncateOverLimitAsWritten()
    ensures TruncateString("abcdef", 1, "...") == "abcd..."
    ensures |TruncateString("abcdef", 1, "...")| > 1
  {
    assert SliceTo("abcdef", -2) == "abcd";
  }

  /** The evidently intended truncation: the slice bound is never negative and the result never exceeds the limit. */
  function TruncateClamped(text: string, maxLength: nat, suffix: string): (r: string)
    ensures |text| <= maxLength ==> r == text
    ensures |r| <= maxLength
    ensures |text| > maxLength && maxLength >= |suffix| ==> r == TruncateString(text, maxLength, suffix)
    ensures |text| > maxLength && maxLength < |suffix| ==> r == suffix[..maxLength]
  {
    if |text| <= maxLength then text
    else if maxLength >= |suffix| then text[..maxLength - |suffix|] + suffix
    else suffix[..maxLength]
  }

  // ---------------------------------------------------------------------------
  // deep_merge
  // ---------------------------------------------------------------------------

  /** The merged value for a key present in `update`. */
  function MergeValue(base: Obj, k: string, v: Value, mergeLists: bool): (r: Value)
    decreases v, 1
  {
    if k in base && base[k].Dict? && v.Dict? then Dict(DeepMerge(base[k].entries, v.entries, mergeLists))
    else if k in base && mergeLists && base[k].List? && v.List? then List(base[k].items + v.items)
    else v
  }

  /**
   * `deep_merge`: a fresh dictionary with the keys of both; `update` wins,
   * except that two dictionaries merge recursively and, with `merge_lists`, two
   * lists are concatenated.
   */
  function DeepMerge(base: Obj, update: Obj, mergeLists: bool): (r: Obj)
    ensures r.Keys == base.Keys + update.Keys
    ensures forall k :: k in base && k !in update ==> r[k] == base[k]
    ensures forall k :: (k in update && !(k in base && base[k].Dict? && update[k].Dict?) &&
      !(k in base && mergeLists && base[k].List? && update[k].List?)) ==> r[k] == update[k]
    ensures forall k :: (k in update && k in base && mergeLists && base[k].List? && update[k].List?) ==>
      r[k] == List(base[k].items + update[k].items)
    ensures forall k :: k in update && k in base && base[k].Dict? && update[k].Dict? ==>
      r[k].Dict? && r[k].entries.Keys == base[k].entries.Keys + update[k].entries.Keys
    ensures forall k :: k in update && k in base && base[k].Dict? && update[k].Dict? ==>
      r[k] == Dict(DeepMerge(base[k].entries, update[k].entries, mergeLists))
    decreases Dict(update), 0
  {
    map k | k in base.Keys + update.Keys ::
      if k in update then MergeValue(base, k, update[k], mergeLists) else base[k]
  }

  /** Merging in nothing gives back the base. */
  lemma MergeEmptyUpdate(base: Obj, mergeLists: bool)
    ensures DeepMerge(base, map[], mergeLists) == base
  {
  }

  /** Merging into nothing gives back the update. */
  lemma MergeIntoEmpty(update: Obj, mergeLists: bool)
    ensures DeepMerge(map[], update, mergeLists) == update
  {
  }

  /** Without list concatenation, merging the same update twice changes nothing more. */
  lemma {:induction false} MergeIdempotent(base: Obj, update: Obj)
    ensures DeepMerge(DeepMerge(base, update, false), update, false) == DeepMerge(base, update, false)
    decreases Dict(update)
  {
    var once := DeepMerge(base, update, false);
    var twice := DeepMerge(once, update, false);
    forall k | k in update
      ensures twice[k] == once[k]
    {
      if k in base && base[k].Dict? && update[k].Dict? {
        MergeIdempotent(base[k].entries, update[k].entries);
      } else if update[k].Dict? {
        assert once[k] == update[k];
        MergeIntoItself(update[k].entries);
      }
    }
  }

  /** A dictionary merged into itself stays the same. */
  lemma {:induction false} MergeIntoItself(d: Obj)
    ensures DeepMerge(d, d, false) == d
    decreases Dict(d)
  {
    forall k | k in d
      ensures DeepMerge(d, d, false)[k] == d[k]
    {
      if d[k].Dict? {
        MergeIntoItself(d[k].entries);
      }
    }
  }

  // ---------------------------------------------------------------------------
  // sanitize_filename
  // ---------------------------------------------------------------------------

  /** The characters `sanitize_filename` replaces. */
  const Invalid: set<char> := {'<', '>', ':', '"', '/', '\\', '|', '?', '*'}

  /** `re.sub(r'[<>:"/\\|?*]', replacement, s)`. */
  function ReplaceInvalid(s: string, replacement: string): (r: string)
    ensures forall c :: c in r ==> c in replacement || c !in Invalid
    decreases |s|
  {
    if |s| == 0 then ""
    else (if s[0] in Invalid then replacement else [s[0]]) + ReplaceInvalid(s[1..], replacement)
  }

  /** `"".join(c for c in s if ord(c) >= 32)`. */
  function DropControl(s: string): (r: string)
    ensures forall c :: c in r ==> c as int >= 32 && c in s
    ensures forall c :: c as int >= 32 ==> multiset(r)[c] == multiset(s)[c]
    decreases |s|
  {
    if |s| == 0 then ""
    else
      assert s == [s[0]] + s[1..];
      (if s[0] as int >= 32 then [s[0]] else "") + DropControl(s[1..])
  }

  /** The name after replacing, dropping control characters and trimming dots and spaces. */
  function Trimmed(filename: string, replacement: string): (t: string)
    ensures forall i :: 0 <= i < |t| ==> t[i] as int >= 32
    ensures forall i :: 0 <= i < |t| ==> t[i] in replacement || t[i] !in Invalid
    ensures |t| > 0 ==> t[0] != '.' && t[0] != ' '
  {
    var replaced := ReplaceInvalid(filename, replacement);
    var printable := DropControl(replaced);
    var t := Strip(printable, {'.', ' '});
    StripChars(printable, {'.', ' '});
    forall i | 0 <= i < |t|
      ensures t[i] as int >= 32 && (t[i] in replacement || t[i] !in Invalid)
    {
      assert t[i] in multiset(t);
      assert t[i] in printable;
      assert t[i] in replaced;
    }
    t
  }

  /** `sanitize_filename`: "unnamed" for a name that trims away, then cut to 255 characters. */
  function SanitizeFilename(filename: string, replacement: string): (r: string)
    ensures 0 < |r| <= 255
    ensures r[0] != '.' && r[0] != ' '
    ensures Trimmed(filename, replacement) == "" ==> r == Unnamed
    ensures Trimmed(filename, replacement) != "" ==>
      r <= Trimmed(filename, replacement)
      && |r| == if |Trimmed(filename, replacement)| <= 255 then |Trimmed(filename, replacement)| else 255
  {
    var t := Trimmed(filename, replacement);
    if t == "" then UnnamedClean(); Unnamed
    else t[..if |t| <= 255 then |t| else 255]
  }

  /** Every character of a sanitized name is printable, and none is invalid when the replacement is clean. */
  lemma SanitizeFilenameClean(filename: string, replacement: string)
    ensures forall i :: 0 <= i < |SanitizeFilename(filename, replacement)| ==>
      SanitizeFilename(filename, replacement)[i] as int >= 32
    ensures (forall c :: c in replacement ==> c !in Invalid) ==>
      forall i :: 0 <= i < |SanitizeFilename(filename, replacement)| ==> SanitizeFilename(filename, replacement)[i] !in Invalid
  {
    var t := Trimmed(filename, replacement);
    var r := SanitizeFilename(filename, replacement);
    if t == "" {
      UnnamedClean();
    } else {
      assert r == t[..|r|];
      assert forall i :: 0 <= i < |r| ==> r[i] == t[i];
    }
  }

  /** The name `sanitize_filename` falls back on. */
  const Unnamed: string := "unnamed"

  lemma UnnamedClean()
    ensures |Unnamed| == 7 && Unnamed[0] == 'u'
    ensures forall i :: 0 <= i < |Unnamed| ==> Unnamed[i] as int >= 32 && Unnamed[i] !in Invalid
  {
    assert Unnamed == ['u', 'n', 'n', 'a', 'm', 'e', 'd'];
  }

  /**
   * A name that needs no cleaning is kept, cut to 255 characters when longer;
   * the cut comes after the trim, so a long result ends in a space when the
   * 255th character is one.
   */
  lemma SanitizeCutAfterTrim(name: string)
    requires |name| > 0
    requires forall i :: 0 <= i < |name| ==> name[i] !in Invalid && name[i] as int >= 32
    requires name[0] !in {'.', ' '} && name[|name| - 1] !in {'.', ' '}
    ensures SanitizeFilename(name, "_") == name[..if |name| <= 255 then |name| else 255]
    ensures |name| > 255 && name[254] == ' ' ==> SanitizeFilename(name, "_")[254] == ' '
  {
    ReplaceNone(name, "_");
    DropNone(name);
    StripNothing(name, {'.', ' '});
    assert Trimmed(name, "_") == name;
  }

  lemma {:induction false} ReplaceNone(s: string, replacement: string)
    requires forall i :: 0 <= i < |s| ==> s[i] !in Invalid
    ensures ReplaceInvalid(s, replacement) == s
    decreases |s|
  {
    if |s| > 0 {
      ReplaceNone(s[1..], replacement);
    }
  }

  lemma {:induction false} DropNone(s: string)
    requires forall i :: 0 <= i < |s| ==> s[i] as int >= 32
    ensures DropControl(s) == s
    decreases |s|
  {
    if |s| > 0 {
      DropNone(s[1..]);
    }
  }

  // ---------------------------------------------------------------------------
  // chunk_list
  // ---------------------------------------------------------------------------

  function Concat<T>(chunks: seq<seq<T>>): seq<T>
    decreases |chunks|
  {
    if |chunks| == 0 then [] else chunks[0] + Concat(chunks[1..])
  }

  /** The chunks of a positive size, front to back. */
  function Chunks<T>(items: seq<T>, size: nat): (r: seq<seq<T>>)
    requires size > 0
    ensures Concat(r) == items
    ensures forall i :: 0 <= i < |r| ==> 0 < |r[i]| <= size
    ensures forall i :: 0 <= i < |r| - 1 ==> |r[i]| == size
    ensures |items| == 0 <==> |r| == 0
    decreases |items|
  {
    if |items| == 0 then []
    else if |items| <= size then [items]
    else
      var rest := Chunks(items[size..], size);
      assert items == items[..size] + items[size..];
      [items[..size]] + rest
  }

  /**
   * `chunk_list`: `range(0, len(items), chunk_size)` raises ValueError for a zero
   * step and is empty for a negative one, so a negative size yields no chunks.
   */
  function ChunkList<T>(items: seq<T>, chunkSize: int): (r: Result<seq<seq<T>>, string>)
    ensures chunkSize == 0 <==> r.Err?
    ensures chunkSize > 0 ==> r.Ok? && Concat(r.value) == items
    ensures chunkSize < 0 ==> r == Ok([])
  {
    if chunkSize == 0 then Err("ValueError: range() arg 3 must not be zero")
    else if chunkSize < 0 then Ok([])
    else Ok(Chunks(items, chunkSize))
  }

  /** The number of chunks is the ceiling of the length over the size. */
  lemma {:induction false} ChunkCount<T>(items: seq<T>, size: nat)
    requires size > 0
    ensures (|Chunks(items, size)| - 1) * size < |items| <= |Chunks(items, size)| * size
      || (|items| == 0 && |Chunks(items, size)| == 0)
    decreases |items|
  {
    if |items| > size {
      var rest := Chunks(items[size..], size);
      ChunkCount(items[size..], size);
      assert |Chunks(items, size)| == |rest| + 1;
      assert (|rest| + 1) * size == |rest| * size + size;
      assert |rest| * size == (|rest| - 1) * size + size;
    }
  }

  // ---------------------------------------------------------------------------
  // flatten_dict
  // ---------------------------------------------------------------------------

  /** The key a nested entry gets: `prefix + separator + key`, or the bare key at the top. */
  function JoinKey(prefix: string, separator: string, key: string): string {
    if |prefix| > 0 then prefix + separator + key else key
  }

  /**
   * The entries `flatten_dict` writes: every non-dictionary value with the path of
   * keys leading to it. Empty nested dictionaries write nothing.
   */
  function Leaves(data: Obj, prefix: string, separator: string): (r: set<(string, Value)>)
    ensures forall e :: e in r ==> !e.1.Dict?
    decreases Dict(data), 0
  {
    set k, e | k in data && e in LeavesOf(data[k], JoinKey(prefix, separator, k), separator) :: e
  }

  function LeavesOf(v: Value, key: string, separator: string): (r: set<(string, Value)>)
    ensures forall e :: e in r ==> !e.1.Dict?
    decreases v, 1
  {
    if v.Dict? then Leaves(v.entries, key, separator) else {(key, v)}
  }

  /**
   * `flatten_dict` when no two leaves share a path. When they do, the later one
   * in the dictionary's insertion order wins, an order a map does not record.
   */
  function FlattenDict(data: Obj, prefix: string, separator: string): (r: Option<Obj>)
    ensures r.Some? ==> forall k :: k in r.value ==> !r.value[k].Dict? && (k, r.value[k]) in Leaves(data, prefix, separator)
    ensures r.Some? ==> forall e :: e in Leaves(data, prefix, separator) ==> e.0 in r.value && r.value[e.0] == e.1
    ensures r.Some? <==> forall e1, e2 :: e1 in Leaves(data, prefix, separator) && e2 in Leaves(data, prefix, separator) && e1.0 == e2.0 ==> e1 == e2
  {
    var leaves := Leaves(data, prefix, separator);
    if forall e1, e2 :: e1 in leaves && e2 in leaves && e1.0 == e2.0 ==> e1 == e2 then
      Some(map e | e in leaves :: e.0 := e.1)
    else None
  }

  /** A top-level scalar keeps its key; a nested one gets the joined path; an empty dictionary leaves nothing behind. */
  lemma {:induction false} FlattenPaths(data: Obj, prefix: string, separator: string, k: string)
    requires k in data
    ensures !data[k].Dict? ==> (JoinKey(prefix, separator, k), data[k]) in Leaves(data, prefix, separator)
    ensures data[k].Dict? ==> Leaves(data[k].entries, JoinKey(prefix, separator, k), separator) <= Leaves(data, prefix, separator)
    ensures data[k] == Dict(map[]) ==> Leaves(data[k].entries, JoinKey(prefix, separator, k), separator) == {}
  {
    var key := JoinKey(prefix, separator, k);
    if !data[k].Dict? {
      assert (key, data[k]) in LeavesOf(data[k], key, separator);
    } else {
      assert LeavesOf(data[k], key, separator) == Leaves(data[k].entries, key, separator);
      forall e | e in Leaves(data[k].entries, key, separator)
        ensures e in Leaves(data, prefix, separator)
      {
        assert e in LeavesOf(data[k], key, separator);
      }
    }
  }
}
