/**
 * The references feature handler (src/substrate/features/references/handler.py).
 *
 * The CRUD operations pass straight through to the YAML reference store; the
 * handler's own logic is the table of follow-up actions it suggests after an
 * operation on a reference.
 */
module ReferenceHandler {
  import opened Common
  import opened RefFiles
  import opened YamlRefStore

  // ---------------------------------------------------------------------------
  // Suggested next actions
  // ---------------------------------------------------------------------------

  /** One suggestion: the tool to call, why, and its arguments. */
  datatype Action = Action(tool: string, reason: string, params: Obj)

  /** The error `suggest_next_actions` raises for a `list` operation. */
  datatype NameError = UnboundLocalError(name: string)

  /** The position of the first `c` in `s`. */
  function IndexOf(s: string, c: char): (i: nat)
    requires c in s
    ensures i < |s| && s[i] == c
    ensures forall j :: 0 <= j < i ==> s[j] != c
  {
    if s[0] == c then 0 else 1 + IndexOf(s[1..], c)
  }

  /** `s.split('/')[0]`: the text before the first slash, or all of `s` when it has none. */
  function FirstSegment(s: string): (r: string)
    ensures '/' !in r
    ensures StartsWith(s, r)
    ensures '/' in s ==> |r| < |s| && s[|r|] == '/'
    ensures '/' !in s ==> r == s
  {
    if '/' in s then s[..IndexOf(s, '/')] else s
  }

  function ReadAction(ref: string): Action {
    Action("read_ref", "Read the saved reference", map["ref" := Str(ref)])
  }

  function ListAction(prefix: string): Action {
    Action("list_refs", "View all " + prefix + " references", map["prefix" := Str(prefix)])
  }

  function EnhanceAction(ref: string): Action {
    Action("synapse:enhance_prompt", "Enhance the saved prompt", map["prompt_ref" := Str(ref)])
  }

  function UpdateAction(ref: string): Action {
    Action("update_ref", "Update reference content", map["ref" := Str(ref)])
  }

  function ExecuteAction(ref: string): Action {
    Action("execute", "Execute as pattern", map["ref" := Str(ref)])
  }

  function DrillDownAction(prefix: string): Action {
    Action("list_refs", "View sub-categories", map["prefix" := Str(prefix + "/")])
  }

  /** A reference whose lower-cased name mentions a prompt. */
  predicate MentionsPrompt(ref: string) {
    IsSubstring("prompt", Lower(ref))
  }

  /** The suggestions for every operation except `list`, on which both versions below differ. */
  function ActionsFor(ref: string, operation: string): (r: seq<Action>)
    ensures |r| <= 3
  {
    if operation in {"create", "update"} then
      [ReadAction(ref)]
      + (if '/' in ref then [ListAction(FirstSegment(ref))] else [])
      + (if MentionsPrompt(ref) then [EnhanceAction(ref)] else [])
    else if operation == "read" then [UpdateAction(ref), ExecuteAction(ref)]
    else []
  }

  /**
   * `suggest_next_actions` as written: the `list` branch tests a local
   * `prefix` that is only ever bound in the `create`/`update` branch, so
   * every `list` call raises.
   */
  function SuggestNextActionsAsWritten(ref: string, operation: string): (r: Result<seq<Action>, NameError>)
    ensures r.Err? <==> operation == "list"
    ensures r.Ok? ==> r.value == ActionsFor(ref, operation)
  {
    if operation == "list" then Err(UnboundLocalError("prefix"))
    else Ok(ActionsFor(ref, operation))
  }

  /** Whatever the reference, listing after `list` fails. */
  lemma ListAsWrittenFails(ref: string)
    ensures SuggestNextActionsAsWritten(ref, "list") == Err(UnboundLocalError("prefix"))
  {
  }

  /**
   * `suggest_next_actions` with the `list` branch reading the listed prefix
   * from `ref`: a non-empty top-level prefix suggests drilling one level down.
   */
  function SuggestNextActions(ref: string, operation: string): (r: seq<Action>)
    ensures operation != "list" ==> SuggestNextActionsAsWritten(ref, operation) == Ok(r)
  {
    if operation == "list" then
      (if ref != "" && '/' !in ref then [DrillDownAction(ref)] else [])
    else ActionsFor(ref, operation)
  }

  /** After `list`, a drill-down is suggested iff the prefix is a non-empty top-level category, one level below it. */
  lemma ListSuggestsDrillDown(ref: string)
    ensures |SuggestNextActions(ref, "list")| <= 1
    ensures |SuggestNextActions(ref, "list")| == 1 <==> ref != "" && '/' !in ref
    ensures forall a :: a in SuggestNextActions(ref, "list") ==>
      a.tool == "list_refs" && a.params == map["prefix" := Str(ref + "/")]
  {
  }

  /** After a create or update, reading the reference back is suggested first. */
  lemma CreateUpdateReadFirst(ref: string, operation: string)
    requires operation == "create" || operation == "update"
    ensures var r := SuggestNextActions(ref, operation); |r| >= 1 && r[0] == ReadAction(ref)
  {
  }

  /**
   * After a create or update, a listing is suggested iff the reference's name
   * has a slash, and it lists the name's first path segment.
   */
  lemma CreateUpdateListing(ref: string, operation: string)
    requires operation == "create" || operation == "update"
    ensures var r := SuggestNextActions(ref, operation);
      ((exists i :: 0 <= i < |r| && r[i].tool == "list_refs") <==> '/' in ref)
      && (forall i :: 0 <= i < |r| && r[i].tool == "list_refs" ==> r[i].params == map["prefix" := Str(FirstSegment(ref))])
  {
    var r := SuggestNextActions(ref, operation);
    if '/' in ref {
      assert r[1].tool == "list_refs";
    }
  }

  /** After a create or update, a prompt enhancement is suggested iff the lower-cased name contains "prompt". */
  lemma CreateUpdateEnhance(ref: string, operation: string)
    requires operation == "create" || operation == "update"
    ensures var r := SuggestNextActions(ref, operation);
      (exists i :: 0 <= i < |r| && r[i].tool == "synapse:enhance_prompt") <==> MentionsPrompt(ref)
  {
    var r := SuggestNextActions(ref, operation);
    if MentionsPrompt(ref) {
      assert r[|r| - 1].tool == "synapse:enhance_prompt";
    }
  }

  /** After a read: update the reference, then execute it, and nothing else. */
  lemma ReadSuggestions(ref: string)
    ensures SuggestNextActions(ref, "read") == [UpdateAction(ref), ExecuteAction(ref)]
  {
  }

  /** Any operation the table does not name gets no suggestion. */
  lemma OtherOperationsSuggestNothing(ref: string, operation: string)
    requires operation !in {"create", "update", "read", "list"}
    ensures SuggestNextActions(ref, operation) == []
  {
  }

  /** The suggested category is the reference's first path segment: a slash-free prefix that the slash follows. */
  lemma ListedCategoryIsPrefix(ref: string)
    requires '/' in ref
    ensures var p := FirstSegment(ref); ref == p + "/" + ref[|p| + 1..] && '/' !in p
  {
    var p := FirstSegment(ref);
    assert ref[..|p|] == p;
    assert ref == ref[..|p|] + [ref[|p|]] + ref[|p| + 1..];
  }

  // ---------------------------------------------------------------------------
  // The CRUD pass-throughs
  // ---------------------------------------------------------------------------

  /** A `ReferenceHandler`: it owns no state beyond the shared store. */
  class ReferenceHandler {
    const storage: ReferenceManager

    constructor(storage: ReferenceManager)
      ensures this.storage == storage
    {
      this.storage := storage;
    }

    /** `create_reference`: the store's answer, which always has the `created` flag the log line reads. */
    method CreateReference(ref: string, content: string, metadata: Option<Obj>, now: Clock) returns (r: Result<Obj, StoreError>)
      modifies storage
      ensures var c := CreatedStamp(old(storage.files), ref, now);
        if c.Err? then r == Err(c.error) && storage.files == old(storage.files)
        else r == Ok(map["ref" := Str(ref), "created" := Bool(true), "path" := Str("refs/" + Key(ref))])
             && storage.files == Written(old(storage.files), ref, content, metadata, c.value, now)
    {
      r := storage.CreateRef(ref, content, metadata, now);
    }

    /** `read_reference`: the stored content, or the store's error. */
    method ReadReference(ref: string) returns (r: Result<Value, StoreError>)
      ensures r == Read(storage.files, ref, false)
    {
      r := storage.ReadRef(ref, false);
    }

    /** `update_reference`: only an existing, readable reference is rewritten. */
    method UpdateReference(ref: string, content: string, now: Clock) returns (r: Result<Obj, StoreError>)
      modifies storage
      ensures Read(old(storage.files), ref, false).Err? ==>
        r == Err(Read(old(storage.files), ref, false).error) && storage.files == old(storage.files)
      ensures Read(old(storage.files), ref, false).Ok? ==>
        var c := CreatedStamp(old(storage.files), ref, now);
        c.Ok? && storage.files == Written(old(storage.files), ref, content, None, c.value, now) &&
        r == Ok(map["ref" := Str(ref), "created" := Bool(true), "path" := Str("refs/" + Key(ref))])
      ensures Read(old(storage.files), ref, false).Ok? ==>
        var c := CreatedStamp(old(storage.files), ref, now);
        Read(storage.files, ref, false) == Ok(Str(content)) &&
        Read(storage.files, ref, true) == Ok(Dict(Record(content, None, c.value, now.iso)))
    {
      r := storage.UpdateRef(ref, content, now);
      if Read(old(storage.files), ref, false).Ok? {
        var c := CreatedStamp(old(storage.files), ref, now);
        ReadAfterWrite(old(storage.files), ref, content, None, c.value, now);
      }
    }

    /** `delete_reference`: afterwards the reference is not found. */
    method DeleteReference(ref: string) returns (r: Result<Obj, StoreError>)
      modifies storage
      ensures Key(ref) !in old(storage.files) ==> r.Err? && storage.files == old(storage.files)
      ensures Key(ref) in old(storage.files) ==> r.Ok? && storage.files == old(storage.files) - {Key(ref)}
      ensures Read(storage.files, ref, false) == Err(NotFound("Reference not found: " + ref))
    {
      r := storage.DeleteRef(ref);
      ReadAfterDelete(old(storage.files), ref, false);
    }

    /** `list_references`: the store's sorted listing, one name per listed file. */
    method ListReferences(prefix: Option<string>) returns (r: seq<string>)
      ensures SortedBy(r, SelfKey) && Elems(r) == Names(storage.files.Keys, prefix)
      ensures |r| == |ListedKeys(storage.files.Keys, prefix)|
      ensures forall n :: multiset(r)[n] == |FilesNamed(storage.files.Keys, prefix, n)|
    {
      r := storage.ListRefs(prefix);
    }
  }
}
