/**
 * The execution feature (src/substrate/features/execution/handler.py).
 *
 * A transformation takes its input from one of four places, in a fixed order
 * of priority, optionally reads a template, builds the (simulated) result
 * text and may save it as a new reference through the YAML reference store.
 */
module Execution {
  import opened Common
  import opened RefFiles
  import opened YamlRefStore

  /** The arguments of `execute_transformation`. */
  datatype Request = Request(
    prompt: Option<string>,
    ref: Option<string>,
    refs: Option<seq<string>>,
    promptRef: Option<string>,
    saveAs: Option<string>)

  /** Why a transformation fails: the store raised, no input was given, or `str.join` met a non-string. */
  datatype ExecError = Store(error: StoreError) | NoInput | JoinTypeError

  /** The separator placed between combined references. */
  const Sep := "\n\n---\n\n"

  /** The fixed first line of every result. */
  const Header := "[Transformed using template]\n"

  /** A non-empty list of references (a truthy `refs`). */
  predicate GivenRefs(refs: Option<seq<string>>) {
    refs.Some? && |refs.value| > 0
  }

  // ---------------------------------------------------------------------------
  // Input resolution
  // ---------------------------------------------------------------------------

  /** A list of outcomes taken in order: the values when all succeed, else the first error. */
  function Collect<T, E>(rs: seq<Result<T, E>>): (r: Result<seq<T>, E>)
    ensures r.Ok? ==> |r.value| == |rs|
  {
    if |rs| == 0 then Ok([])
    else match Collect(rs[..|rs| - 1])
      case Err(e) => Err(e)
      case Ok(vs) =>
        match rs[|rs| - 1]
        case Err(e) => Err(e)
        case Ok(v) => Ok(vs + [v])
  }

  /** Collecting succeeds iff every outcome does, and then it keeps each value in place. */
  lemma {:induction false} CollectIff<T, E>(rs: seq<Result<T, E>>)
    ensures Collect(rs).Ok? <==> forall i :: 0 <= i < |rs| ==> rs[i].Ok?
    ensures Collect(rs).Ok? ==> forall i :: 0 <= i < |rs| ==> Collect(rs).value[i] == rs[i].value
  {
    if |rs| > 0 {
      var init := rs[..|rs| - 1];
      CollectIff(init);
      assert forall i :: 0 <= i < |init| ==> init[i] == rs[i];
    }
  }

  /** When collecting fails, the error is that of the first failing outcome. */
  lemma {:induction false} CollectFirstError<T, E>(rs: seq<Result<T, E>>, k: nat)
    requires k < |rs| && rs[k].Err?
    requires forall i :: 0 <= i < k ==> rs[i].Ok?
    ensures Collect(rs) == Err(rs[k].error)
  {
    var init := rs[..|rs| - 1];
    if k == |rs| - 1 {
      CollectIff(init);
      assert forall i :: 0 <= i < |init| ==> init[i] == rs[i];
    } else {
      CollectFirstError(init, k);
    }
  }

  /** Collecting one more outcome. */
  lemma CollectSnoc<T, E>(rs: seq<Result<T, E>>, x: Result<T, E>)
    ensures Collect(rs + [x]) == match Collect(rs)
      case Err(e) => Err(e)
      case Ok(vs) => (match x case Err(e) => Err(e) case Ok(v) => Ok(vs + [v]))
  {
    assert (rs + [x])[..|rs|] == rs;
  }

  /** Collecting one prefix further. */
  lemma CollectNext<T, E>(rs: seq<Result<T, E>>, k: nat)
    requires k < |rs|
    ensures Collect(rs[..k + 1]) == match Collect(rs[..k])
      case Err(e) => Err(e)
      case Ok(vs) => (match rs[k] case Err(e) => Err(e) case Ok(v) => Ok(vs + [v]))
  {
    assert rs[..k + 1] == rs[..k] + [rs[k]];
    CollectSnoc(rs[..k], rs[k]);
  }

  /** Once a prefix fails, more outcomes do not change the error. */
  lemma {:induction false} CollectErrPrefix<T, E>(rs: seq<Result<T, E>>, k: nat)
    requires k <= |rs| && Collect(rs[..k]).Err?
    ensures Collect(rs) == Collect(rs[..k])
  {
    if k < |rs| {
      var init := rs[..|rs| - 1];
      assert init[..k] == rs[..k];
      CollectErrPrefix(init, k);
    } else {
      assert rs[..k] == rs;
    }
  }

  /** What reading each reference of a list gives, in order. */
  function Reads(fs: Files, names: seq<string>): (rs: seq<Result<Value, StoreError>>)
    ensures |rs| == |names| && forall i :: 0 <= i < |names| ==> rs[i] == Read(fs, names[i], false)
  {
    seq(|names|, i requires 0 <= i < |names| => Read(fs, names[i], false))
  }

  predicate AllStr(vs: seq<Value>) {
    forall i :: 0 <= i < |vs| ==> vs[i].Str?
  }

  function Texts(vs: seq<Value>): (r: seq<string>)
    requires AllStr(vs)
    ensures |r| == |vs| && forall i :: 0 <= i < |vs| ==> Str(r[i]) == vs[i]
  {
    seq(|vs|, i requires 0 <= i < |vs| => vs[i].s)
  }

  /** The `refs` branch: read them all, then join the contents, which must all be strings. */
  function Combined(fs: Files, names: seq<string>): (r: Result<Value, ExecError>)
  {
    Joined(Reads(fs, names))
  }

  /** The joined contents of a list of read outcomes. */
  function Joined(rs: seq<Result<Value, StoreError>>): (r: Result<Value, ExecError>)
  {
    match Collect(rs)
    case Err(e) => Err(Store(e))
    case Ok(vs) => if AllStr(vs) then Ok(Str(Join(Texts(vs), Sep))) else Err(JoinTypeError)
  }

  /** Joining one string content gives that content. */
  lemma {:induction false} JoinedOne(rs: seq<Result<Value, StoreError>>, x: string)
    requires |rs| == 1 && rs[0] == Ok(Str(x))
    ensures Joined(rs) == Ok(Str(x))
  {
    CollectIff(rs);
    var vs := Collect(rs).value;
    assert vs == [Str(x)];
    assert Texts(vs) == [x];
  }

  /** Joining two string contents puts the separator between them. */
  lemma {:induction false} JoinedTwo(rs: seq<Result<Value, StoreError>>, x: string, y: string)
    requires |rs| == 2 && rs[0] == Ok(Str(x)) && rs[1] == Ok(Str(y))
    ensures Joined(rs) == Ok(Str(x + Sep + y))
  {
    CollectIff(rs);
    var vs := Collect(rs).value;
    assert vs == [Str(x), Str(y)];
    var ts := Texts(vs);
    assert ts == [x, y];
    assert ts[..1] == [x];
  }

  /** `_resolve_input`: `ref`, then `refs`, then `prompt_ref` when there is no prompt, then the prompt. */
  function ResolvedInput(fs: Files, req: Request): (r: Result<Value, ExecError>)
  {
    if Given(req.ref) then
      match Read(fs, req.ref.value, false)
      case Err(e) => Err(Store(e))
      case Ok(v) => Ok(v)
    else if GivenRefs(req.refs) then Combined(fs, req.refs.value)
    else if Given(req.promptRef) && !Given(req.prompt) then
      match Read(fs, req.promptRef.value, false)
      case Err(e) => Err(Store(e))
      case Ok(v) => Ok(v)
    else if Given(req.prompt) then Ok(Str(req.prompt.value))
    else Err(NoInput)
  }

  /** `_determine_input_type`: the name of the input branch, decided on the arguments alone. */
  function InputType(req: Request): (t: string)
    ensures t in {"single_reference", "multiple_references", "prompt_reference", "direct_prompt", "none"}
  {
    if Given(req.ref) then "single_reference"
    else if GivenRefs(req.refs) then "multiple_references"
    else if Given(req.promptRef) && !Given(req.prompt) then "prompt_reference"
    else if Given(req.prompt) then "direct_prompt"
    else "none"
  }

  /**
   * The reported input type names the input that was used: resolution fails
   * for want of input iff the type is "none", each other type is the result
   * of reading from the place it names, and a direct prompt is taken as is.
   */
  lemma InputTypeAgrees(fs: Files, req: Request)
    ensures InputType(req) == "none" <==> ResolvedInput(fs, req) == Err(NoInput)
    ensures InputType(req) == "single_reference" ==>
      ResolvedInput(fs, req) == (var v := Read(fs, req.ref.value, false); if v.Ok? then Ok(v.value) else Err(Store(v.error)))
    ensures InputType(req) == "multiple_references" ==> ResolvedInput(fs, req) == Combined(fs, req.refs.value)
    ensures InputType(req) == "prompt_reference" ==>
      ResolvedInput(fs, req) == (var v := Read(fs, req.promptRef.value, false); if v.Ok? then Ok(v.value) else Err(Store(v.error)))
    ensures InputType(req) == "direct_prompt" ==> ResolvedInput(fs, req) == Ok(Str(req.prompt.value))
  {
    var t := InputType(req);
    if t != "none" {
      assert Given(req.ref) || GivenRefs(req.refs) || Given(req.promptRef) || Given(req.prompt);
      if !Given(req.ref) && GivenRefs(req.refs) {
        assert Combined(fs, req.refs.value).Err? ==> Combined(fs, req.refs.value).error != NoInput;
      }
    }
  }

  /** A direct prompt always wins over a prompt reference, which is then only a template. */
  lemma PromptBeatsPromptRef(fs: Files, req: Request)
    requires !Given(req.ref) && !GivenRefs(req.refs) && Given(req.prompt)
    ensures ResolvedInput(fs, req) == Ok(Str(req.prompt.value))
  {
  }

  /** A list of one readable string reference is the same input as that reference on its own. */
  lemma {:induction false} OneRefCombined(fs: Files, name: string)
    requires Read(fs, name, false).Ok? && Read(fs, name, false).value.Str?
    ensures Combined(fs, [name]) == Ok(Read(fs, name, false).value)
  {
    JoinedOne(Reads(fs, [name]), Read(fs, name, false).value.s);
  }

  /** Combining two readable string references puts the separator between their contents. */
  lemma {:induction false} TwoRefsCombined(fs: Files, a: string, b: string)
    requires Read(fs, a, false).Ok? && Read(fs, a, false).value.Str?
    requires Read(fs, b, false).Ok? && Read(fs, b, false).value.Str?
    ensures Combined(fs, [a, b]) == Ok(Str(Read(fs, a, false).value.s + Sep + Read(fs, b, false).value.s))
  {
    JoinedTwo(Reads(fs, [a, b]), Read(fs, a, false).value.s, Read(fs, b, false).value.s);
  }

  // ---------------------------------------------------------------------------
  // Template, result and preview
  // ---------------------------------------------------------------------------

  /** `bool(_resolve_template(prompt_ref))`: a prompt reference that reads to a truthy content. */
  predicate TemplateUsed(fs: Files, promptRef: Option<string>) {
    Given(promptRef) && Read(fs, promptRef.value, false).Ok? && Truthy(Read(fs, promptRef.value, false).value)
  }

  /** A template is only ever used when a prompt reference is given and can be read. */
  lemma TemplateNeedsPromptRef(fs: Files, promptRef: Option<string>)
    ensures TemplateUsed(fs, promptRef) ==> Given(promptRef) && Key(promptRef.value) in fs
    ensures !Given(promptRef) ==> !TemplateUsed(fs, promptRef)
  {
  }

  /** The text of the input in the result: a string as it is, any other value as `str()` renders it. */
  function Formatted(v: Value, show: Value -> string): (s: string)
    ensures v.Str? ==> s == v.s
  {
    if v.Str? then v.s else show(v)
  }

  /** The simulated transformation: the header line, then the input. */
  function ResultContent(input: Value, show: Value -> string): (s: string)
    ensures StartsWith(s, Header) && s[|Header|..] == Formatted(input, show)
  {
    Header + Formatted(input, show)
  }

  /** `content_preview`: the text when it has at most 200 characters, else its first 200 and an ellipsis. */
  function Preview(s: string): (p: string)
    ensures |s| <= 200 ==> p == s
    ensures |s| > 200 ==> |p| == 203 && StartsWith(p, s[..200]) && p[200..] == "..."
    ensures StartsWith(s, p) || (|s| > 200 && StartsWith(s, p[..200]))
  {
    if |s| > 200 then s[..200] + "..." else s
  }

  /** Every preview of a result starts with the header and has at most 203 characters. */
  lemma PreviewKeepsHeader(input: Value, show: Value -> string)
    ensures var p := Preview(ResultContent(input, show));
      StartsWith(p, Header) && |p| <= 203
  {
    var s := ResultContent(input, show);
    assert s[..|Header|] == Header;
    if |s| > 200 {
      assert Preview(s)[..|Header|] == s[..200][..|Header|];
    }
  }

  /** The dictionary `execute_transformation` returns. */
  function Outcome(req: Request, templateUsed: bool, result: string): (d: Obj)
    ensures d.Keys == {"status", "input_type", "template_used", "saved_as", "content_preview"}
    ensures d["status"] == Str("executed") && d["input_type"] == Str(InputType(req))
    ensures d["template_used"] == Bool(templateUsed) && d["content_preview"] == Str(Preview(result))
    ensures d["saved_as"] == (if req.saveAs.Some? then Str(req.saveAs.value) else Null)
  {
    map["status" := Str("executed"),
        "input_type" := Str(InputType(req)),
        "template_used" := Bool(templateUsed),
        "saved_as" := (if req.saveAs.Some? then Str(req.saveAs.value) else Null),
        "content_preview" := Str(Preview(result))]
  }

  // ---------------------------------------------------------------------------
  // The handler
  // ---------------------------------------------------------------------------

  /** An `ExecutionHandler`: it works through the shared reference store. */
  class ExecutionHandler {
    const store: ReferenceManager

    constructor(store: ReferenceManager)
      ensures this.store == store
    {
      this.store := store;
    }

    /** The `refs` branch of `_resolve_input`: read each reference in turn, then join the contents. */
    method CombineRefs(names: seq<string>) returns (r: Result<Value, ExecError>)
      ensures r == Combined(store.files, names)
    {
      ghost var rs := Reads(store.files, names);
      var contents: seq<Value> := [];
      var k := 0;
      while k < |names|
        invariant 0 <= k <= |names|
        invariant Collect(rs[..k]) == Ok(contents)
      {
        var v := store.ReadRef(names[k], false);
        assert v == rs[k];
        CollectNext(rs, k);
        if v.Err? {
          CollectErrPrefix(rs, k + 1);
          assert Collect(rs) == Err(v.error);
          return Err(Store(v.error));
        }
        contents := contents + [v.value];
        k := k + 1;
      }
      assert rs[..k] == rs;
      assert Collect(rs) == Ok(contents);
      r := if AllStr(contents) then Ok(Str(Join(Texts(contents), Sep))) else Err(JoinTypeError);
    }

    /** `_resolve_input`, reading through the store. */
    method ResolveInput(req: Request) returns (r: Result<Value, ExecError>)
      ensures r == ResolvedInput(store.files, req)
    {
      if Given(req.ref) {
        var v := store.ReadRef(req.ref.value, false);
        r := if v.Ok? then Ok(v.value) else Err(Store(v.error));
      } else if GivenRefs(req.refs) {
        r := CombineRefs(req.refs.value);
      } else if Given(req.promptRef) && !Given(req.prompt) {
        var v := store.ReadRef(req.promptRef.value, false);
        r := if v.Ok? then Ok(v.value) else Err(Store(v.error));
      } else if Given(req.prompt) {
        r := Ok(Str(req.prompt.value));
      } else {
        r := Err(NoInput);
      }
    }

    /** `_resolve_template`: a failed read is swallowed and means no template. */
    method ResolveTemplate(promptRef: Option<string>) returns (template: Option<Value>)
      ensures !Given(promptRef) ==> template.None?
      ensures Given(promptRef) ==>
        template == (var v := Read(store.files, promptRef.value, false); if v.Ok? then Some(v.value) else None)
      ensures (template.Some? && Truthy(template.value)) <==> TemplateUsed(store.files, promptRef)
    {
      template := None;
      if Given(promptRef) {
        var v := store.ReadRef(promptRef.value, false);
        if v.Ok? {
          template := Some(v.value);
        }
      }
    }

    /**
     * `execute_transformation`: resolve the input (its failure is the call's),
     * read the template, build the result and save it under `save_as` when
     * one is given; the store is written at most once, and only then.
     */
    method ExecuteTransformation(req: Request, now: Clock, show: Value -> string) returns (r: Result<Obj, ExecError>)
      modifies store
      ensures var input := ResolvedInput(old(store.files), req);
        input.Err? ==> r == Err(input.error) && store.files == old(store.files)
      ensures var input := ResolvedInput(old(store.files), req);
        input.Ok? && !Given(req.saveAs) ==>
          store.files == old(store.files)
          && r == Ok(Outcome(req, TemplateUsed(old(store.files), req.promptRef), ResultContent(input.value, show)))
      ensures var input := ResolvedInput(old(store.files), req);
        var c := if Given(req.saveAs) then CreatedStamp(old(store.files), req.saveAs.value, now) else Ok(Null);
        input.Ok? && Given(req.saveAs) ==>
          (c.Err? ==> r == Err(Store(c.error)) && store.files == old(store.files))
          && (c.Ok? ==>
                store.files == Written(old(store.files), req.saveAs.value, ResultContent(input.value, show), None, c.value, now)
                && r == Ok(Outcome(req, TemplateUsed(old(store.files), req.promptRef), ResultContent(input.value, show))))
      ensures r.Ok? && Given(req.saveAs) ==>
        Read(store.files, req.saveAs.value, false) == Ok(Str(ResultContent(ResolvedInput(old(store.files), req).value, show)))
    {
      var input := ResolveInput(req);
      if input.Err? {
        return Err(input.error);
      }
      var template := ResolveTemplate(req.promptRef);
      var used := template.Some? && Truthy(template.value);
      var result := Header + Formatted(input.value, show);
      if Given(req.saveAs) {
        var saved := store.CreateRef(req.saveAs.value, result, None, now);
        if saved.Err? {
          return Err(Store(saved.error));
        }
        ReadAfterWrite(old(store.files), req.saveAs.value, result, None,
                       CreatedStamp(old(store.files), req.saveAs.value, now).value, now);
      }
      r := Ok(Outcome(req, used, result));
    }
  }
}
