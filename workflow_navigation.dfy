/**
 * Workflow discovery and guidance (src/substrate/features/workflow_navigation/handler.py).
 *
 * Workflows are YAML documents in a patterns directory; the handler loads
 * them once, filters them by category and by the tools their steps use,
 * turns one of them into a numbered step guide, and wraps the navigation
 * engine's suggestions. Workflows are the dictionaries YAML produces, so every
 * `.get` and every `in` here follows Python's rules for whatever value the
 * document holds, including the exceptions they raise.
 */
module WorkflowNavigation {
  import opened Common
  import opened RefFiles
  import Navigation

  /** The exceptions these operations raise. */
  datatype WfError =
    | TypeError                           // iterating or `in` on a value that does not support it
    | AttributeError                      // `.get` on a step that is not a dictionary
    | WorkflowNotFound(name: string)      // the ValueError of `get_workflow_guide`

  // ---------------------------------------------------------------------------
  // Loading
  // ---------------------------------------------------------------------------

  /**
   * `_load_all_workflows` over the directory's `*.yaml` files in listing order:
   * `index.yaml` is skipped, files that fail to parse are skipped, and every
   * non-empty mapping is kept with its file name under `source_file`.
   */
  function Loaded(dir: seq<(string, Body)>): (ws: seq<Obj>)
    ensures |ws| <= |dir|
    ensures forall w: Obj :: w in ws ==> "source_file" in w && w["source_file"].Str?
  {
    if |dir| == 0 then []
    else
      var prev := Loaded(dir[..|dir| - 1]);
      var (name, body) := dir[|dir| - 1];
      if name != "index.yaml" && body.Parsed? && body.data.Dict? && |body.data.entries| > 0 then
        prev + [body.data.entries["source_file" := Str(name)]]
      else prev
  }

  /** Every kept workflow comes from a listed file that is not the index. */
  lemma {:induction false} LoadedFrom(dir: seq<(string, Body)>, w: Obj)
    requires w in Loaded(dir)
    ensures exists i :: (0 <= i < |dir| && dir[i].0 != "index.yaml" && dir[i].1.Parsed? && dir[i].1.data.Dict?
      && w == dir[i].1.data.entries["source_file" := Str(dir[i].0)])
    decreases |dir|
  {
    var init := dir[..|dir| - 1];
    if w in Loaded(init) {
      LoadedFrom(init, w);
      var i :| 0 <= i < |init| && init[i].0 != "index.yaml" && init[i].1.Parsed? && init[i].1.data.Dict?
        && w == init[i].1.data.entries["source_file" := Str(init[i].0)];
      assert dir[i] == init[i];
    }
  }

  // ---------------------------------------------------------------------------
  // Steps and tools
  // ---------------------------------------------------------------------------

  /**
   * What `for step in steps` yields. Iterating a string yields one-character
   * strings; iterating a non-empty dictionary yields its keys, which are strings
   * too, so the first `.get` on any of them raises, whichever key comes first.
   */
  function Items(v: Value): (r: Result<seq<Value>, WfError>)
    ensures v.List? ==> r == Ok(v.items)
    ensures v.Str? ==> r.Ok? && |r.value| == |v.s| && forall i :: 0 <= i < |v.s| ==> r.value[i] == Str([v.s[i]])
    ensures v.Dict? && |v.entries| == 0 ==> r == Ok([])
    ensures v.Dict? && |v.entries| > 0 ==> r == Err(AttributeError)
    ensures !(v.List? || v.Str? || v.Dict?) ==> r == Err(TypeError)
    ensures r.Ok? ==> forall x :: x in r.value && !v.List? ==> x.Str?
  {
    match v
    case List(xs) => Ok(xs)
    case Str(s) => Ok(seq(|s|, i requires 0 <= i < |s| => Str([s[i]])))
    case Dict(m) => if |m| == 0 then Ok([]) else Err(AttributeError)
    case _ => Err(TypeError)
  }

  /** The steps of a workflow: `workflow.get('steps', [])`, iterated. */
  function StepsOf(w: Obj): Result<seq<Value>, WfError> {
    Items(Get(w, "steps", List([])))
  }

  /** The loop of `_workflow_uses_tool` as a recursion: the first step whose `tool` holds the string decides. */
  function UsesToolIn(steps: seq<Value>, tool: string): (r: Result<bool, WfError>)
    decreases |steps|
  {
    if |steps| == 0 then Ok(false)
    else if !steps[0].Dict? then Err(AttributeError)
    else
      match Contains(Get(steps[0].entries, "tool", Str("")), tool)
      case None => Err(TypeError)
      case Some(true) => Ok(true)
      case Some(false) => UsesToolIn(steps[1..], tool)
  }

  /** `_workflow_uses_tool` as a value. */
  function UsesTool(w: Obj, tool: string): Result<bool, WfError> {
    match StepsOf(w)
    case Err(e) => Err(e)
    case Ok(steps) => UsesToolIn(steps, tool)
  }

  /** A step's tool name, when it is a dictionary whose `tool` is a string or missing. */
  predicate WellTypedStep(step: Value) {
    step.Dict? && Get(step.entries, "tool", Str("")).Str?
  }

  function StepTool(step: Value): string
    requires WellTypedStep(step)
  {
    Get(step.entries, "tool", Str("")).s
  }

  /** On well-typed steps the check cannot fail, and it holds iff some step's tool contains the string. */
  lemma {:induction false} UsesToolInIff(steps: seq<Value>, tool: string)
    requires forall i :: 0 <= i < |steps| ==> WellTypedStep(steps[i])
    ensures UsesToolIn(steps, tool).Ok?
    ensures UsesToolIn(steps, tool).value <==> exists i :: 0 <= i < |steps| && IsSubstring(tool, StepTool(steps[i]))
    decreases |steps|
  {
    if |steps| > 0 {
      var rest := steps[1..];
      assert forall i :: 0 <= i < |rest| ==> rest[i] == steps[i + 1];
      UsesToolInIff(rest, tool);
      if exists i :: 0 <= i < |steps| && IsSubstring(tool, StepTool(steps[i])) {
        var i :| 0 <= i < |steps| && IsSubstring(tool, StepTool(steps[i]));
        if i > 0 {
          assert IsSubstring(tool, StepTool(rest[i - 1]));
        }
      }
      if exists i :: 0 <= i < |rest| && IsSubstring(tool, StepTool(rest[i])) {
        var i :| 0 <= i < |rest| && IsSubstring(tool, StepTool(rest[i]));
        assert IsSubstring(tool, StepTool(steps[i + 1]));
      }
    }
  }

  /** `_workflow_uses_tool`: scan the steps, stop at the first whose tool contains the string. */
  method WorkflowUsesTool(w: Obj, tool: string) returns (r: Result<bool, WfError>)
    ensures r == UsesTool(w, tool)
  {
    var steps := StepsOf(w);
    if steps.Err? {
      return Err(steps.error);
    }
    var ss := steps.value;
    var k := 0;
    while k < |ss|
      invariant 0 <= k <= |ss|
      invariant UsesToolIn(ss[k..], tool) == UsesToolIn(ss, tool)
    {
      assert ss[k..][1..] == ss[k + 1..];
      if !ss[k].Dict? {
        return Err(AttributeError);
      }
      var inTool := Contains(Get(ss[k].entries, "tool", Str("")), tool);
      if inTool.None? {
        return Err(TypeError);
      }
      if inTool.value {
        return Ok(true);
      }
      k := k + 1;
    }
    return Ok(false);
  }

  // ---------------------------------------------------------------------------
  // Filters
  // ---------------------------------------------------------------------------

  /** `[w for w in filtered if w.get('category') == category]`. */
  function ByCategory(ws: seq<Obj>, category: string): (r: seq<Obj>)
    ensures |r| <= |ws|
    ensures forall w :: w in r <==> w in ws && Get(w, "category", Null) == Str(category)
    decreases |ws|
  {
    if |ws| == 0 then []
    else
      var prev := ByCategory(ws[..|ws| - 1], category);
      var w := ws[|ws| - 1];
      assert ws == ws[..|ws| - 1] + [w];
      if Get(w, "category", Null) == Str(category) then prev + [w] else prev
  }

  /** `[w for w in filtered if self._workflow_uses_tool(w, tool)]`: the first failing check raises. */
  function ByTool(ws: seq<Obj>, tool: string): (r: Result<seq<Obj>, WfError>)
    decreases |ws|
  {
    if |ws| == 0 then Ok([])
    else
      match UsesTool(ws[0], tool)
      case Err(e) => Err(e)
      case Ok(b) =>
        match ByTool(ws[1..], tool)
        case Err(e) => Err(e)
        case Ok(rest) => Ok(if b then [ws[0]] + rest else rest)
  }

  /** The tool filter fails iff some check fails, and otherwise keeps exactly the workflows that use the tool. */
  lemma {:induction false} ByToolIff(ws: seq<Obj>, tool: string)
    ensures ByTool(ws, tool).Err? <==> exists i :: 0 <= i < |ws| && UsesTool(ws[i], tool).Err?
    ensures ByTool(ws, tool).Ok? ==> forall w :: w in ByTool(ws, tool).value <==> w in ws && UsesTool(w, tool) == Ok(true)
    decreases |ws|
  {
    if |ws| > 0 {
      var rest := ws[1..];
      assert forall i :: 0 <= i < |rest| ==> rest[i] == ws[i + 1];
      assert ws == [ws[0]] + rest;
      ByToolIff(rest, tool);
      if exists i :: 0 <= i < |ws| && UsesTool(ws[i], tool).Err? {
        var i :| 0 <= i < |ws| && UsesTool(ws[i], tool).Err?;
        if i > 0 {
          assert UsesTool(rest[i - 1], tool).Err?;
        }
      }
    }
  }

  /** The workflows kept so far in front of what the rest of the filter gives. */
  function Prepend(kept: seq<Obj>, r: Result<seq<Obj>, WfError>): Result<seq<Obj>, WfError> {
    match r
    case Err(e) => Err(e)
    case Ok(rest) => Ok(kept + rest)
  }

  /** One step of the tool filter: the check of workflow `k` fails the rest, or decides whether it is kept. */
  lemma {:induction false} ByToolStep(ws: seq<Obj>, k: nat, tool: string, kept: seq<Obj>)
    requires k < |ws|
    ensures UsesTool(ws[k], tool).Err? ==> Prepend(kept, ByTool(ws[k..], tool)) == Err(UsesTool(ws[k], tool).error)
    ensures UsesTool(ws[k], tool).Ok? ==>
      Prepend(kept, ByTool(ws[k..], tool))
      == Prepend(if UsesTool(ws[k], tool).value then kept + [ws[k]] else kept, ByTool(ws[k + 1..], tool))
  {
    var tail := ws[k..];
    assert tail[0] == ws[k] && tail[1..] == ws[k + 1..];
    match ByTool(ws[k + 1..], tool) {
      case Err(e) =>
      case Ok(rest) => assert kept + ([ws[k]] + rest) == (kept + [ws[k]]) + rest;
    }
  }

  /** The tool filter as the list comprehension runs it, one check per workflow. */
  method FilterByTool(ws: seq<Obj>, tool: string) returns (r: Result<seq<Obj>, WfError>)
    ensures r == ByTool(ws, tool)
  {
    var kept: seq<Obj> := [];
    var k := 0;
    assert ws[0..] == ws;
    match ByTool(ws, tool) {
      case Err(e) =>
      case Ok(all) => assert [] + all == all;
    }
    while k < |ws|
      invariant 0 <= k <= |ws|
      invariant ByTool(ws, tool) == Prepend(kept, ByTool(ws[k..], tool))
    {
      ByToolStep(ws, k, tool, kept);
      var uses := WorkflowUsesTool(ws[k], tool);
      if uses.Err? {
        return Err(uses.error);
      }
      if uses.value {
        kept := kept + [ws[k]];
      }
      k := k + 1;
    }
    assert kept + [] == kept;
    return Ok(kept);
  }

  /** `set(w.get('category', 'uncategorized') for w in workflows)`, when it can be built. */
  function Categories(ws: seq<Obj>): (r: set<Value>)
  {
    set w | w in ws :: Get(w, "category", Str("uncategorized"))
  }

  /** Whether every category can go into a Python set: a list or a dictionary is unhashable. */
  predicate CategoriesHashable(ws: seq<Obj>) {
    forall w :: w in ws ==> !Get(w, "category", Null).List? && !Get(w, "category", Null).Dict?
  }

  /** Every workflow's category is listed, a workflow without one as `uncategorized`, and nothing else is. */
  lemma CategoriesIff(ws: seq<Obj>, c: Value)
    ensures c in Categories(ws) <==> exists w :: w in ws && Get(w, "category", Str("uncategorized")) == c
    ensures (exists w :: w in ws && "category" !in w) ==> Str("uncategorized") in Categories(ws)
  {
    if exists w :: w in ws && "category" !in w {
      var w :| w in ws && "category" !in w;
      assert Get(w, "category", Str("uncategorized")) == Str("uncategorized");
    }
  }

  /** The dictionary `get_workflows` returns. */
  datatype Listing = Listing(workflows: seq<Obj>, count: nat, categories: set<Value>,
                             category: Option<string>, tool: Option<string>)

  /**
   * `get_workflows` on a given list of workflows: category filter, then tool
   * filter, then the set of categories, which raises a TypeError when a
   * category is a list or a dictionary.
   */
  function Listed(ws: seq<Obj>, category: Option<string>, tool: Option<string>): (r: Result<Listing, WfError>)
    ensures r.Ok? ==> r.value.count == |r.value.workflows| && r.value.categories == Categories(ws)
    ensures r.Ok? ==> forall w :: w in r.value.workflows ==> w in ws
    ensures r.Ok? && Given(category) ==> forall w :: w in r.value.workflows ==> Get(w, "category", Null) == Str(category.value)
    ensures r.Ok? ==> CategoriesHashable(ws)
    ensures !Given(tool) ==> (r.Ok? <==> CategoriesHashable(ws))
    ensures !Given(tool) && !CategoriesHashable(ws) ==> r == Err(TypeError)
    ensures !Given(category) && !Given(tool) && CategoriesHashable(ws) ==> r.Ok? && r.value.workflows == ws
  {
    var byCategory := if Given(category) then ByCategory(ws, category.value) else ws;
    var byTool := if Given(tool) then ByTool(byCategory, tool.value) else Ok(byCategory);
    if byTool.Err? then Err(byTool.error)
    else if !CategoriesHashable(ws) then Err(TypeError)
    else
      assert forall w :: w in byTool.value ==> w in byCategory by {
        if Given(tool) {
          ByToolIff(byCategory, tool.value);
        }
      }
      Ok(Listing(byTool.value, |byTool.value|, Categories(ws), category, tool))
  }

  // ---------------------------------------------------------------------------
  // The step guide
  // ---------------------------------------------------------------------------

  /** The guide entry of the step at index `i`. */
  function GuideEntry(i: nat, step: Obj): (g: Obj)
    ensures "step_number" in g && g["step_number"] == Int(i + 1)
    ensures "next_step" in g <==> "next" in step && step["next"].Str?
    ensures "conditional_next" in g <==> "next" in step && step["next"].List?
    ensures "next_step" in g ==> g["next_step"] == step["next"]
    ensures "conditional_next" in g ==> g["conditional_next"] == step["next"]
  {
    var base := map[
      "step_number" := Int(i + 1),
      "id" := Get(step, "id", Null),
      "description" := Get(step, "description", Null),
      "tool" := Get(step, "tool", Null),
      "inputs" := Get(step, "inputs", Dict(map[])),
      "outputs" := Get(step, "outputs", List([]))];
    if "next" in step && step["next"].Str? then base["next_step" := step["next"]]
    else if "next" in step && step["next"].List? then base["conditional_next" := step["next"]]
    else base
  }

  /** The guide loop: one entry per step, numbered from one; a step that is not a dictionary raises. */
  method BuildSteps(steps: seq<Value>) returns (r: Result<seq<Obj>, WfError>)
    ensures r.Ok? <==> forall i :: 0 <= i < |steps| ==> steps[i].Dict?
    ensures r.Ok? ==> |r.value| == |steps| && forall i :: 0 <= i < |steps| ==> r.value[i] == GuideEntry(i, steps[i].entries)
    ensures r.Err? ==> r.error == AttributeError
  {
    var guide: seq<Obj> := [];
    var i := 0;
    while i < |steps|
      invariant 0 <= i <= |steps|
      invariant forall j :: 0 <= j < i ==> steps[j].Dict?
      invariant |guide| == i && forall j :: 0 <= j < i ==> guide[j] == GuideEntry(j, steps[j].entries)
    {
      if !steps[i].Dict? {
        return Err(AttributeError);
      }
      guide := guide + [GuideEntry(i, steps[i].entries)];
      i := i + 1;
    }
    return Ok(guide);
  }

  /** The dictionary `get_workflow_guide` returns. */
  datatype Guide = Guide(workflow: Obj, steps: seq<Obj>, totalSteps: nat, tags: Value)

  /**
   * The guide `get_workflow_guide` builds for a found workflow: its steps,
   * each a numbered guide entry, their count and its tags; iterating steps
   * that are not a sequence raises, and so does a step that is not a dictionary.
   */
  function GuideOf(w: Obj): (r: Result<Guide, WfError>)
    ensures r.Ok? <==> StepsOf(w).Ok? && forall i :: 0 <= i < |StepsOf(w).value| ==> StepsOf(w).value[i].Dict?
    ensures StepsOf(w).Err? ==> r == Err(StepsOf(w).error)
    ensures StepsOf(w).Ok? && r.Err? ==> r.error == AttributeError
    ensures r.Ok? ==> r.value.workflow == w && r.value.tags == Get(w, "tags", List([]))
    ensures r.Ok? ==> r.value.totalSteps == |StepsOf(w).value| == |r.value.steps|
    ensures r.Ok? ==> forall i :: 0 <= i < |r.value.steps| ==> r.value.steps[i] == GuideEntry(i, StepsOf(w).value[i].entries)
  {
    match StepsOf(w)
    case Err(e) => Err(e)
    case Ok(steps) =>
      if forall i :: 0 <= i < |steps| ==> steps[i].Dict? then
        Ok(Guide(w, seq(|steps|, i requires 0 <= i < |steps| => GuideEntry(i, steps[i].entries)), |steps|, Get(w, "tags", List([]))))
      else Err(AttributeError)
  }

  /** Whether index `k` holds the first workflow with that name. */
  predicate FirstNamed(ws: seq<Obj>, k: int, name: string) {
    0 <= k < |ws| && Get(ws[k], "name", Null) == Str(name) && forall j :: 0 <= j < k ==> Get(ws[j], "name", Null) != Str(name)
  }

  /** The search loop of `get_workflow_guide`: the first workflow whose `name` equals the given one. */
  method FindWorkflow(ws: seq<Obj>, name: string) returns (r: Option<nat>)
    ensures r.Some? ==> (r.value < |ws| && Get(ws[r.value], "name", Null) == Str(name)
      && forall j :: 0 <= j < r.value ==> Get(ws[j], "name", Null) != Str(name))
    ensures r.None? <==> forall j :: 0 <= j < |ws| ==> Get(ws[j], "name", Null) != Str(name)
  {
    var k := 0;
    while k < |ws|
      invariant 0 <= k <= |ws|
      invariant forall j :: 0 <= j < k ==> Get(ws[j], "name", Null) != Str(name)
    {
      if Get(ws[k], "name", Null) == Str(name) {
        return Some(k);
      }
      k := k + 1;
    }
    return None;
  }

  /** `suggest_next_step`'s dictionary for one suggestion: unlike `to_dict` it keeps the confidence. */
  function SuggestionEntry(s: Navigation.Suggestion): (d: Obj)
    ensures d.Keys == {"tool", "reason", "params", "confidence"}
    ensures d["confidence"] == Real(s.confidence) && d["tool"] == Str(s.tool)
  {
    map["tool" := Str(s.tool), "reason" := Str(s.reason), "params" := Dict(s.params), "confidence" := Real(s.confidence)]
  }

  /** The dictionary `suggest_next_step` returns. */
  datatype NextSteps = NextSteps(currentTool: string, suggestions: seq<Obj>, contextUsed: bool)

  class WorkflowHandler {
    /** The `*.yaml` files of the patterns directory in listing order, or `None` when the directory is missing. */
    const patterns: Option<seq<(string, Body)>>
    /** `_workflows_cache`. */
    var cache: Option<seq<Obj>>

    /** The cache, once set, holds what loading the directory gives. */
    ghost predicate Valid()
      reads this
    {
      cache.Some? ==> patterns.Some? && cache.value == Loaded(patterns.value)
    }

    /** What `_load_all_workflows` returns, whether or not it is cached yet. */
    function All(): (ws: seq<Obj>) {
      if patterns.Some? then Loaded(patterns.value) else []
    }

    constructor(patterns: Option<seq<(string, Body)>>)
      ensures Valid() && this.patterns == patterns && cache.None?
    {
      this.patterns := patterns;
      cache := None;
    }

    /**
     * `_load_all_workflows`: the cached list if there is one; otherwise every
     * workflow of the directory, cached, except that a missing directory gives
     * `[]` and leaves the cache unset.
     */
    method LoadAll() returns (ws: seq<Obj>)
      requires Valid()
      modifies this
      ensures Valid() && ws == All()
      ensures old(cache).Some? ==> cache == old(cache)
      ensures old(cache).None? ==> cache == (if patterns.Some? then Some(ws) else None)
    {
      if cache.Some? {
        return cache.value;
      }
      if patterns.None? {
        return [];
      }
      var dir := patterns.value;
      ws := [];
      var k := 0;
      while k < |dir|
        invariant 0 <= k <= |dir|
        invariant ws == Loaded(dir[..k])
      {
        assert dir[..k + 1][..k] == dir[..k];
        var (name, body) := dir[k];
        if name != "index.yaml" && body.Parsed? && body.data.Dict? && |body.data.entries| > 0 {
          ws := ws + [body.data.entries["source_file" := Str(name)]];
        }
        k := k + 1;
      }
      assert dir[..|dir|] == dir;
      cache := Some(ws);
    }

    /** `get_workflows`. */
    method GetWorkflows(category: Option<string>, tool: Option<string>) returns (r: Result<Listing, WfError>)
      requires Valid()
      modifies this
      ensures Valid()
      ensures r == Listed(All(), category, tool)
    {
      var ws := LoadAll();
      var filtered := if Given(category) then ByCategory(ws, category.value) else ws;
      if Given(tool) {
        var byTool := FilterByTool(filtered, tool.value);
        if byTool.Err? {
          return Err(byTool.error);
        }
        filtered := byTool.value;
      }
      if !CategoriesHashable(ws) {
        return Err(TypeError);
      }
      return Ok(Listing(filtered, |filtered|, Categories(ws), category, tool));
    }

    /**
     * `get_workflow_guide`: the first workflow with that name, its steps as
     * numbered guide entries, their count, and its tags.
     */
    method GetWorkflowGuide(name: string) returns (r: Result<Guide, WfError>)
      requires Valid()
      modifies this
      ensures Valid()
      ensures (forall w :: w in All() ==> Get(w, "name", Null) != Str(name)) <==> r == Err(WorkflowNotFound(name))
      ensures r.Ok? ==> exists k :: (0 <= k < |All()| && r.value.workflow == All()[k]
        && Get(All()[k], "name", Null) == Str(name)
        && (forall j :: 0 <= j < k ==> Get(All()[j], "name", Null) != Str(name))
        && StepsOf(All()[k]).Ok?
        && r.value.totalSteps == |StepsOf(All()[k]).value| == |r.value.steps|
        && (forall i :: 0 <= i < r.value.totalSteps ==>
              StepsOf(All()[k]).value[i].Dict?
              && r.value.steps[i] == GuideEntry(i, StepsOf(All()[k]).value[i].entries))
        && r.value.tags == Get(All()[k], "tags", List([])))
      ensures forall k :: FirstNamed(All(), k, name) ==> r == GuideOf(All()[k])
    {
      var ws := LoadAll();
      var found := FindWorkflow(ws, name);
      if found.None? {
        return Err(WorkflowNotFound(name));
      }
      assert forall k :: FirstNamed(ws, k, name) ==> k == found.value;
      var workflow := ws[found.value];
      var steps := StepsOf(workflow);
      if steps.Err? {
        return Err(steps.error);
      }
      var guide := BuildSteps(steps.value);
      if guide.Err? {
        return Err(guide.error);
      }
      assert guide.value == GuideOf(workflow).value.steps;
      return Ok(Guide(workflow, guide.value, |steps.value|, Get(workflow, "tags", List([]))));
    }
  }

  /** The conversion loop of `suggest_next_step`: one dictionary per suggestion, in order. */
  method SuggestionEntries(suggestions: seq<Navigation.Suggestion>) returns (dicts: seq<Obj>)
    ensures |dicts| == |suggestions|
    ensures forall i :: 0 <= i < |suggestions| ==> dicts[i] == SuggestionEntry(suggestions[i])
  {
    dicts := [];
    var k := 0;
    while k < |suggestions|
      invariant 0 <= k <= |suggestions|
      invariant |dicts| == k && forall i :: 0 <= i < k ==> dicts[i] == SuggestionEntry(suggestions[i])
    {
      dicts := dicts + [SuggestionEntry(suggestions[k])];
      k := k + 1;
    }
  }

  /**
   * `suggest_next_step`: the engine's suggestions for the tool, each as a
   * dictionary that keeps its confidence, and whether a context was given.
   */
  method SuggestNextStep(currentTool: string, context: Option<Obj>) returns (r: NextSteps)
    ensures r.currentTool == currentTool
    ensures r.contextUsed <==> GivenObj(context)
    ensures var s := Navigation.Top5(Navigation.GraphSuggestions(currentTool, ObjOrEmpty(context))
                                     + Navigation.WorkflowSuggestions(currentTool, Navigation.Workflows));
      |r.suggestions| == |s| && forall i :: 0 <= i < |s| ==> r.suggestions[i] == SuggestionEntry(s[i])
  {
    var suggestions := Navigation.GetSuggestions(currentTool, ObjOrEmpty(context));
    var dicts := SuggestionEntries(suggestions);
    return NextSteps(currentTool, dicts, GivenObj(context));
  }
}
