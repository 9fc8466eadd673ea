/**
 * The navigation layer of shared/response/builder.py: a response builder that
 * wraps data with server metadata and suggestions for the next tool, and an
 * engine that derives those suggestions from a fixed tool graph and a fixed
 * list of workflows.
 *
 * Confidences are floats in the source and reals here; the timestamp is the
 * parameter `now`.
 */
module Navigation {
  import opened Common

  /** `NavigationSuggestion`. */
  datatype Suggestion = Suggestion(tool: string, reason: string, params: Obj, confidence: real)

  /** An entry of the list handed to `build`: a suggestion object, or anything else, passed through as is. */
  datatype Entry = Nav(s: Suggestion) | Raw(v: Value)

  /** `to_dict`: the confidence is not part of the dictionary. */
  function ToDict(s: Suggestion): (d: Obj)
    ensures d.Keys == {"tool", "reason", "params"}
    ensures d["tool"] == Str(s.tool) && d["reason"] == Str(s.reason) && d["params"] == Dict(s.params)
  {
    map["tool" := Str(s.tool), "reason" := Str(s.reason), "params" := Dict(s.params)]
  }

  /** Suggestions that differ only in confidence look the same once converted. */
  lemma ToDictForgetsConfidence(s: Suggestion, c: real)
    ensures ToDict(s.(confidence := c)) == ToDict(s)
  {
  }

  function EntryValue(e: Entry): Value {
    match e
    case Nav(s) => Dict(ToDict(s))
    case Raw(v) => v
  }

  /** `suggest_next`: the keyword arguments become the parameters, at the default confidence. */
  function SuggestNext(tool: string, reason: string, params: Obj): (s: Suggestion)
    ensures s.tool == tool && s.reason == reason && s.params == params && s.confidence == 0.8
  {
    Suggestion(tool, reason, params, 0.8)
  }

  // ---------------------------------------------------------------------------
  // ResponseBuilder
  // ---------------------------------------------------------------------------

  /** The `metadata` block of `build`: server and timestamp, the tool when non-empty, then the caller's metadata over them. */
  function Meta(server: string, tool: Option<string>, metadata: Option<Obj>, now: real): (m: Obj)
    ensures forall k :: k in ObjOrEmpty(metadata) ==> k in m && m[k] == ObjOrEmpty(metadata)[k]
    ensures "server" !in ObjOrEmpty(metadata) ==> "server" in m && m["server"] == Str(server)
    ensures "timestamp" !in ObjOrEmpty(metadata) ==> "timestamp" in m && m["timestamp"] == Real(now)
    ensures Given(tool) && "tool" !in ObjOrEmpty(metadata) ==> "tool" in m && m["tool"] == Str(tool.value)
  {
    var m0 := map["server" := Str(server), "timestamp" := Real(now)];
    var m1 := if Given(tool) then m0["tool" := Str(tool.value)] else m0;
    m1 + ObjOrEmpty(metadata)
  }

  /** The metadata always names the server and the time, the tool only when one is given. */
  lemma MetaKeys(server: string, tool: Option<string>, metadata: Option<Obj>, now: real)
    ensures Meta(server, tool, metadata, now).Keys ==
      {"server", "timestamp"} + (if Given(tool) then {"tool"} else {}) + ObjOrEmpty(metadata).Keys
  {
  }

  /** `build`: data and metadata always; suggestions only when the list is non-empty, the message only when non-empty. */
  function Build(server: string, data: Value, tool: Option<string>, suggestions: Option<seq<Entry>>,
                 message: Option<string>, metadata: Option<Obj>, now: real): (r: Obj)
    ensures "data" in r && r["data"] == data
    ensures "metadata" in r && r["metadata"] == Dict(Meta(server, tool, metadata, now))
    ensures suggestions.Some? && |suggestions.value| > 0 ==>
      "suggestions" in r && r["suggestions"].List? && |r["suggestions"].items| == |suggestions.value|
      && forall i :: 0 <= i < |suggestions.value| ==> r["suggestions"].items[i] == EntryValue(suggestions.value[i])
    ensures Given(message) ==> "message" in r && r["message"] == Str(message.value)
  {
    var r0 := map["data" := data, "metadata" := Dict(Meta(server, tool, metadata, now))];
    var r1 :=
      if suggestions.Some? && |suggestions.value| > 0 then
        r0["suggestions" := List(seq(|suggestions.value|, i requires 0 <= i < |suggestions.value| =>
          EntryValue(suggestions.value[i])))]
      else r0;
    if Given(message) then r1["message" := Str(message.value)] else r1
  }

  /** `suggestions` appears only for a non-empty list and `message` only when non-empty. */
  lemma BuildKeys(server: string, data: Value, tool: Option<string>, suggestions: Option<seq<Entry>>,
                  message: Option<string>, metadata: Option<Obj>, now: real)
    ensures Build(server, data, tool, suggestions, message, metadata, now).Keys ==
      {"data", "metadata"}
      + (if suggestions.Some? && |suggestions.value| > 0 then {"suggestions"} else {})
      + (if Given(message) then {"message"} else {})
  {
  }

  /** `error`: the message and `details or {}` as data, status "error" in the metadata. */
  function Error(server: string, error: string, details: Option<Obj>, now: real): (r: Obj)
    ensures "data" in r && r["data"] == Dict(map["error" := Str(error), "details" := Dict(ObjOrEmpty(details))])
    ensures "metadata" in r && r["metadata"].Dict?
    ensures "status" in r["metadata"].entries && r["metadata"].entries["status"] == Str("error")
    ensures "server" in r["metadata"].entries && r["metadata"].entries["server"] == Str(server)
  {
    Build(server, Dict(map["error" := Str(error), "details" := Dict(ObjOrEmpty(details))]),
          None, None, None, Some(map["status" := Str("error")]), now)
  }

  /** `success`: status "success" in the metadata, message and suggestions when given. */
  function Success(server: string, data: Value, message: Option<string>, suggestions: Option<seq<Entry>>,
                   now: real): (r: Obj)
    ensures "data" in r && r["data"] == data
    ensures "metadata" in r && r["metadata"].Dict?
    ensures "status" in r["metadata"].entries && r["metadata"].entries["status"] == Str("success")
    ensures "server" in r["metadata"].entries && r["metadata"].entries["server"] == Str(server)
  {
    Build(server, data, None, suggestions, message, Some(map["status" := Str("success")]), now)
  }

  /** With only a status as caller metadata, the metadata holds exactly server, timestamp and status. */
  lemma StatusMetaKeys(server: string, status: string, now: real)
    ensures Meta(server, None, Some(map["status" := Str(status)]), now).Keys == {"server", "timestamp", "status"}
  {
    var md := map["status" := Str(status)];
    assert ObjOrEmpty(Some(md)) == md;
    MetaKeys(server, None, Some(md), now);
  }

  /** An error response has exactly data and metadata, and its metadata exactly server, timestamp and status. */
  lemma ErrorKeys(server: string, error: string, details: Option<Obj>, now: real)
    ensures Error(server, error, details, now).Keys == {"data", "metadata"}
    ensures Error(server, error, details, now)["metadata"].entries.Keys == {"server", "timestamp", "status"}
  {
    var data := Dict(map["error" := Str(error), "details" := Dict(ObjOrEmpty(details))]);
    var status := map["status" := Str("error")];
    assert Error(server, error, details, now).Keys == {"data", "metadata"} by {
      BuildKeys(server, data, None, None, None, Some(status), now);
    }
    assert Error(server, error, details, now)["metadata"].entries.Keys == {"server", "timestamp", "status"} by {
      StatusMetaKeys(server, "error", now);
    }
  }

  /** A success response carries suggestions only for a non-empty list; its metadata is server, timestamp and status. */
  lemma SuccessKeys(server: string, data: Value, message: Option<string>, suggestions: Option<seq<Entry>>, now: real)
    ensures "suggestions" in Success(server, data, message, suggestions, now) <==>
      suggestions.Some? && |suggestions.value| > 0
    ensures Success(server, data, message, suggestions, now)["metadata"].entries.Keys == {"server", "timestamp", "status"}
  {
    var status := map["status" := Str("success")];
    assert "suggestions" in Success(server, data, message, suggestions, now) <==>
      suggestions.Some? && |suggestions.value| > 0 by {
      BuildKeys(server, data, None, suggestions, message, Some(status), now);
    }
    assert Success(server, data, message, suggestions, now)["metadata"].entries.Keys == {"server", "timestamp", "status"} by {
      StatusMetaKeys(server, "success", now);
    }
  }

  // ---------------------------------------------------------------------------
  // NavigationEngine: the tables
  // ---------------------------------------------------------------------------

  /** `tool_graph`: for each tool, the tools that usually follow it, with the reason shown. */
  const ToolGraph: map<string, seq<(string, string)>> := map[
    "synapse:enhance_prompt" := [
      ("akab:create_campaign", "Test enhanced vs original prompt performance"),
      ("akab:quick_compare", "Quick comparison across providers"),
      ("synapse:analyze_pattern_effectiveness", "Analyze which patterns worked best"),
      ("tloen:platform_format", "Format for specific platform")],
    "synapse:stable_genius" := [
      ("substrate:create_ref", "Save generated content"),
      ("synapse:enhance_prompt", "Further enhance the generated prompt"),
      ("akab:create_campaign", "Test variations of the genius prompt")],
    "synapse:analyze_pattern_effectiveness" := [
      ("synapse:enhance_prompt", "Apply recommended patterns"),
      ("synapse:list_available_patterns", "Explore other pattern options")],
    "akab:quick_compare" := [
      ("akab:create_campaign", "Create full A/B test campaign"),
      ("synapse:enhance_prompt", "Enhance the best performing version")],
    "akab:create_campaign" := [
      ("akab:execute_campaign", "Run the campaign"),
      ("akab:list_campaigns", "View all campaigns")],
    "akab:execute_campaign" := [
      ("akab:analyze_results", "Analyze campaign results"),
      ("akab:cost_report", "View cost breakdown")],
    "akab:analyze_results" := [
      ("akab:unlock", "Reveal model mappings"),
      ("synapse:enhance_prompt", "Enhance based on winning variant"),
      ("akab:create_campaign", "Create follow-up campaign")],
    "substrate:create_ref" := [
      ("substrate:read_ref", "Read saved reference"),
      ("substrate:list_refs", "View all references"),
      ("synapse:enhance_prompt", "Enhance saved content")],
    "substrate:read_ref" := [
      ("substrate:update_ref", "Update reference content"),
      ("substrate:execute", "Execute as pattern"),
      ("synapse:enhance_prompt", "Enhance content")],
    "tloen:platform_format" := [
      ("substrate:create_ref", "Save formatted version"),
      ("akab:quick_compare", "Compare platform effectiveness")],
    "uqbar:library_access" := [
      ("substrate:create_ref", "Save selected template"),
      ("substrate:execute", "Apply template"),
      ("tloen:platform_format", "Format for platform")]
  ]

  /** `workflow_patterns`, in the dictionary's insertion order. */
  const Workflows: seq<(string, seq<string>)> := [
    ("prompt_optimization", [
      "synapse:analyze_pattern_effectiveness", "synapse:enhance_prompt", "akab:create_campaign",
      "akab:execute_campaign", "akab:analyze_results"]),
    ("content_pipeline", [
      "synapse:stable_genius", "substrate:create_ref", "tloen:platform_format", "substrate:create_ref"]),
    ("quick_testing", [
      "akab:quick_compare", "synapse:enhance_prompt", "akab:quick_compare"])
  ]

  // ---------------------------------------------------------------------------
  // NavigationEngine: parameters and suggestions
  // ---------------------------------------------------------------------------

  /** `_build_params`: context-derived parameters for moving from one tool to the next. */
  function BuildParams(fromTool: string, toTool: string, context: Obj): (p: Obj)
    ensures "prompt_ref" in p <==>
      "output_ref" in context && (IsSubstring("ref", toTool) || IsSubstring("prompt", toTool))
    ensures "prompt_ref" in p ==> p["prompt_ref"] == context["output_ref"]
    ensures ("base_prompt" in p <==> fromTool == "synapse:enhance_prompt" && toTool == "akab:create_campaign")
      && ("models" in p <==> "base_prompt" in p)
    ensures "base_prompt" in p ==> p["base_prompt"] == Str("$ref") && p["models"] == Get(context, "models", List([]))
    ensures "campaign_id" in p <==>
      (fromTool == "akab:create_campaign" && toTool == "akab:execute_campaign")
      || (fromTool == "akab:execute_campaign" && toTool == "akab:analyze_results")
    ensures "campaign_id" in p ==> p["campaign_id"] == Get(context, "campaign_id", Str("$last_campaign"))
    ensures p.Keys <= {"prompt_ref", "base_prompt", "models", "campaign_id"}
  {
    var p0: Obj :=
      if "output_ref" in context && (IsSubstring("ref", toTool) || IsSubstring("prompt", toTool))
      then map["prompt_ref" := context["output_ref"]] else map[];
    if fromTool == "synapse:enhance_prompt" && toTool == "akab:create_campaign" then
      p0["base_prompt" := Str("$ref")]["models" := Get(context, "models", List([]))]
    else if (fromTool == "akab:create_campaign" && toTool == "akab:execute_campaign")
         || (fromTool == "akab:execute_campaign" && toTool == "akab:analyze_results") then
      p0["campaign_id" := Get(context, "campaign_id", Str("$last_campaign"))]
    else p0
  }

  /** The suggestion made for one edge of the tool graph. */
  function GraphSuggestion(current: string, edge: (string, string), context: Obj): Suggestion {
    Suggestion(edge.0, edge.1, BuildParams(current, edge.0, context), 0.9)
  }

  /** The tool-graph part of `get_suggestions`: one suggestion per edge, in table order, at confidence 0.9. */
  function GraphSuggestions(current: string, context: Obj): (r: seq<Suggestion>)
    ensures current !in ToolGraph ==> r == []
    ensures current in ToolGraph ==>
      |r| == |ToolGraph[current]|
      && forall i :: 0 <= i < |r| ==> r[i] == GraphSuggestion(current, ToolGraph[current][i], context)
    ensures forall i :: 0 <= i < |r| ==> r[i].confidence == 0.9
  {
    if current !in ToolGraph then []
    else
      var edges := ToolGraph[current];
      seq(|edges|, i requires 0 <= i < |edges| => GraphSuggestion(current, edges[i], context))
  }

  /** `tools.index(x)`: the first position of `x`. */
  function FirstIndex(tools: seq<string>, x: string): (i: nat)
    requires x in tools
    ensures i < |tools| && tools[i] == x
    ensures forall j :: 0 <= j < i ==> tools[j] != x
  {
    if tools[0] == x then 0 else 1 + FirstIndex(tools[1..], x)
  }

  /** What one workflow contributes: the tool after the first occurrence of `current`, unless that occurrence is last. */
  function WorkflowStep(current: string, workflow: (string, seq<string>)): (r: seq<Suggestion>)
    ensures |r| <= 1
    ensures |r| == 1 <==> current in workflow.1 && FirstIndex(workflow.1, current) < |workflow.1| - 1
    ensures |r| == 1 ==>
      r[0] == Suggestion(workflow.1[FirstIndex(workflow.1, current) + 1],
                         "Continue " + workflow.0 + " workflow", map[], 0.7)
  {
    var tools := workflow.1;
    if current in tools && FirstIndex(tools, current) < |tools| - 1 then
      [Suggestion(tools[FirstIndex(tools, current) + 1], "Continue " + workflow.0 + " workflow", map[], 0.7)]
    else []
  }

  /** `_get_workflow_suggestions` over a list of workflows: at most one suggestion each, all at confidence 0.7. */
  function WorkflowSuggestions(current: string, workflows: seq<(string, seq<string>)>): (r: seq<Suggestion>)
    ensures |r| <= |workflows|
    ensures forall i :: 0 <= i < |r| ==> r[i].confidence == 0.7
    ensures (forall w :: w in workflows ==> current !in w.1) ==> r == []
    decreases |workflows|
  {
    if |workflows| == 0 then []
    else
      var front := workflows[..|workflows| - 1];
      assert forall w :: w in front ==> w in workflows;
      WorkflowSuggestions(current, front) + WorkflowStep(current, workflows[|workflows| - 1])
  }

  /** `_get_workflow_suggestions`: the loop over the workflow table. */
  method GetWorkflowSuggestions(current: string) returns (r: seq<Suggestion>)
    ensures r == WorkflowSuggestions(current, Workflows)
  {
    r := [];
    var i := 0;
    while i < |Workflows|
      invariant 0 <= i <= |Workflows|
      invariant r == WorkflowSuggestions(current, Workflows[..i])
    {
      assert Workflows[..i + 1][..i] == Workflows[..i];
      r := r + WorkflowStep(current, Workflows[i]);
      i := i + 1;
    }
    assert Workflows[..i] == Workflows;
  }

  // ---------------------------------------------------------------------------
  // The stable sort by descending confidence
  // ---------------------------------------------------------------------------

  predicate NonIncreasing(s: seq<Suggestion>) {
    forall i, j :: 0 <= i < j < |s| ==> s[i].confidence >= s[j].confidence
  }

  /** Appending an element whose confidence is at most every other keeps a list in descending order. */
  lemma NonIncreasingSnoc(s: seq<Suggestion>, x: Suggestion)
    requires NonIncreasing(s)
    requires forall y :: y in s ==> y.confidence >= x.confidence
    ensures NonIncreasing(s + [x])
  {
    var r := s + [x];
    forall i, j | 0 <= i < j < |r|
      ensures r[i].confidence >= r[j].confidence
    {
      if j == |s| {
        assert r[i] == s[i] && s[i] in s;
      } else {
        assert r[i] == s[i] && r[j] == s[j];
      }
    }
  }

  /** A lower bound on the confidences of `front` and of `x` bounds every element of a list holding exactly those. */
  lemma AllAtLeast(r: seq<Suggestion>, front: seq<Suggestion>, x: Suggestion, c: real)
    requires multiset(r) == multiset(front) + multiset{x}
    requires forall y :: y in front ==> y.confidence >= c
    requires x.confidence >= c
    ensures forall y :: y in r ==> y.confidence >= c
  {
    forall y | y in r ensures y.confidence >= c {
      assert y in multiset(r);
      if y != x {
        assert y in multiset(front);
      }
    }
  }

  /** Insert `x` after every element whose confidence is at least its own (keeps the sort stable). */
  function InsertDesc(s: seq<Suggestion>, x: Suggestion): (r: seq<Suggestion>)
    requires NonIncreasing(s)
    ensures NonIncreasing(r)
    ensures multiset(r) == multiset(s) + multiset{x}
  {
    if |s| == 0 then [x]
    else
      var last := s[|s| - 1];
      if last.confidence >= x.confidence then
        assert forall y :: y in s ==> y.confidence >= x.confidence by {
          forall y | y in s ensures y.confidence >= x.confidence {
            var i :| 0 <= i < |s| && s[i] == y;
          }
        }
        NonIncreasingSnoc(s, x);
        s + [x]
      else
        var front := s[..|s| - 1];
        assert s == front + [last];
        var r' := InsertDesc(front, x);
        assert forall y :: y in front ==> y.confidence >= last.confidence by {
          forall y | y in front ensures y.confidence >= last.confidence {
            var i :| 0 <= i < |front| && front[i] == y;
            assert s[i] == y;
          }
        }
        AllAtLeast(r', front, x, last.confidence);
        NonIncreasingSnoc(r', last);
        r' + [last]
  }

  /** `list.sort(key=confidence, reverse=True)`: a stable sort, highest confidence first. */
  function SortDesc(s: seq<Suggestion>): (r: seq<Suggestion>)
    ensures NonIncreasing(r)
    ensures multiset(r) == multiset(s)
    ensures |r| == |s|
  {
    if |s| == 0 then []
    else
      var front := s[..|s| - 1];
      assert s == front + [s[|s| - 1]];
      assert multiset(s) == multiset(front) + multiset{s[|s| - 1]};
      var r := InsertDesc(SortDesc(front), s[|s| - 1]);
      assert |r| == |multiset(r)| == |multiset(s)| == |s|;
      r
  }

  /** A list already in descending order is left as it is: the sort is stable. */
  lemma {:induction false} SortDescStable(s: seq<Suggestion>)
    requires NonIncreasing(s)
    ensures SortDesc(s) == s
  {
    if |s| > 0 {
      var front := s[..|s| - 1];
      assert s == front + [s[|s| - 1]];
      SortDescStable(front);
    }
  }

  /** The first five, or all when there are fewer. */
  function Top5(s: seq<Suggestion>): (r: seq<Suggestion>)
    ensures |r| <= 5 && r <= s
    ensures |s| <= 5 ==> r == s
  {
    s[..if |s| <= 5 then |s| else 5]
  }

  /** The loop of `get_suggestions` over the edges of the current tool. */
  method CollectGraphSuggestions(current: string, context: Obj) returns (r: seq<Suggestion>)
    ensures r == GraphSuggestions(current, context)
  {
    r := [];
    if current in ToolGraph {
      var edges := ToolGraph[current];
      r := SuggestAlong(current, edges, context);
      ghost var g := GraphSuggestions(current, context);
      assert |g| == |edges|;
      assert forall k :: 0 <= k < |g| ==> g[k] == r[k];
    }
  }

  /** One graph suggestion per edge of `edges`, in order. */
  method SuggestAlong(current: string, edges: seq<(string, string)>, context: Obj) returns (r: seq<Suggestion>)
    ensures |r| == |edges|
    ensures forall k :: 0 <= k < |r| ==> r[k] == GraphSuggestion(current, edges[k], context)
  {
    r := [];
    var i := 0;
    while i < |edges|
      invariant 0 <= i <= |edges| && |r| == i
      invariant forall k :: 0 <= k < i ==> r[k] == GraphSuggestion(current, edges[k], context)
    {
      r := r + [GraphSuggestion(current, edges[i], context)];
      i := i + 1;
    }
  }

  /** All graph suggestions come before all workflow ones in descending confidence. */
  lemma GraphBeforeWorkflow(graph: seq<Suggestion>, workflow: seq<Suggestion>)
    requires forall i :: 0 <= i < |graph| ==> graph[i].confidence == 0.9
    requires forall i :: 0 <= i < |workflow| ==> workflow[i].confidence == 0.7
    ensures NonIncreasing(graph + workflow)
  {
    var s := graph + workflow;
    forall i, j | 0 <= i < j < |s|
      ensures s[i].confidence >= s[j].confidence
    {
      if j < |graph| {
        assert s[i] == graph[i] && s[j] == graph[j];
      } else if i < |graph| {
        assert s[i] == graph[i] && s[j] == workflow[j - |graph|];
      } else {
        assert s[i] == workflow[i - |graph|] && s[j] == workflow[j - |graph|];
      }
    }
  }

  /**
   * `get_suggestions`: the graph suggestions, then the workflow ones, sorted
   * by confidence and cut to five. Every graph suggestion (0.9) outranks
   * every workflow one (0.7) and the sort is stable, so the result is the
   * concatenation in table order, cut to five.
   */
  method GetSuggestions(current: string, context: Obj) returns (r: seq<Suggestion>)
    ensures r == Top5(GraphSuggestions(current, context) + WorkflowSuggestions(current, Workflows))
  {
    var suggestions := CollectGraphSuggestions(current, context);
    var workflow := GetWorkflowSuggestions(current);
    GraphBeforeWorkflow(suggestions, workflow);
    suggestions := suggestions + workflow;
    SortDescStable(suggestions);
    suggestions := SortDesc(suggestions);
    r := suggestions[..if |suggestions| <= 5 then |suggestions| else 5];
  }

  /** A tool that appears in neither table gets no suggestions. */
  lemma UnknownToolNoSuggestions(current: string, context: Obj)
    requires current !in ToolGraph
    requires forall w :: w in Workflows ==> current !in w.1
    ensures Top5(GraphSuggestions(current, context) + WorkflowSuggestions(current, Workflows)) == []
  {
  }

  /**
   * In the content pipeline `substrate:create_ref` occurs twice; only its
   * first occurrence counts, so the pipeline suggests `tloen:platform_format`
   * and never an end of workflow.
   */
  lemma ContentPipelineUsesFirstOccurrence()
    ensures WorkflowStep("substrate:create_ref", Workflows[1]) ==
      [Suggestion("tloen:platform_format", "Continue content_pipeline workflow", map[], 0.7)]
  {
    assert FirstIndex(Workflows[1].1, "substrate:create_ref") == 1;
    assert Workflows[1].1[2] == "tloen:platform_format";
    assert "Continue " + "content_pipeline" + " workflow" == "Continue content_pipeline workflow";
  }

  /** The last tool of a workflow has no successor in it. */
  lemma LastToolEndsWorkflow()
    ensures WorkflowStep("akab:analyze_results", Workflows[0]) == []
  {
    assert FirstIndex(Workflows[0].1, "akab:analyze_results") == 4;
  }
}
