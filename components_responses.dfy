/**
 * The response builder of components.py: one `create` that both `success` and
 * `error` go through, with keyword arguments applied last.
 *
 * Python binds a keyword named like a parameter (`success`, `data`, `message`,
 * `error`) to that parameter, so such a key never reaches `**kwargs`; the
 * models take the extra fields as a map without those keys. The timestamp is
 * the parameter `now`.
 */
module ComponentsResponses {
  import opened Common
  import Responses

  /** The keys `create` binds to its own parameters. */
  predicate FreeKwargs(kwargs: Obj) {
    "success" !in kwargs && "data" !in kwargs && "message" !in kwargs && "error" !in kwargs
  }

  /** The dictionary `create` builds before `response.update(kwargs)`. */
  function CreateBody(success: bool, data: Option<Value>, message: Option<string>, error: Option<string>,
                      now: real): (r: Obj)
    ensures "success" in r && r["success"] == Bool(success)
    ensures "timestamp" in r && r["timestamp"] == Real(now)
    ensures success && data.Some? ==> "data" in r && r["data"] == data.value
    ensures !success ==> "error" in r && r["error"] == Str(if Given(error) then error.value else "Unknown error")
    ensures Given(message) ==> "message" in r && r["message"] == Str(message.value)
  {
    var r0 := map["success" := Bool(success), "timestamp" := Real(now)];
    var r1 :=
      if success then (if data.Some? then r0["data" := data.value] else r0)
      else r0["error" := Str(if Given(error) then error.value else "Unknown error")];
    if Given(message) then r1["message" := Str(message.value)] else r1
  }

  /** A success body never carries `error`, a failure body never carries `data`; `message` appears iff non-empty. */
  lemma CreateBodyKeys(success: bool, data: Option<Value>, message: Option<string>, error: Option<string>, now: real)
    ensures forall k :: k in CreateBody(success, data, message, error, now) <==>
      (k == "success" || k == "timestamp" || (k == "data" && success && data.Some?)
        || (k == "error" && !success) || (k == "message" && Given(message)))
  {
  }

  /** `create`: the body with the keyword arguments laid over it. */
  function Create(success: bool, data: Option<Value>, message: Option<string>, error: Option<string>,
                  kwargs: Obj, now: real): (r: Obj)
    requires FreeKwargs(kwargs)
    ensures forall k :: k in r <==> k in kwargs || k in CreateBody(success, data, message, error, now)
    ensures forall k :: k in kwargs ==> r[k] == kwargs[k]
    ensures "success" in r && r["success"] == Bool(success)
    ensures !success ==> "error" in r && r["error"] == Str(if Given(error) then error.value else "Unknown error")
  {
    CreateBody(success, data, message, error, now) + kwargs
  }

  /** `success`: `create(True, data, message, **kwargs)`. */
  function Success(data: Option<Value>, message: Option<string>, kwargs: Obj, now: real): (r: Obj)
    requires FreeKwargs(kwargs)
    ensures "success" in r && r["success"] == Bool(true) && "error" !in r
    ensures data.Some? ==> "data" in r && r["data"] == data.value
  {
    CreateBodyKeys(true, data, message, None, now);
    Create(true, data, message, None, kwargs, now)
  }

  /**
   * `error`: `create(False, error=error, **kwargs)`, then `error_type` and
   * (when non-empty) `suggestions` are written over whatever the keyword
   * arguments put there. A `message` keyword binds to `create`'s parameter.
   */
  function Error(error: string, errorType: string, suggestions: Option<seq<string>>, message: Option<string>,
                 kwargs: Obj, now: real): (r: Obj)
    requires FreeKwargs(kwargs)
    ensures "success" in r && r["success"] == Bool(false)
    ensures "error" in r && r["error"] == Str(if error != "" then error else "Unknown error")
    ensures "error_type" in r && r["error_type"] == Str(errorType)
    ensures suggestions.Some? && |suggestions.value| > 0 ==>
      "suggestions" in r && r["suggestions"] == Responses.StrList(suggestions.value)
    ensures (suggestions.None? || |suggestions.value| == 0) && "suggestions" !in kwargs ==> "suggestions" !in r
    ensures "data" !in r
  {
    CreateBodyKeys(false, None, message, Some(error), now);
    var r := Create(false, None, message, Some(error), kwargs, now)["error_type" := Str(errorType)];
    if suggestions.Some? && |suggestions.value| > 0 then r["suggestions" := Responses.StrList(suggestions.value)] else r
  }

  /**
   * The `data` block of `paginated`; `total` and `total_pages` only when a
   * total is given, and then a zero page size divides by zero.
   */
  function PageData(items: seq<Value>, page: int, pageSize: int, total: Option<int>): (r: Result<Obj, string>)
    ensures r.Err? <==> total.Some? && pageSize == 0
    ensures r.Ok? ==> r.value.Keys == {"items", "page", "page_size", "count"} + (if total.Some? then {"total", "total_pages"} else {})
    ensures r.Ok? ==>
      r.value["items"] == List(items) && r.value["count"] == Int(|items|)
      && r.value["page"] == Int(page) && r.value["page_size"] == Int(pageSize)
    ensures r.Ok? && total.Some? ==> r.value["total"] == Int(total.value)
  {
    var d := map["items" := List(items), "page" := Int(page), "page_size" := Int(pageSize), "count" := Int(|items|)];
    if total.None? then Ok(d)
    else match Responses.FloorDiv(total.value + pageSize - 1, pageSize)
      case None => Err("ZeroDivisionError: integer division or modulo by zero")
      case Some(pages) => Ok(d["total" := Int(total.value)]["total_pages" := Int(pages)])
  }

  /** With a positive page size, `total_pages` pages of `page_size` hold the total, and one page fewer would not. */
  lemma PageDataCoversTotal(items: seq<Value>, page: int, pageSize: int, total: int)
    requires pageSize > 0
    ensures PageData(items, page, pageSize, Some(total)).Ok?
    ensures var p := PageData(items, page, pageSize, Some(total)).value["total_pages"];
      p.Int? && (p.i - 1) * pageSize < total <= p.i * pageSize
  {
    Responses.CeilDiv(total, pageSize);
  }

  /** `paginated`: a success response whose data is the page block. */
  function Paginated(items: seq<Value>, page: int, pageSize: int, total: Option<int>, message: Option<string>,
                     now: real): (r: Result<Obj, string>)
    ensures r.Err? <==> total.Some? && pageSize == 0
    ensures r.Ok? ==>
      "success" in r.value && r.value["success"] == Bool(true)
      && "data" in r.value && r.value["data"] == Dict(PageData(items, page, pageSize, total).value)
  {
    match PageData(items, page, pageSize, total)
    case Err(e) => Err(e)
    case Ok(d) => Ok(Success(Some(Dict(d)), message, map[], now))
  }

  /** The `data` block of `comparison_result`: `winner` and `metrics` only when truthy. */
  function ComparisonData(results: seq<Value>, winner: Option<string>, metrics: Option<Obj>): (d: Obj)
    ensures d.Keys == {"results"} + (if Given(winner) then {"winner"} else {})
      + (if GivenObj(metrics) then {"metrics"} else {})
    ensures d["results"] == List(results)
    ensures Given(winner) ==> d["winner"] == Str(winner.value)
    ensures GivenObj(metrics) ==> d["metrics"] == Dict(metrics.value)
  {
    var d0 := map["results" := List(results)];
    var d1 := if Given(winner) then d0["winner" := Str(winner.value)] else d0;
    if GivenObj(metrics) then d1["metrics" := Dict(metrics.value)] else d1
  }

  /** `comparison_result`: a success response carrying the comparison block, keyword arguments applied last. */
  function ComparisonResult(results: seq<Value>, winner: Option<string>, metrics: Option<Obj>,
                            message: Option<string>, kwargs: Obj, now: real): (r: Obj)
    requires FreeKwargs(kwargs)
    ensures "success" in r && r["success"] == Bool(true)
    ensures "data" in r && r["data"] == Dict(ComparisonData(results, winner, metrics))
  {
    Success(Some(Dict(ComparisonData(results, winner, metrics))), message, kwargs, now)
  }
}
