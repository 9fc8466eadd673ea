/**
 * The response builder of src/responses.py: every tool answer is a fresh
 * dictionary with `success`, `timestamp` and keys that appear only when their
 * argument is given (or truthy), with caller-supplied extra fields applied last.
 *
 * The timestamp (`time.time()`) is the parameter `now`; a float is a `real`.
 */
module Responses {
  import opened Common

  /** The annotations every formatted annotation starts from. */
  const DefaultAnnotations: Obj := map["priority" := Real(0.5), "audience" := List([Str("user"), Str("assistant")])]

  /** `{**base, **extra}`: `extra` wins on shared keys. */
  function Update(base: Obj, extra: Obj): (r: Obj)
    ensures forall k :: k in r <==> k in base || k in extra
    ensures forall k :: k in extra ==> r[k] == extra[k]
    ensures forall k :: k in base && k !in extra ==> r[k] == base[k]
  {
    base + extra
  }

  /** `_format_annotations`: a dictionary is laid over the defaults; anything else passes through. */
  function FormatAnnotations(annotation: Value): (r: Value)
    ensures annotation.Dict? ==> r.Dict? && r.entries.Keys == {"priority", "audience"} + annotation.entries.Keys
    ensures annotation.Dict? && "priority" !in annotation.entries ==> r.entries["priority"] == Real(0.5)
    ensures annotation.Dict? && "audience" !in annotation.entries ==>
      r.entries["audience"] == List([Str("user"), Str("assistant")])
    ensures annotation.Dict? ==> forall k :: k in annotation.entries ==> r.entries[k] == annotation.entries[k]
    ensures !annotation.Dict? ==> r == annotation
  {
    if annotation.Dict? then Dict(Update(DefaultAnnotations, annotation.entries)) else annotation
  }

  /** The part of a success response built from `data` and `message`. */
  function SuccessBody(data: Option<Value>, message: Option<string>, now: real): (r: Obj)
    ensures "success" in r && r["success"] == Bool(true)
    ensures "timestamp" in r && r["timestamp"] == Real(now)
    ensures data.Some? ==> "data" in r && r["data"] == data.value
    ensures Given(message) ==> "message" in r && r["message"] == Str(message.value)
  {
    var r0 := map["success" := Bool(true), "timestamp" := Real(now)];
    var r1 := if data.Some? then r0["data" := data.value] else r0;
    if Given(message) then r1["message" := Str(message.value)] else r1
  }

  /** `data` appears iff it is not None, `message` iff it is non-empty. */
  lemma SuccessBodyKeys(data: Option<Value>, message: Option<string>, now: real)
    ensures forall k :: k in SuccessBody(data, message, now) <==>
      (k == "success" || k == "timestamp" || (k == "data" && data.Some?) || (k == "message" && Given(message)))
  {
  }

  /** A success response before the extra fields: the body plus annotations and metadata when truthy. */
  function Annotated(data: Option<Value>, message: Option<string>, annotations: Value, metadata: Option<Obj>,
                     now: real): (r: Obj)
    ensures forall k :: k in SuccessBody(data, message, now) ==> k in r && r[k] == SuccessBody(data, message, now)[k]
    ensures Truthy(annotations) ==> "_annotations" in r && r["_annotations"] == FormatAnnotations(annotations)
    ensures GivenObj(metadata) ==> "_metadata" in r && r["_metadata"] == Dict(metadata.value)
  {
    var body := SuccessBody(data, message, now);
    SuccessBodyKeys(data, message, now);
    var r3 := if Truthy(annotations) then body["_annotations" := FormatAnnotations(annotations)] else body;
    if GivenObj(metadata) then r3["_metadata" := Dict(metadata.value)] else r3
  }

  /** Annotations and metadata appear exactly when truthy, beside the keys of the body. */
  lemma AnnotatedKeys(data: Option<Value>, message: Option<string>, annotations: Value, metadata: Option<Obj>,
                      now: real)
    ensures forall k :: k in Annotated(data, message, annotations, metadata, now) <==>
      (k in SuccessBody(data, message, now) || (k == "_annotations" && Truthy(annotations))
        || (k == "_metadata" && GivenObj(metadata)))
  {
  }

  /** `success`: the annotated body with the extra fields laid over it, so they may replace any key. */
  function Success(data: Option<Value>, message: Option<string>, annotations: Value, metadata: Option<Obj>,
                   extra: Obj, now: real): (r: Obj)
    ensures forall k :: k in r <==> k in extra || k in Annotated(data, message, annotations, metadata, now)
    ensures forall k :: k in extra ==> r[k] == extra[k]
    ensures forall k :: k !in extra && k in Annotated(data, message, annotations, metadata, now) ==>
      r[k] == Annotated(data, message, annotations, metadata, now)[k]
  {
    Update(Annotated(data, message, annotations, metadata, now), extra)
  }

  /** The part of an error response built from its arguments: `error_code`, `details` and `suggestions` only when truthy. */
  function ErrorBody(error: string, errorCode: Option<string>, details: Option<Obj>, suggestions: Option<seq<string>>,
                     now: real): (r: Obj)
    ensures "success" in r && r["success"] == Bool(false)
    ensures "error" in r && r["error"] == Str(error)
    ensures "timestamp" in r && r["timestamp"] == Real(now)
    ensures Given(errorCode) ==> "error_code" in r && r["error_code"] == Str(errorCode.value)
    ensures GivenObj(details) ==> "details" in r && r["details"] == Dict(details.value)
    ensures suggestions.Some? && |suggestions.value| > 0 ==>
      "suggestions" in r && r["suggestions"] == StrList(suggestions.value)
    ensures "error_code" in r <==> Given(errorCode)
    ensures "details" in r <==> GivenObj(details)
    ensures "suggestions" in r <==> suggestions.Some? && |suggestions.value| > 0
  {
    var r0 := map["success" := Bool(false), "error" := Str(error), "timestamp" := Real(now)];
    var r1 := if Given(errorCode) then r0["error_code" := Str(errorCode.value)] else r0;
    var r2 := if GivenObj(details) then r1["details" := Dict(details.value)] else r1;
    if suggestions.Some? && |suggestions.value| > 0 then r2["suggestions" := StrList(suggestions.value)] else r2
  }

  /** The optional keys of an error body appear exactly when their argument is truthy. */
  lemma ErrorBodyKeys(error: string, errorCode: Option<string>, details: Option<Obj>, suggestions: Option<seq<string>>,
                      now: real)
    ensures forall k :: k in ErrorBody(error, errorCode, details, suggestions, now) <==>
      (k == "success" || k == "error" || k == "timestamp"
        || (k == "error_code" && Given(errorCode)) || (k == "details" && GivenObj(details))
        || (k == "suggestions" && suggestions.Some? && |suggestions.value| > 0))
  {
  }

  /** `error`: the error body with the extra fields laid over it. */
  function Error(error: string, errorCode: Option<string>, details: Option<Obj>, suggestions: Option<seq<string>>,
                 extra: Obj, now: real): (r: Obj)
    ensures forall k :: k in r <==> k in extra || k in ErrorBody(error, errorCode, details, suggestions, now)
    ensures forall k :: k in extra ==> r[k] == extra[k]
    ensures forall k :: k !in extra && k in ErrorBody(error, errorCode, details, suggestions, now) ==>
      r[k] == ErrorBody(error, errorCode, details, suggestions, now)[k]
  {
    Update(ErrorBody(error, errorCode, details, suggestions, now), extra)
  }

  /** With no extra fields, `error` gives the error body unchanged. */
  lemma ErrorWithoutExtra(error: string, errorCode: Option<string>, details: Option<Obj>, suggestions: Option<seq<string>>,
                          now: real)
    ensures Error(error, errorCode, details, suggestions, map[], now) == ErrorBody(error, errorCode, details, suggestions, now)
  {
  }

  /** Unless an extra field overrides it, a success response says `success: True` and an error response `success: False`. */
  lemma SuccessFlag(data: Option<Value>, message: Option<string>, annotations: Value, metadata: Option<Obj>,
                    error: string, errorCode: Option<string>, details: Option<Obj>, suggestions: Option<seq<string>>,
                    extra: Obj, now: real)
    requires "success" !in extra
    ensures Success(data, message, annotations, metadata, extra, now)["success"] == Bool(true)
    ensures Error(error, errorCode, details, suggestions, extra, now)["success"] == Bool(false)
  {
  }


  /** A list of strings as a value. */
  function StrList(xs: seq<string>): (v: Value)
    ensures v.List? && |v.items| == |xs|
    ensures forall i :: 0 <= i < |xs| ==> v.items[i] == Str(xs[i])
  {
    List(seq(|xs|, i requires 0 <= i < |xs| => Str(xs[i])))
  }

  /** Python's `a // b` (rounds toward negative infinity); `None` for a zero divisor. */
  function FloorDiv(a: int, b: int): (q: Option<int>)
    ensures b == 0 <==> q.None?
    ensures b > 0 ==> q == Some(a / b) && b * q.value <= a < b * q.value + b
    ensures b < 0 ==> q.Some? && b * q.value >= a > b * q.value + b
  {
    if b == 0 then None
    else if b > 0 then Some(a / b)
    else Some((-a) / (-b))
  }

  /** The pagination block, or a division by zero for a zero page size. */
  function Pagination(count: nat, page: int, pageSize: int, total: Option<int>): (r: Result<Obj, string>)
    ensures pageSize == 0 <==> r.Err?
    ensures r.Ok? ==> r.value.Keys == {"page", "page_size", "total", "total_pages", "has_next", "has_prev"}
    ensures r.Ok? ==> r.value["total"] == Int(total.GetOr(count))
    ensures r.Ok? ==> r.value["has_prev"] == Bool(page > 1)
    ensures r.Ok? ==> exists pages :: r.value["total_pages"] == Int(pages) && r.value["has_next"] == Bool(page < pages)
  {
    var t := total.GetOr(count);
    match FloorDiv(t + pageSize - 1, pageSize)
    case None => Err("ZeroDivisionError: integer division or modulo by zero")
    case Some(pages) =>
      Ok(map["page" := Int(page), "page_size" := Int(pageSize), "total" := Int(t), "total_pages" := Int(pages),
             "has_next" := Bool(page < pages), "has_prev" := Bool(page > 1)])
  }

  /** With a positive page size the page count is the ceiling of total over size: the pages hold every item and no page is empty. */
  lemma PagesCoverTotal(count: nat, page: int, pageSize: int, total: Option<int>)
    requires pageSize > 0
    ensures Pagination(count, page, pageSize, total).Ok?
    ensures var p := Pagination(count, page, pageSize, total).value["total_pages"].i;
      var t := total.GetOr(count);
      (p - 1) * pageSize < t <= p * pageSize
  {
    CeilDiv(total.GetOr(count), pageSize);
  }

  lemma CeilDiv(t: int, b: int)
    requires b > 0
    ensures ((t + b - 1) / b - 1) * b < t <= ((t + b - 1) / b) * b
  {
    var a := t + b - 1;
    var q := a / b;
    var r := a % b;
    assert a == b * q + r && 0 <= r < b;
    assert (q - 1) * b == q * b - b;
    assert q * b == b * q;
  }

  /** On the last page there is no next page; on the first there is no previous one. */
  lemma LastPageHasNoNext(count: nat, pageSize: int, total: Option<int>)
    requires pageSize > 0
    ensures var r := Pagination(count, 1, pageSize, total).value; r["has_prev"] == Bool(false)
    ensures var pages := Pagination(count, 1, pageSize, total).value["total_pages"].i;
      Pagination(count, pages, pageSize, total).value["has_next"] == Bool(false)
  {
  }

  /** `paginated`: `total` defaults to the number of items on the page. */
  function Paginated(items: seq<Value>, page: int, pageSize: int, total: Option<int>, message: Option<string>,
                     now: real): (r: Result<Obj, string>)
    ensures pageSize == 0 <==> r.Err?
    ensures r.Ok? ==> "data" in r.value && r.value["data"] == Dict(map["items" := List(items),
      "pagination" := Dict(Pagination(|items|, page, pageSize, total).value)])
  {
    match Pagination(|items|, page, pageSize, total)
    case Err(e) => Err(e)
    case Ok(p) =>
      Ok(Success(Some(Dict(map["items" := List(items), "pagination" := Dict(p)])), message, Null, None, map[], now))
  }

  /** A file's content: text, or bytes with the text `decode("utf-8", errors="replace")` makes of them. */
  datatype FileContent = Text(text: string) | Binary(bytes: seq<int>, decoded: string)

  /** The `data` block of `file_response`: the size is the length of what was passed, binary content is flagged. */
  function FileData(content: FileContent, filename: string, mimeType: string, encoding: Option<string>): (d: Obj)
    ensures "size" in d && d["size"] == Int(if content.Text? then |content.text| else |content.bytes|)
    ensures "content" in d && d["content"] == Str(if content.Text? then content.text else content.decoded)
    ensures "filename" in d && d["filename"] == Str(filename)
    ensures "mime_type" in d && d["mime_type"] == Str(mimeType)
    ensures content.Binary? ==> "is_binary" in d && d["is_binary"] == Bool(true)
    ensures Given(encoding) ==> "encoding" in d && d["encoding"] == Str(encoding.value)
  {
    var d0 := map["filename" := Str(filename), "mime_type" := Str(mimeType),
                  "size" := Int(if content.Text? then |content.text| else |content.bytes|)];
    var d1 := if Given(encoding) then d0["encoding" := Str(encoding.value)] else d0;
    match content
    case Binary(_, decoded) => d1["is_binary" := Bool(true)]["content" := Str(decoded)]
    case Text(t) => d1["content" := Str(t)]
  }

  /** `encoding` appears only when given and `is_binary` only for bytes. */
  lemma FileDataKeys(content: FileContent, filename: string, mimeType: string, encoding: Option<string>)
    ensures forall k :: k in FileData(content, filename, mimeType, encoding) <==>
      (k == "filename" || k == "mime_type" || k == "size" || k == "content"
        || (k == "encoding" && Given(encoding)) || (k == "is_binary" && content.Binary?))
  {
  }

  /** `file_response`: a success response carrying the file block. */
  function FileResponse(content: FileContent, filename: string, mimeType: string, encoding: Option<string>,
                        message: Option<string>, now: real): (r: Obj)
    ensures "data" in r && r["data"] == Dict(FileData(content, filename, mimeType, encoding))
  {
    Success(Some(Dict(FileData(content, filename, mimeType, encoding))), message, Null, None, map[], now)
  }

  /** The `data` block of `comparison_result`: the results, their count, and `winner`/`metrics` only when truthy. */
  function ComparisonData(results: seq<Value>, winner: Option<string>, metrics: Option<Obj>): (d: Obj)
    ensures "results" in d && d["results"] == List(results)
    ensures "comparison_count" in d && d["comparison_count"] == Int(|results|)
    ensures Given(winner) ==> "winner" in d && d["winner"] == Str(winner.value)
    ensures GivenObj(metrics) ==> "metrics" in d && d["metrics"] == Dict(metrics.value)
  {
    var d0 := map["results" := List(results), "comparison_count" := Int(|results|)];
    var d1 := if Given(winner) then d0["winner" := Str(winner.value)] else d0;
    if GivenObj(metrics) then d1["metrics" := Dict(metrics.value)] else d1
  }

  /** `winner` and `metrics` appear exactly when truthy. */
  lemma ComparisonDataKeys(results: seq<Value>, winner: Option<string>, metrics: Option<Obj>)
    ensures forall k :: k in ComparisonData(results, winner, metrics) <==>
      (k == "results" || k == "comparison_count" || (k == "winner" && Given(winner))
        || (k == "metrics" && GivenObj(metrics)))
  {
  }

  /** `comparison_result`: a success response carrying the comparison block. */
  function ComparisonResult(results: seq<Value>, winner: Option<string>, metrics: Option<Obj>,
                            message: Option<string>, now: real): (r: Obj)
    ensures "data" in r && r["data"] == Dict(ComparisonData(results, winner, metrics))
  {
    Success(Some(Dict(ComparisonData(results, winner, metrics))), message, Null, None, map[], now)
  }

  /** `max(0.0, min(1.0, progress))`. */
  function Clamp01(progress: real): (v: real)
    ensures 0.0 <= v <= 1.0
    ensures 0.0 <= progress <= 1.0 ==> v == progress
    ensures progress < 0.0 ==> v == 0.0
    ensures progress > 1.0 ==> v == 1.0
  {
    if progress > 1.0 then 1.0 else if progress < 0.0 then 0.0 else progress
  }

  /** A response dictionary that a caller holds and `with_progress` updates in place. */
  class MutableResponse {
    var fields: Obj

    constructor(fields: Obj)
      ensures this.fields == fields
    {
      this.fields := fields;
    }
  }

  /** `with_progress`: set `_progress` on the given response and hand the same object back. */
  method WithProgress(response: MutableResponse, progress: real, status: string, now: real) returns (r: MutableResponse)
    modifies response
    ensures r == response
    ensures response.fields == old(response.fields)["_progress" := Dict(map[
      "value" := Real(Clamp01(progress)), "status" := Str(status), "timestamp" := Real(now)])]
    ensures response.fields.Keys == old(response.fields).Keys + {"_progress"}
  {
    response.fields := response.fields["_progress" := Dict(map[
      "value" := Real(Clamp01(progress)), "status" := Str(status), "timestamp" := Real(now)])];
    r := response;
  }
}
