/**
 * The error classes of substrate/errors.py: a validation error carrying the
 * offending field and suggestions, and a not-found error that builds its
 * message from the kind and the identifier of the missing resource.
 */
module SubstrateErrors {
  import opened Common

  datatype SubstrateError =
    | Validation(message: string, field: Option<string>, suggestions: seq<string>)
    | NotFound(resourceType: string, resourceId: string, suggestions: seq<string>)

  /** `ValidationError(message, field, suggestions)`: missing suggestions become `[]`. */
  function NewValidation(message: string, field: Option<string>, suggestions: Option<seq<string>>): (e: SubstrateError)
    ensures e.Validation? && e.message == message && e.field == field
    ensures e.suggestions == (if suggestions.Some? then suggestions.value else [])
  {
    Validation(message, field, if suggestions.Some? then suggestions.value else [])
  }

  /**
   * Calling `NotFoundError(*args)` with at most two positional strings, the
   * forms this code base uses: the constructor needs both `resource_type` and
   * `resource_id`, so with fewer strings Python raises a TypeError before any
   * error object exists. The optional third parameter, `suggestions`, is not
   * passed in these calls and defaults to an empty list.
   */
  function NotFoundCall(args: seq<string>): (r: Result<SubstrateError, string>)
    requires |args| <= 2
    ensures r.Ok? <==> |args| == 2
    ensures r.Ok? ==> r.value == NotFound(args[0], args[1], [])
  {
    if |args| == 2 then Ok(NotFound(args[0], args[1], []))
    else Err("TypeError")
  }

  /** `str(error)`. */
  function Message(e: SubstrateError): (m: string)
    ensures e.NotFound? ==> StartsWith(m, e.resourceType) && EndsWith(m, "' not found")
  {
    match e
    case Validation(msg, _, _) => msg
    case NotFound(t, id, _) =>
      var m := t + " '" + id + "' not found";
      assert m[|m| - 11..] == "' not found";
      m
  }

  function StrList(xs: seq<string>): Value {
    List(seq(|xs|, i requires 0 <= i < |xs| => Str(xs[i])))
  }

  /** `to_dict()`: the message, plus the field and suggestions only when present; a not-found error always names its resource. */
  function ToDict(e: SubstrateError): (d: Obj)
    ensures "error" in d && d["error"] == Str(Message(e))
    ensures "suggestions" in d <==> |e.suggestions| > 0
    ensures |e.suggestions| > 0 ==> d["suggestions"] == StrList(e.suggestions)
    ensures e.Validation? ==> ("field" in d <==> Given(e.field)) && "resource_type" !in d && "resource_id" !in d
    ensures e.Validation? && Given(e.field) ==> d["field"] == Str(e.field.value)
    ensures e.NotFound? ==> "field" !in d
    ensures e.NotFound? ==>
      "resource_type" in d && d["resource_type"] == Str(e.resourceType) &&
      "resource_id" in d && d["resource_id"] == Str(e.resourceId)
    ensures d.Keys <= {"error", "field", "suggestions", "resource_type", "resource_id"}
  {
    var base := match e
      case Validation(msg, field, _) =>
        map["error" := Str(msg)] + (if Given(field) then map["field" := Str(field.value)] else map[])
      case NotFound(t, id, _) =>
        map["error" := Str(Message(e)), "resource_type" := Str(t), "resource_id" := Str(id)];
    if |e.suggestions| > 0 then base["suggestions" := StrList(e.suggestions)] else base
  }

  /** The not-found message names the resource kind and identifier in the fixed pattern `kind 'id' not found`. */
  lemma NotFoundMessageShape(t: string, id: string)
    ensures Message(NotFound(t, id, [])) == t + " '" + id + "' not found"
    ensures ToDict(NotFound(t, id, [])) ==
      map["error" := Str(t + " '" + id + "' not found"), "resource_type" := Str(t), "resource_id" := Str(id)]
  {
  }
}
