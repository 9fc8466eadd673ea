/**
 * The exception hierarchy of src/errors.py and its conversion into error
 * responses: every `SubstrateError` carries a code, a details dictionary and
 * suggestions, which the subclasses fill in from their own arguments before
 * the base constructor replaces missing ones by empty values.
 *
 * The subclasses reach into their keyword arguments with
 * `kwargs.setdefault(...)`, so a `details` or `suggestions` keyword given
 * explicitly as `None` makes them fail; the models return that failure.
 */
module Errors {
  import opened Common
  import Responses

  /** A keyword argument: not given, given as `None`, or given with a value. */
  datatype Kwarg<T> = Absent | PassedNone | Passed(value: T)

  /** The keyword arguments a subclass forwards to `SubstrateError`. */
  datatype Kwargs = Kwargs(details: Kwarg<Obj>, suggestions: Kwarg<seq<string>>)

  /** A `SubstrateError`: the class name, `str(error)`, and the three attributes the base constructor sets. */
  datatype SubstrateError = SubstrateError(
    kind: string,
    message: string,
    code: Option<string>,
    details: Obj,
    suggestions: seq<string>)

  /** The failure of `None[...] = ...` on an explicit `None` keyword. */
  const NoneItem := "TypeError: 'NoneType' object does not support item assignment"

  /** The failure of `None.update(...)`, `None.append(...)` or `None.extend(...)` on an explicit `None` keyword. */
  const NoneAttr := "AttributeError: 'NoneType' object has no attribute"

  /** `SubstrateError.__init__`: `details or {}` and `suggestions or []`. */
  function Base(kind: string, message: string, code: Option<string>, kwargs: Kwargs): (e: SubstrateError)
    ensures e.kind == kind && e.message == message && e.code == code
    ensures e.details == (if kwargs.details.Passed? then kwargs.details.value else map[])
    ensures e.suggestions == (if kwargs.suggestions.Passed? then kwargs.suggestions.value else [])
  {
    SubstrateError(kind, message, code,
                   if kwargs.details.Passed? then kwargs.details.value else map[],
                   if kwargs.suggestions.Passed? then kwargs.suggestions.value else [])
  }

  /**
   * `kwargs.setdefault("details", {})` followed by item assignments (`byItem`)
   * or by `.update(extra)`: the given dictionary, or a new one, with `extra`
   * laid over it.
   */
  function SetDetails(kwargs: Kwargs, extra: Obj, byItem: bool): (r: Result<Kwargs, string>)
    ensures r.Err? <==> kwargs.details.PassedNone?
    ensures r.Err? ==> r.error == if byItem then NoneItem else NoneAttr
    ensures r.Ok? ==> r.value.suggestions == kwargs.suggestions && r.value.details.Passed?
    ensures r.Ok? ==> r.value.details.value.Keys == extra.Keys + (if kwargs.details.Passed? then kwargs.details.value.Keys else {})
    ensures r.Ok? ==> forall k :: k in extra ==> r.value.details.value[k] == extra[k]
    ensures r.Ok? && kwargs.details.Passed? ==>
      forall k :: k in kwargs.details.value && k !in extra ==> r.value.details.value[k] == kwargs.details.value[k]
  {
    match kwargs.details
    case PassedNone => Err(if byItem then NoneItem else NoneAttr)
    case Absent => Ok(kwargs.(details := Passed(extra)))
    case Passed(d) => Ok(kwargs.(details := Passed(d + extra)))
  }

  /** `kwargs.setdefault("suggestions", []).extend(more)`. */
  function AddSuggestions(kwargs: Kwargs, more: seq<string>): (r: Result<Kwargs, string>)
    ensures r.Err? <==> kwargs.suggestions.PassedNone?
    ensures r.Err? ==> r.error == NoneAttr
    ensures r.Ok? ==> r.value.details == kwargs.details
    ensures r.Ok? ==>
      r.value.suggestions ==
      Passed((if kwargs.suggestions.Passed? then kwargs.suggestions.value else []) + more)
  {
    match kwargs.suggestions
    case PassedNone => Err(NoneAttr)
    case Absent =>
      assert [] + more == more;
      Ok(kwargs.(suggestions := Passed(more)))
    case Passed(s) => Ok(kwargs.(suggestions := Passed(s + more)))
  }

  /** `ValidationError(message, field)`: code `VALIDATION_ERROR`; `details.field` is set only for a non-empty field. */
  function Validation(message: string, field: Option<string>, kwargs: Kwargs): (r: Result<SubstrateError, string>)
    ensures r.Err? <==> Given(field) && kwargs.details.PassedNone?
    ensures r.Ok? ==>
      r.value.kind == "ValidationError" && r.value.message == message
      && r.value.code == Some("VALIDATION_ERROR")
    ensures r.Ok? && Given(field) ==> "field" in r.value.details && r.value.details["field"] == Str(field.value)
    ensures r.Ok? && !Given(field) ==> r.value.details == Base("", "", None, kwargs).details
  {
    if Given(field) then
      match SetDetails(kwargs, map["field" := Str(field.value)], true)
      case Err(e) => Err(e)
      case Ok(kw) => Ok(Base("ValidationError", message, Some("VALIDATION_ERROR"), kw))
    else Ok(Base("ValidationError", message, Some("VALIDATION_ERROR"), kwargs))
  }

  /** `NotFoundError(resource_type, resource_id)`: the message names both, and so do the details. */
  function NotFound(resourceType: string, resourceId: string, kwargs: Kwargs): (r: Result<SubstrateError, string>)
    ensures r.Err? <==> kwargs.details.PassedNone?
    ensures r.Ok? ==>
      r.value.kind == "NotFoundError" && r.value.code == Some("NOT_FOUND")
      && r.value.message == resourceType + " '" + resourceId + "' not found"
    ensures r.Ok? ==>
      "resource_type" in r.value.details && r.value.details["resource_type"] == Str(resourceType)
      && "resource_id" in r.value.details && r.value.details["resource_id"] == Str(resourceId)
  {
    match SetDetails(kwargs, map["resource_type" := Str(resourceType), "resource_id" := Str(resourceId)], false)
    case Err(e) => Err(e)
    case Ok(kw) => Ok(Base("NotFoundError", resourceType + " '" + resourceId + "' not found", Some("NOT_FOUND"), kw))
  }

  /** `PermissionError(action, resource)`: the resource appears in the message and the details only when non-empty. */
  function Permission(action: string, resource: Option<string>, kwargs: Kwargs): (r: Result<SubstrateError, string>)
    ensures r.Err? <==> kwargs.details.PassedNone?
    ensures r.Ok? ==> r.value.kind == "PermissionError" && r.value.code == Some("PERMISSION_DENIED")
    ensures r.Ok? ==>
      r.value.message == "Permission denied for action: " + action
      + (if Given(resource) then " on resource: " + resource.value else "")
    ensures r.Ok? ==> "action" in r.value.details && r.value.details["action"] == Str(action)
    ensures r.Ok? && Given(resource) ==> "resource" in r.value.details && r.value.details["resource"] == Str(resource.value)
    ensures r.Ok? && !Given(resource) && (kwargs.details.Absent? || "resource" !in kwargs.details.value) ==>
      "resource" !in r.value.details
  {
    var message := "Permission denied for action: " + action
      + (if Given(resource) then " on resource: " + resource.value else "");
    var extra := if Given(resource) then map["resource" := Str(resource.value), "action" := Str(action)]
                 else map["action" := Str(action)];
    match SetDetails(kwargs, extra, true)
    case Err(e) => Err(e)
    case Ok(kw) => Ok(Base("PermissionError", message, Some("PERMISSION_DENIED"), kw))
  }

  /** The suggestion a rate-limit error adds when it knows how long to wait. */
  function WaitSuggestion(retryAfter: int): string {
    "Please wait " + IntToString(retryAfter) + " seconds before retrying"
  }

  /**
   * `RateLimitError(limit, window, retry_after)`: the wait time goes into the
   * details and a suggestion only when it is non-zero.
   */
  function RateLimit(limit: int, window: string, retryAfter: Option<int>, kwargs: Kwargs): (r: Result<SubstrateError, string>)
    ensures r.Err? <==>
      kwargs.details.PassedNone?
      || (retryAfter.Some? && retryAfter.value != 0 && kwargs.suggestions.PassedNone?)
    ensures r.Ok? ==>
      r.value.kind == "RateLimitError" && r.value.code == Some("RATE_LIMIT_EXCEEDED")
      && r.value.message == "Rate limit exceeded: " + IntToString(limit) + " requests per " + window
    ensures r.Ok? ==>
      "limit" in r.value.details && r.value.details["limit"] == Int(limit)
      && "window" in r.value.details && r.value.details["window"] == Str(window)
    ensures r.Ok? && retryAfter.Some? && retryAfter.value != 0 ==>
      "retry_after_seconds" in r.value.details && r.value.details["retry_after_seconds"] == Int(retryAfter.value)
      && |r.value.suggestions| > 0 && r.value.suggestions[|r.value.suggestions| - 1] == WaitSuggestion(retryAfter.value)
    ensures r.Ok? && (retryAfter.None? || retryAfter.value == 0) ==>
      r.value.suggestions == Base("", "", None, kwargs).suggestions
  {
    var message := "Rate limit exceeded: " + IntToString(limit) + " requests per " + window;
    var waits := retryAfter.Some? && retryAfter.value != 0;
    var details := if waits
      then map["limit" := Int(limit), "window" := Str(window), "retry_after_seconds" := Int(retryAfter.value)]
      else map["limit" := Int(limit), "window" := Str(window)];
    var withWait := if waits then AddSuggestions(kwargs, [WaitSuggestion(retryAfter.value)]) else Ok(kwargs);
    match withWait
    case Err(e) => Err(e)
    case Ok(kw) =>
      match SetDetails(kw, details, false)
      case Err(e) => Err(e)
      case Ok(kw') => Ok(Base("RateLimitError", message, Some("RATE_LIMIT_EXCEEDED"), kw'))
  }

  /** The three suggestions every timeout error ends with. */
  const TimeoutSuggestions: seq<string> := [
    "Try breaking the operation into smaller chunks",
    "Increase the timeout if possible",
    "Check if the service is responding slowly"]

  /**
   * `TimeoutError(operation, timeout_seconds)`; `shown` is `str(timeout_seconds)`,
   * the float's text, which the message embeds.
   */
  function Timeout(operation: string, timeoutSeconds: real, shown: string, kwargs: Kwargs): (r: Result<SubstrateError, string>)
    ensures r.Err? <==> kwargs.details.PassedNone? || kwargs.suggestions.PassedNone?
    ensures r.Ok? ==>
      r.value.kind == "TimeoutError" && r.value.code == Some("TIMEOUT")
      && r.value.message == "Operation '" + operation + "' timed out after " + shown + "s"
    ensures r.Ok? ==>
      "operation" in r.value.details && r.value.details["operation"] == Str(operation)
      && "timeout_seconds" in r.value.details && r.value.details["timeout_seconds"] == Real(timeoutSeconds)
    ensures r.Ok? ==> r.value.suggestions == Base("", "", None, kwargs).suggestions + TimeoutSuggestions
  {
    match SetDetails(kwargs, map["operation" := Str(operation), "timeout_seconds" := Real(timeoutSeconds)], false)
    case Err(e) => Err(e)
    case Ok(kw) =>
      match AddSuggestions(kw, TimeoutSuggestions)
      case Err(e) => Err(e)
      case Ok(kw') =>
        Ok(Base("TimeoutError", "Operation '" + operation + "' timed out after " + shown + "s", Some("TIMEOUT"), kw'))
  }

  /** `ExternalServiceError(service, original_error)`: the original error appears only when non-empty. */
  function ExternalService(service: string, originalError: Option<string>, kwargs: Kwargs): (r: Result<SubstrateError, string>)
    ensures r.Err? <==> kwargs.details.PassedNone?
    ensures r.Ok? ==>
      r.value.kind == "ExternalServiceError" && r.value.code == Some("EXTERNAL_SERVICE_ERROR")
      && r.value.message == "External service '" + service + "' error"
         + (if Given(originalError) then ": " + originalError.value else "")
    ensures r.Ok? ==> "service" in r.value.details && r.value.details["service"] == Str(service)
    ensures r.Ok? && Given(originalError) ==>
      "original_error" in r.value.details && r.value.details["original_error"] == Str(originalError.value)
  {
    var message := "External service '" + service + "' error"
      + (if Given(originalError) then ": " + originalError.value else "");
    var extra := if Given(originalError) then map["original_error" := Str(originalError.value), "service" := Str(service)]
                 else map["service" := Str(service)];
    match SetDetails(kwargs, extra, true)
    case Err(e) => Err(e)
    case Ok(kw) => Ok(Base("ExternalServiceError", message, Some("EXTERNAL_SERVICE_ERROR"), kw))
  }

  // ---------------------------------------------------------------------------
  // format_error_response and handle_errors
  // ---------------------------------------------------------------------------

  /** A raised exception: one of ours, or any other with its class name, message and the names of its classes. */
  datatype Exception =
    | Ours(e: SubstrateError)
    | Foreign(typeName: string, text: string, classes: set<string>)

  /** The class names `isinstance` accepts for an exception. */
  function Classes(x: Exception): (cs: set<string>)
    ensures x.Ours? ==> x.e.kind in cs && "SubstrateError" in cs && "Exception" in cs
    ensures x.Foreign? ==> x.typeName in cs && x.classes <= cs
  {
    match x
    case Ours(e) => {e.kind, "SubstrateError", "Exception"}
    case Foreign(t, _, cs) => cs + {t}
  }

  /** The suggestions given to an unexpected error when the caller gives none. */
  const DefaultSuggestions: seq<string> := [
    "This is an unexpected error. Please try again.",
    "If the problem persists, please report it."]

  /** The details of an unexpected error: its type, and the traceback when one is wanted. */
  function ForeignDetails(t: string, withTrace: bool, trace: string): (d: Obj)
    ensures d.Keys == {"error_type"} + (if withTrace then {"traceback"} else {})
    ensures d["error_type"] == Str(t)
    ensures withTrace ==> d["traceback"] == Str(trace)
  {
    if withTrace then map["error_type" := Str(t), "traceback" := Str(trace)] else map["error_type" := Str(t)]
  }

  /**
   * `format_error_response`. Our errors keep their code and details, with the
   * extra suggestions appended to their own. Any other exception becomes an
   * `INTERNAL_ERROR` naming its type, with a traceback (the text `trace`)
   * when asked for or when debug logging (`debug`) is on.
   */
  function FormatErrorResponse(x: Exception, includeTraceback: bool, suggestions: Option<seq<string>>,
                               debug: bool, trace: string, now: real): (r: Obj)
    ensures "success" in r && r["success"] == Bool(false)
    ensures x.Ours? ==> "error" in r && r["error"] == Str(x.e.message)
    ensures x.Ours? && x.e.code.Some? && x.e.code.value != "" ==> "error_code" in r && r["error_code"] == Str(x.e.code.value)
    ensures x.Foreign? ==>
      "error" in r && r["error"] == Str(x.text)
      && "error_code" in r && r["error_code"] == Str("INTERNAL_ERROR")
    ensures x.Foreign? ==>
      "details" in r && r["details"] == Dict(ForeignDetails(x.typeName, includeTraceback || debug, trace))
    ensures x.Ours? && suggestions.Some? && |suggestions.value| > 0 ==>
      "suggestions" in r && r["suggestions"] == Responses.StrList(x.e.suggestions + suggestions.value)
    ensures x.Ours? && |x.e.details| > 0 ==> "details" in r && r["details"] == Dict(x.e.details)
    ensures x.Foreign? && (suggestions.None? || |suggestions.value| == 0) ==>
      "suggestions" in r && r["suggestions"] == Responses.StrList(DefaultSuggestions)
    ensures x.Foreign? && suggestions.Some? && |suggestions.value| > 0 ==>
      "suggestions" in r && r["suggestions"] == Responses.StrList(suggestions.value)
    ensures x.Ours? && (suggestions.None? || |suggestions.value| == 0) && |x.e.suggestions| > 0 ==>
      "suggestions" in r && r["suggestions"] == Responses.StrList(x.e.suggestions)
    ensures x.Ours? ==>
      ("error_code" in r <==> x.e.code.Some? && x.e.code.value != "")
      && ("details" in r <==> |x.e.details| > 0)
      && ("suggestions" in r <==> |x.e.suggestions| > 0 || (suggestions.Some? && |suggestions.value| > 0))
  {
    match x
    case Ours(e) =>
      var all := if suggestions.Some? && |suggestions.value| > 0 then e.suggestions + suggestions.value else e.suggestions;
      Responses.ErrorWithoutExtra(e.message, e.code, Some(e.details), Some(all), now);
      Responses.Error(e.message, e.code, Some(e.details), Some(all), map[], now)
    case Foreign(t, text, _) =>
      var details := ForeignDetails(t, includeTraceback || debug, trace);
      var given := if suggestions.Some? && |suggestions.value| > 0 then suggestions.value else DefaultSuggestions;
      Responses.ErrorWithoutExtra(text, Some("INTERNAL_ERROR"), Some(details), Some(given), now);
      Responses.Error(text, Some("INTERNAL_ERROR"), Some(details), Some(given), map[], now)
  }

  /** A custom handler of `handle_errors`: the class it handles and the response it gives for the exception at hand. */
  datatype Handler = Handler(errorType: string, response: Obj)

  /** The position of the first handler whose class the exception is an instance of. */
  function FirstMatch(handlers: seq<Handler>, x: Exception): (i: Option<nat>)
    ensures i.None? <==> forall j :: 0 <= j < |handlers| ==> handlers[j].errorType !in Classes(x)
    ensures i.Some? ==>
      i.value < |handlers| && handlers[i.value].errorType in Classes(x)
      && forall j :: 0 <= j < i.value ==> handlers[j].errorType !in Classes(x)
  {
    if |handlers| == 0 then None
    else if handlers[0].errorType in Classes(x) then Some(0)
    else match FirstMatch(handlers[1..], x)
      case None => None
      case Some(j) => Some(j + 1)
  }

  /**
   * The `except` branch of `handle_errors`: the first handler for a class of
   * the exception answers; without one the exception is formatted.
   */
  method HandleErrors(handlers: seq<Handler>, x: Exception, debug: bool, trace: string, now: real) returns (r: Obj)
    ensures FirstMatch(handlers, x).Some? ==> r == handlers[FirstMatch(handlers, x).value].response
    ensures FirstMatch(handlers, x).None? ==> r == FormatErrorResponse(x, false, None, debug, trace, now)
  {
    var i := 0;
    while i < |handlers|
      invariant 0 <= i <= |handlers|
      invariant forall j :: 0 <= j < i ==> handlers[j].errorType !in Classes(x)
    {
      if handlers[i].errorType in Classes(x) {
        return handlers[i].response;
      }
      i := i + 1;
    }
    return FormatErrorResponse(x, false, None, debug, trace, now);
  }
}
