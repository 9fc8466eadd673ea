/**
 * The error classes of shared/errors.py. Its not-found error takes a free message
 * and, optionally, the kind and identifier of the missing resource; when both are
 * given they replace the message.
 */
module SharedErrors {
  import opened Common
  import SubstrateErrors

  datatype SharedError =
    | Validation(message: string, field: Option<string>, suggestions: seq<string>)
    | NotFound(message: string, resourceType: Option<string>, resourceId: Option<string>, suggestions: seq<string>)

  /** `NotFoundError(message, resource_type, resource_id, suggestions)`. */
  function NewNotFound(message: string, resourceType: Option<string>, resourceId: Option<string>, suggestions: Option<seq<string>>): (e: SharedError)
    ensures e.NotFound? && e.resourceType == resourceType && e.resourceId == resourceId
    ensures Given(resourceType) && Given(resourceId) ==>
      e.message == resourceType.value + " '" + resourceId.value + "' not found"
    ensures !(Given(resourceType) && Given(resourceId)) ==> e.message == message
    ensures e.suggestions == (if suggestions.Some? then suggestions.value else [])
  {
    var msg := if Given(resourceType) && Given(resourceId)
      then resourceType.value + " '" + resourceId.value + "' not found" else message;
    NotFound(msg, resourceType, resourceId, if suggestions.Some? then suggestions.value else [])
  }

  function StrList(xs: seq<string>): Value {
    List(seq(|xs|, i requires 0 <= i < |xs| => Str(xs[i])))
  }

  /** `to_dict()`: the message, and each optional part only when it is non-empty. */
  function ToDict(e: SharedError): (d: Obj)
    ensures "error" in d && d["error"] == Str(e.message)
    ensures "suggestions" in d <==> |e.suggestions| > 0
    ensures "suggestions" in d ==> d["suggestions"] == StrList(e.suggestions)
    ensures e.Validation? ==> d.Keys <= {"error", "field", "suggestions"}
    ensures e.Validation? ==> ("field" in d <==> Given(e.field)) && ("field" in d ==> d["field"] == Str(e.field.value))
    ensures e.NotFound? ==> d.Keys <= {"error", "resource_type", "resource_id", "suggestions"}
    ensures e.NotFound? ==>
      ("resource_type" in d <==> Given(e.resourceType)) && ("resource_id" in d <==> Given(e.resourceId)) &&
      ("resource_type" in d ==> d["resource_type"] == Str(e.resourceType.value)) &&
      ("resource_id" in d ==> d["resource_id"] == Str(e.resourceId.value))
  {
    var base := match e
      case Validation(msg, field, _) =>
        map["error" := Str(msg)] + (if Given(field) then map["field" := Str(field.value)] else map[])
      case NotFound(msg, t, id, _) =>
        map["error" := Str(msg)]
          + (if Given(t) then map["resource_type" := Str(t.value)] else map[])
          + (if Given(id) then map["resource_id" := Str(id.value)] else map[]);
    if |e.suggestions| > 0 then base["suggestions" := StrList(e.suggestions)] else base
  }

  /**
   * Given a kind and an identifier, the shared not-found error says and serialises
   * exactly what the substrate one does, whatever message it was handed.
   */
  lemma {:induction false} AgreesWithSubstrateNotFound(message: string, t: string, id: string)
    requires |t| > 0 && |id| > 0
    ensures NewNotFound(message, Some(t), Some(id), None).message == SubstrateErrors.Message(SubstrateErrors.NotFound(t, id, []))
    ensures ToDict(NewNotFound(message, Some(t), Some(id), None)) == SubstrateErrors.ToDict(SubstrateErrors.NotFound(t, id, []))
  {
    SubstrateErrors.NotFoundMessageShape(t, id);
    var d := ToDict(NewNotFound(message, Some(t), Some(id), None));
    assert d == map["error" := Str(t + " '" + id + "' not found"), "resource_type" := Str(t), "resource_id" := Str(id)];
  }
}
