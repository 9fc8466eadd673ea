/**
 * The simpler sampling manager of components.py: one map from request id to a
 * stored dictionary holding the prompt, the context, the creation time and any
 * extra keyword arguments.
 *
 * Time is a real number of seconds passed in by the caller, as is the fresh
 * request id.
 */
module ComponentsSampling {
  import opened Common

  /** Python's arithmetic view of a stored value: `bool`, `int` and `float` subtract; anything else raises `TypeError`. */
  function Number(v: Value): (n: Option<real>)
    ensures n.Some? <==> v.Bool? || v.Int? || v.Real?
  {
    match v
    case Bool(b) => Some(if b then 1.0 else 0.0)
    case Int(i) => Some(i as real)
    case Real(r) => Some(r)
    case _ => None
  }

  /** `should_request_sampling`: membership in a fixed list of three contexts. */
  function ShouldRequestSampling(context: string): (b: bool)
    ensures b <==> (context == "help" || context == "constraints" || context == "clarification")
  {
    context in ["help", "constraints", "clarification"]
  }

  /** The dictionary stored for a request: the keyword arguments are spread last and override the three fixed keys. */
  function Stored(prompt: string, context: Option<string>, now: real, kwargs: Obj): (d: Obj)
    ensures d.Keys == {"prompt", "context", "created_at"} + kwargs.Keys
    ensures forall k :: k in kwargs ==> d[k] == kwargs[k]
    ensures "created_at" !in kwargs ==> d["created_at"] == Real(now)
    ensures "prompt" !in kwargs ==> d["prompt"] == Str(prompt)
  {
    map["prompt" := Str(prompt),
        "context" := (if context.Some? then Str(context.value) else Null),
        "created_at" := Real(now)] + kwargs
  }

  /** The ids whose age exceeds `maxAge`, when every stored creation time is a number. */
  function Stale(pending: map<string, Obj>, maxAge: real, now: real): (r: Option<set<string>>)
    requires forall id :: id in pending ==> "created_at" in pending[id]
    ensures r.Some? <==> forall id :: id in pending ==> Number(pending[id]["created_at"]).Some?
    ensures r.Some? ==> forall id :: id in r.value <==>
      id in pending && now - Number(pending[id]["created_at"]).value > maxAge
  {
    if forall id :: id in pending ==> Number(pending[id]["created_at"]).Some? then
      Some(set id | id in pending && now - Number(pending[id]["created_at"]).value > maxAge)
    else None
  }

  /** A wider age limit never removes more. */
  lemma StaleShrinksWithAge(pending: map<string, Obj>, tight: real, loose: real, now: real)
    requires forall id :: id in pending ==> "created_at" in pending[id]
    requires tight <= loose
    ensures Stale(pending, loose, now).Some? <==> Stale(pending, tight, now).Some?
    ensures Stale(pending, loose, now).Some? ==> Stale(pending, loose, now).value <= Stale(pending, tight, now).value
  {
  }

  /** The first loop of `cleanup_old_requests`: the ids to expire, or `None` when a creation time is not a number. */
  method CollectStale(pending: map<string, Obj>, maxAge: real, now: real) returns (r: Option<set<string>>)
    requires forall id :: id in pending ==> "created_at" in pending[id]
    ensures r == Stale(pending, maxAge, now)
  {
    var todo := pending.Keys;
    var expired: set<string> := {};
    while todo != {}
      invariant todo <= pending.Keys
      invariant forall id :: id in pending && id !in todo ==> Number(pending[id]["created_at"]).Some?
      invariant forall id :: id in expired <==>
        id in pending && id !in todo && now - Number(pending[id]["created_at"]).value > maxAge
      decreases |todo|
    {
      var id :| id in todo;
      var created := Number(pending[id]["created_at"]);
      if created.None? {
        return None;
      }
      if now - created.value > maxAge {
        expired := expired + {id};
      }
      todo := todo - {id};
    }
    assert Stale(pending, maxAge, now).Some?;
    assert expired == Stale(pending, maxAge, now).value;
    return Some(expired);
  }

  /** The second loop: pop each collected id. */
  method RemoveAll<V>(m: map<string, V>, ids: set<string>) returns (r: map<string, V>)
    ensures r == m - ids
  {
    r := m;
    var rest := ids;
    var removed: set<string> := {};
    while rest != {}
      invariant rest !! removed && rest + removed == ids
      invariant r == m - removed
      decreases |rest|
    {
      var id :| id in rest;
      r := r - {id};
      rest := rest - {id};
      removed := removed + {id};
    }
  }

  class SamplingManager {
    var pending: map<string, Obj>

    /** Every stored request carries a creation time: it is written first and keyword arguments can only replace it. */
    ghost predicate Valid()
      reads this
    {
      forall id :: id in pending ==> "created_at" in pending[id]
    }

    constructor()
      ensures Valid() && pending == map[]
    {
      pending := map[];
    }

    /**
     * `create_request`: store the request under `requestId` and return the
     * dictionary to inject, which carries `context` only when it is non-empty.
     */
    method CreateRequest(prompt: string, context: Option<string>, kwargs: Obj, requestId: string, now: real)
      returns (r: Obj)
      requires Valid()
      modifies this
      ensures Valid()
      ensures pending == old(pending)[requestId := Stored(prompt, context, now, kwargs)]
      ensures r.Keys == {"id", "prompt", "instruction"} + (if Given(context) then {"context"} else {})
      ensures r["id"] == Str(requestId) && r["prompt"] == Str(prompt)
      ensures r["instruction"] == Str("Please process and respond with request_id='" + requestId + "'")
      ensures Given(context) ==> r["context"] == Str(context.value)
    {
      r := map["id" := Str(requestId), "prompt" := Str(prompt),
               "instruction" := Str("Please process and respond with request_id='" + requestId + "'")];
      if Given(context) {
        r := r["context" := Str(context.value)];
      }
      pending := pending[requestId := Stored(prompt, context, now, kwargs)];
    }

    /**
     * `handle_callback`: an unknown id is reported and changes nothing. A known
     * id is removed first; the processing time is then computed from the stored
     * creation time, which raises `TypeError` (after the removal) when a keyword
     * argument replaced it with something that is not a number.
     */
    method HandleCallback(requestId: string, response: string, now: real) returns (r: Result<Obj, string>)
      requires Valid()
      modifies this
      ensures Valid()
      ensures requestId !in old(pending) ==>
        r == Ok(map["processed" := Bool(false), "error" := Str("Unknown request ID")]) && pending == old(pending)
      ensures requestId in old(pending) ==> pending == old(pending) - {requestId}
      ensures requestId in old(pending) ==>
        (r.Ok? <==> Number(old(pending)[requestId]["created_at"]).Some?)
      ensures requestId in old(pending) && r.Ok? ==>
        r.value.Keys == {"processed", "original_request", "response", "processing_time"}
        && r.value["processed"] == Bool(true) && r.value["original_request"] == Dict(old(pending)[requestId])
        && r.value["response"] == Str(response)
        && r.value["processing_time"] == Real(now - Number(old(pending)[requestId]["created_at"]).value)
    {
      if requestId !in pending {
        return Ok(map["processed" := Bool(false), "error" := Str("Unknown request ID")]);
      }
      var request := pending[requestId];
      pending := pending - {requestId};
      var created := Number(request["created_at"]);
      if created.None? {
        return Err("TypeError: unsupported operand type(s) for -");
      }
      r := Ok(map["processed" := Bool(true), "original_request" := Dict(request),
                  "response" := Str(response), "processing_time" := Real(now - created.value)]);
    }

    /**
     * `cleanup_old_requests`: collect the ids older than `maxAge`, then remove
     * them. A creation time that is not a number raises `TypeError` during the
     * collection, before anything is removed.
     */
    method CleanupOldRequests(maxAge: real, now: real) returns (error: Option<string>)
      requires Valid()
      modifies this
      ensures Valid()
      ensures error.None? <==> Stale(old(pending), maxAge, now).Some?
      ensures error.Some? ==> pending == old(pending)
      ensures error.None? ==> pending == old(pending) - Stale(old(pending), maxAge, now).value
      ensures error.None? ==> forall id :: id in pending ==> now - Number(pending[id]["created_at"]).value <= maxAge
    {
      var expired := CollectStale(pending, maxAge, now);
      if expired.None? {
        return Some("TypeError: unsupported operand type(s) for -");
      }
      pending := RemoveAll(pending, expired.value);
      return None;
    }
  }
}
