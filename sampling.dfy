/**
 * The sampling emulation of src/sampling.py: a manager that hands out sampling
 * requests to inject into tool responses, remembers them with a deadline and an
 * optional handler, and settles them when the client calls back.
 *
 * Time is whole seconds passed in by the caller; the request id (a fresh UUID)
 * and the handler's outcome (an awaited foreign callable) are parameters too.
 */
module Sampling {
  import opened Common

  /** How long a request stays pending, in seconds. */
  const Timeout: int := 300

  /** A registered response handler, known only by identity. */
  datatype Handler = Handler(name: string)

  /** What awaiting the handler gave: its result, or the text of the exception it raised. */
  datatype HandlerOutcome = Returned(result: Value) | Raised(message: string)

  /** The stored request (the fields of `SamplingRequest`). */
  datatype Request = Request(
    id: string,
    prompt: string,
    maxTokens: int,
    temperature: real,
    callbackTool: string,
    context: Option<Obj>)

  /** `request.context` as it appears in a response dictionary. */
  function ContextValue(context: Option<Obj>): (v: Value)
    ensures context.None? <==> v == Null
    ensures context.Some? ==> v == Dict(context.value)
  {
    match context
    case None => Null
    case Some(d) => Dict(d)
  }

  /** The contexts for which asking the client for a sample is worth it. */
  const SamplingContexts: map<string, bool> :=
    map["help" := true, "constraints" := true, "clarification" := true,
        "options" := true, "error_recovery" := true]

  /** `should_request_sampling`: a table lookup with `False` as default. */
  function ShouldRequestSampling(context: string): (b: bool)
    ensures b <==> (context == "help" || context == "constraints" || context == "clarification"
      || context == "options" || context == "error_recovery")
  {
    if context in SamplingContexts then SamplingContexts[context] else false
  }

  /** The name of the tool the client is told to call back. */
  function CallbackTool(prefix: string): (t: string)
    ensures StartsWith(t, prefix) && EndsWith(t, "_sampling_callback")
    ensures |t| == |prefix| + 18
  {
    var t := prefix + "_sampling_callback";
    assert t[|prefix|..] == "_sampling_callback";
    t
  }

  /** The instruction text injected with a request. */
  function Instruction(callbackTool: string, requestId: string): string {
    "Please process this request and call " + callbackTool + " with request_id='" + requestId + "' and your response."
  }

  /** The ids whose deadline has passed at `now`. */
  function ExpiredIds(timeouts: map<string, int>, now: int): (ids: set<string>)
    ensures ids <= timeouts.Keys
    ensures forall id :: id in ids <==> id in timeouts && now > timeouts[id]
  {
    set id | id in timeouts && now > timeouts[id]
  }

  /** Later sweeps expire at least what earlier ones would. */
  lemma ExpiredGrows(timeouts: map<string, int>, earlier: int, later: int)
    requires earlier <= later
    ensures ExpiredIds(timeouts, earlier) <= ExpiredIds(timeouts, later)
  {
  }

  /** A request created at `created` survives every sweep up to the full timeout, and the first sweep after it expires it. */
  lemma FreshSurvives(timeouts: map<string, int>, id: string, created: int, now: int)
    requires id in timeouts && timeouts[id] == created + Timeout
    ensures now <= created + Timeout ==> id !in ExpiredIds(timeouts, now)
    ensures now > created + Timeout ==> id in ExpiredIds(timeouts, now)
  {
  }

  /** The key the handler's outcome adds to the settled result: none without a handler. */
  function HandlerKeys(handled: bool, outcome: HandlerOutcome): (ks: set<string>)
    ensures !handled <==> ks == {}
    ensures handled ==> ks == {if outcome.Returned? then "handler_result" else "handler_error"}
  {
    if !handled then {} else if outcome.Returned? then {"handler_result"} else {"handler_error"}
  }

  /** The dictionary `handle_response` returns for a settled request. */
  function Settled(requestId: string, request: Request, response: string, handled: bool, outcome: HandlerOutcome): (r: Obj)
    ensures "request_id" in r && r["request_id"] == Str(requestId)
    ensures "original_prompt" in r && r["original_prompt"] == Str(request.prompt)
    ensures "response" in r && r["response"] == Str(response)
    ensures "context" in r && r["context"] == ContextValue(request.context)
    ensures handled && outcome.Returned? ==> "handler_result" in r && r["handler_result"] == outcome.result
    ensures handled && outcome.Raised? ==> "handler_error" in r && r["handler_error"] == Str(outcome.message)
  {
    var base := map["request_id" := Str(requestId), "original_prompt" := Str(request.prompt),
                    "response" := Str(response), "context" := ContextValue(request.context)];
    if !handled then base
    else if outcome.Returned? then base["handler_result" := outcome.result]
    else base["handler_error" := Str(outcome.message)]
  }

  /** A settled result carries the four echoed keys and, with a handler, exactly one of its two keys. */
  lemma SettledKeys(requestId: string, request: Request, response: string, handled: bool, outcome: HandlerOutcome)
    ensures Settled(requestId, request, response, handled, outcome).Keys ==
      {"request_id", "original_prompt", "response", "context"} + HandlerKeys(handled, outcome)
  {
  }

  /** Removing a present key shrinks a map by one. */
  lemma RemoveOne<K, V>(m: map<K, V>, k: K)
    requires k in m
    ensures |m - {k}| == |m| - 1
  {
    assert (m - {k}).Keys == m.Keys - {k};
  }

  lemma MinusStep<V>(m: map<string, V>, removed: set<string>, k: string)
    ensures (m - removed) - {k} == m - (removed + {k})
  {
  }

  /** The loop of `_cleanup_expired`: pop every expired id from the three maps. */
  method DropAll(pending: map<string, Request>, timeouts: map<string, int>, handlers: map<string, Handler>, expired: set<string>)
    returns (p: map<string, Request>, t: map<string, int>, h: map<string, Handler>)
    ensures p == pending - expired && t == timeouts - expired && h == handlers - expired
  {
    var todo := expired;
    var removed: set<string> := {};
    p, t, h := pending, timeouts, handlers;
    while todo != {}
      invariant todo !! removed && todo + removed == expired
      invariant p == pending - removed && t == timeouts - removed && h == handlers - removed
      decreases |todo|
    {
      var id :| id in todo;
      MinusStep(pending, removed, id);
      MinusStep(timeouts, removed, id);
      MinusStep(handlers, removed, id);
      p, t, h := p - {id}, t - {id}, h - {id};
      todo := todo - {id};
      removed := removed + {id};
    }
  }

  class SamplingManager {
    const callbackToolPrefix: string
    var pending: map<string, Request>
    var handlers: map<string, Handler>
    var timeouts: map<string, int>

    /** Every pending request has a deadline, nothing else has one, and handlers belong to pending requests. */
    ghost predicate Valid()
      reads this
    {
      timeouts.Keys == pending.Keys && handlers.Keys <= pending.Keys
    }

    constructor(prefix: string)
      ensures Valid()
      ensures callbackToolPrefix == prefix
      ensures pending == map[] && handlers == map[] && timeouts == map[]
    {
      callbackToolPrefix := prefix;
      pending := map[];
      handlers := map[];
      timeouts := map[];
    }

    /** `get_pending_count`. */
    function PendingCount(): (n: nat)
      reads this
      ensures n == |pending.Keys|
    {
      |pending|
    }

    /**
     * `create_request`: record the request under `requestId` with deadline
     * `now + 300`, remember `handler` when one is given, and return the
     * dictionary to inject into the response.
     */
    method CreateRequest(prompt: string, maxTokens: int, temperature: real, context: Option<Obj>,
                         handler: Option<Handler>, requestId: string, now: int) returns (r: Obj)
      requires Valid()
      modifies this
      ensures Valid()
      ensures pending == old(pending)[requestId := Request(requestId, prompt, maxTokens, temperature,
                                                            CallbackTool(callbackToolPrefix), context)]
      ensures timeouts == old(timeouts)[requestId := now + Timeout]
      ensures handler.Some? ==> handlers == old(handlers)[requestId := handler.value]
      ensures handler.None? ==> handlers == old(handlers)
      ensures r.Keys == {"id", "prompt", "max_tokens", "temperature", "instruction"}
      ensures r["id"] == Str(requestId) && r["prompt"] == Str(prompt)
      ensures r["max_tokens"] == Int(maxTokens) && r["temperature"] == Real(temperature)
      ensures r["instruction"] == Str(Instruction(CallbackTool(callbackToolPrefix), requestId))
      ensures requestId !in old(pending) ==> PendingCount() == old(PendingCount()) + 1
    {
      var callbackTool := CallbackTool(callbackToolPrefix);
      pending := pending[requestId := Request(requestId, prompt, maxTokens, temperature, callbackTool, context)];
      timeouts := timeouts[requestId := now + Timeout];
      if handler.Some? {
        handlers := handlers[requestId := handler.value];
      }
      r := map["id" := Str(requestId), "prompt" := Str(prompt), "max_tokens" := Int(maxTokens),
               "temperature" := Real(temperature), "instruction" := Str(Instruction(callbackTool, requestId))];
    }

    /**
     * `handle_response`: an unknown id is reported and changes nothing; a known
     * id is removed from all three maps, and the result echoes the original
     * prompt and context, with the handler's result or error when one was
     * registered.
     */
    method HandleResponse(requestId: string, response: string, outcome: HandlerOutcome) returns (r: Obj)
      requires Valid()
      modifies this
      ensures Valid()
      ensures requestId !in old(pending) ==>
        r == map["processed" := Bool(false), "error" := Str("Unknown request ID")]
        && pending == old(pending) && timeouts == old(timeouts) && handlers == old(handlers)
      ensures requestId in old(pending) ==>
        pending == old(pending) - {requestId} && timeouts == old(timeouts) - {requestId}
        && handlers == old(handlers) - {requestId} && PendingCount() == old(PendingCount()) - 1
      ensures requestId in old(pending) ==>
        r == Settled(requestId, old(pending)[requestId], response, requestId in old(handlers), outcome)
    {
      if requestId !in pending {
        return map["processed" := Bool(false), "error" := Str("Unknown request ID")];
      }
      var request := pending[requestId];
      RemoveOne(pending, requestId);
      var handled := requestId in handlers;
      pending := pending - {requestId};
      timeouts := timeouts - {requestId};
      handlers := handlers - {requestId};
      r := Settled(requestId, request, response, handled, outcome);
    }

    /**
     * One pass of the background expiry task: the ids whose deadline is before
     * `now` are dropped from all three maps.
     */
    method SweepExpired(now: int)
      requires Valid()
      modifies this
      ensures Valid()
      ensures pending == old(pending) - ExpiredIds(old(timeouts), now)
      ensures timeouts == old(timeouts) - ExpiredIds(old(timeouts), now)
      ensures handlers == old(handlers) - ExpiredIds(old(timeouts), now)
      ensures forall id :: id in timeouts ==> timeouts[id] >= now
    {
      var expired := ExpiredIds(timeouts, now);
      var p, t, h := DropAll(pending, timeouts, handlers, expired);
      assert p.Keys == pending.Keys - expired && t.Keys == timeouts.Keys - expired;
      assert h.Keys == handlers.Keys - expired;
      pending, timeouts, handlers := p, t, h;
    }

    /** `clear_all`. */
    method ClearAll()
      modifies this
      ensures Valid()
      ensures pending == map[] && handlers == map[] && timeouts == map[]
      ensures PendingCount() == 0
    {
      pending := map[];
      handlers := map[];
      timeouts := map[];
    }
  }
}
