/**
 * The Responses API's in-memory state: the response store and the
 * conversation history kept per response, with the create, retrieve and
 * list handlers that use them.
 */
module ResponsesStore {
  import opened Wrappers
  import opened GoStrings
  import opened Config
  import opened ResponsesApi
  import opened Http

  /** What the create handler answers. */
  datatype CreateOutcome =
    | BadRequest(failure: HttpError)
    | RuleError(error: ErrorOut)
    | Created(response: ResponsesResponse)
    | Streamed(events: seq<StreamEvent>, delayMs: int)

  /** The `limit` query parameter: 20 when absent or not an integer. */
  function ListLimit(param: string): int
  {
    if param == "" then 20
    else match Atoi(param)
      case Some(l) => l
      case None => 20
  }

  /** How many responses a listing returns: `limit` of them, or all when fewer, none for a limit of 0 or less. */
  function ListSize(limit: int, stored: nat): nat
  {
    if limit <= 0 then 0 else if limit < stored then limit else stored
  }

  /**
   * Both maps have the same keys, none of them empty; each response is
   * stored under its own identifier and ends with a message; each history
   * is a non-empty run of (input, reply) pairs ending with that response's
   * reply text.
   */
  ghost predicate Consistent(responses: map<string, ResponsesResponse>, history: map<string, seq<string>>)
  {
    && responses.Keys == history.Keys
    && "" !in history
    && forall id :: id in responses ==> Entry(id, responses[id], history[id])
  }

  /** One stored response and its history. */
  ghost predicate Entry(id: string, r: ResponsesResponse, h: seq<string>)
  {
    && r.id == id
    && EndsWithMessage(r.output)
    && |h| >= 2 && |h| % 2 == 0
    && h[|h| - 1] == ReplyText(r.output)
  }

  /** The parent's history used for the prompt context: none for an empty or unknown identifier. */
  function ParentHistory(history: map<string, seq<string>>, prev: string): Option<seq<string>>
  {
    if prev != "" && prev in history then Some(history[prev]) else None
  }

  /** The history a new response extends: its parent's, empty for an unknown identifier. */
  function Lineage(history: map<string, seq<string>>, prev: string): seq<string>
  {
    if prev in history then history[prev] else []
  }

  /** The response built for a request that resolved without an error. */
  function NewResponse(history: map<string, seq<string>>, req: ResponsesCreateRequest, resolved: Resolution, env: Env)
    : ResponsesResponse
    requires !resolved.Failed?
  {
    BuildResponse(req, resolved, ParentHistory(history, req.previousResponseId), env)
  }

  /** Its history: the parent's, then the flattened input and the reply text. */
  function NewHistory(history: map<string, seq<string>>, req: ResponsesCreateRequest, resolved: Resolution, env: Env)
    : seq<string>
    requires !resolved.Failed?
  {
    Lineage(history, req.previousResponseId) + [Flatten(req.input), ReplyText(NewResponse(history, req, resolved, env).output)]
  }

  /**
   * Recording a created response keeps the store consistent: the new
   * identifier is never empty, and the parent's history has an even length,
   * so the new one does too.
   */
  lemma RecordKeepsConsistent(responses: map<string, ResponsesResponse>, history: map<string, seq<string>>,
                              req: ResponsesCreateRequest, resolved: Resolution, env: Env)
    requires Consistent(responses, history)
    requires !resolved.Failed?
    ensures var r := NewResponse(history, req, resolved, env);
      Consistent(responses[r.id := r], history[r.id := NewHistory(history, req, resolved, env)])
  {
    var r := NewResponse(history, req, resolved, env);
    NewEntry(responses, history, req, resolved, env);
    RecordEntry(responses, history, r.id, r, NewHistory(history, req, resolved, env));
  }

  /** The new response and its history form an entry under a non-empty identifier. */
  lemma NewEntry(responses: map<string, ResponsesResponse>, history: map<string, seq<string>>,
                 req: ResponsesCreateRequest, resolved: Resolution, env: Env)
    requires Consistent(responses, history)
    requires !resolved.Failed?
    ensures var r := NewResponse(history, req, resolved, env);
      r.id != "" && Entry(r.id, r, NewHistory(history, req, resolved, env))
  {
    var prev := req.previousResponseId;
    var r := NewResponse(history, req, resolved, env);
    ResponseIdNonEmpty(env);
    if prev in history {
      assert Entry(prev, responses[prev], history[prev]);
    }
    EntryOfTurn(r.id, r, Lineage(history, prev), Flatten(req.input));
  }

  /** A response ending with a message, after an even-length history, extends it to an entry. */
  lemma EntryOfTurn(id: string, r: ResponsesResponse, lineage: seq<string>, input: string)
    requires r.id == id && EndsWithMessage(r.output) && |lineage| % 2 == 0
    ensures Entry(id, r, lineage + [input, ReplyText(r.output)])
  {
  }

  /** A response identifier is never empty: it opens with `resp_`. */
  lemma ResponseIdNonEmpty(env: Env)
    ensures ResponseId(env) != ""
  {
    GenerateIdCollides("resp_", env.now, env.idDraw(0), env.idDraw(0));
  }

  /** Storing an entry under a non-empty identifier keeps the store consistent. */
  lemma RecordEntry(responses: map<string, ResponsesResponse>, history: map<string, seq<string>>,
                    id: string, r: ResponsesResponse, h: seq<string>)
    requires Consistent(responses, history)
    requires id != "" && Entry(id, r, h)
    ensures Consistent(responses[id := r], history[id := h])
  {
  }

  /**
   * A created response continues its parent: its history is the parent's
   * followed by this turn's input and reply, and its prompt tokens count
   * every word of the parent's history plus the words of the input. An
   * empty or unknown parent identifier starts a fresh conversation.
   */
  lemma NewResponseContinuesParent(history: map<string, seq<string>>, req: ResponsesCreateRequest,
                                   resolved: Resolution, env: Env)
    requires !resolved.Failed?
    ensures var h := NewHistory(history, req, resolved, env);
      var r := NewResponse(history, req, resolved, env);
      var prev := req.previousResponseId;
      && |h| == |Lineage(history, prev)| + 2
      && h[..|h| - 2] == Lineage(history, prev)
      && h[|h| - 2] == Flatten(req.input)
      && h[|h| - 1] == ReplyText(r.output)
      && (prev !in history ==> |h| == 2)
      && r.usage.promptTokens
         == (if prev != "" && prev in history then WordCountAll(history[prev]) else 0) + |Fields(Flatten(req.input))|
  {
    ResponseUsageCounts(ParentHistory(history, req.previousResponseId), Flatten(req.input));
  }

  class ResponseStore {
    /** `responseStore`: every created response by identifier. */
    var responses: map<string, ResponsesResponse>
    /** `conversationHistory`: the alternating inputs and replies leading to each response. */
    var history: map<string, seq<string>>

    /** The store and the history agree, as `Consistent` states. */
    ghost predicate Valid()
      reads this
    {
      Consistent(responses, history)
    }

    constructor ()
      ensures Valid()
      ensures responses == map[] && history == map[]
    {
      responses := map[];
      history := map[];
    }

    /**
     * POST /v1/responses. A body that does not decode is a 400; a streaming
     * request is answered with the event stream and stores nothing; an
     * injected rule error is answered with the rule's status and stores
     * nothing. Otherwise the response is stored under its identifier and
     * its history is the parent's history (empty for an unknown or absent
     * parent) followed by the input and the reply text.
     */
    method Create(body: Option<ResponsesCreateRequest>, cfg: Option<BotConfig>, env: Env) returns (outcome: CreateOutcome)
      requires Valid()
      requires IsEnumeration(env.order, ContextKeys(cfg))
      modifies this
      ensures Valid()
      ensures body.None? ==> outcome == BadRequest(HttpError(400, "Invalid JSON")) && unchanged(this)
      ensures body.Some? && body.value.stream == Some(true) ==>
        && outcome == Streamed(StreamEvents(Fields(StreamText(cfg, body.value, env))), ResponsesStreamDelayMs(cfg))
        && unchanged(this)
      ensures body.Some? && body.value.stream != Some(true) ==>
        var resolved := ResolvedContent(cfg, body.value.model, body.value.input, env);
        && (resolved.Failed? ==> outcome == RuleError(resolved.error) && unchanged(this))
        && (!resolved.Failed? ==>
              var r := NewResponse(old(history), body.value, resolved, env);
              && outcome == Created(r)
              && responses == old(responses)[r.id := r]
              && history == old(history)[r.id := NewHistory(old(history), body.value, resolved, env)])
    {
      if body.None? {
        return BadRequest(HttpError(400, "Invalid JSON"));
      }
      var req := body.value;
      if req.stream == Some(true) {
        var events, delayMs := StreamResponse(cfg, req, env);
        return Streamed(events, delayMs);
      }
      var resolved := ResolveResponsesContent(cfg, req.model, req.input, env);
      if resolved.Failed? {
        return RuleError(resolved.error);
      }
      var response := Record(req, resolved, env);
      return Created(response);
    }

    /** Stores the response built for a request that did not fail, with its history. */
    method Record(req: ResponsesCreateRequest, resolved: Resolution, env: Env) returns (response: ResponsesResponse)
      requires Valid()
      requires !resolved.Failed?
      modifies this
      ensures Valid()
      ensures response == NewResponse(old(history), req, resolved, env)
      ensures responses == old(responses)[response.id := response]
      ensures history == old(history)[response.id := NewHistory(old(history), req, resolved, env)]
    {
      var parent: Option<seq<string>> := None;
      if req.previousResponseId != "" && req.previousResponseId in history {
        parent := Some(history[req.previousResponseId]);
      }
      var inputStr := FlattenInput(req.input);
      var output := AssembleOutput(req, resolved, env);
      response := ResponsesResponse(ResponseId(env), "response", env.now, req.model, output, ResponseUsage(parent, inputStr));
      var lineage := if req.previousResponseId in history then history[req.previousResponseId] else [];
      RecordKeepsConsistent(responses, history, req, resolved, env);
      responses := responses[response.id := response];
      history := history[response.id := lineage + [inputStr, ReplyText(output)]];
    }

    /** GET /v1/responses/{id}: the stored response, or a 404. */
    method Retrieve(id: string) returns (r: Result<ResponsesResponse, HttpError>)
      ensures id in responses ==> r == Ok(responses[id])
      ensures id !in responses ==> r == Err(HttpError(404, "Response not found"))
    {
      if id !in responses {
        return Err(HttpError(404, "Response not found"));
      }
      return Ok(responses[id]);
    }

    /**
     * GET /v1/responses: up to `limit` stored responses, each at most once,
     * in the store's (arbitrary) iteration order; `ids` names where each
     * came from. The store is not changed.
     */
    method List(limitParam: string) returns (data: seq<ResponsesResponse>, ghost ids: seq<string>)
      ensures |data| == |ids| == ListSize(ListLimit(limitParam), |responses.Keys|)
      ensures Distinct(ids)
      ensures forall i :: 0 <= i < |ids| ==> ids[i] in responses && data[i] == responses[ids[i]]
    {
      var limit := 20;
      if limitParam != "" {
        var l := Atoi(limitParam);
        if l.Some? {
          limit := l.value;
        }
      }
      data, ids := [], [];
      var count := 0;
      var pending := responses.Keys;
      while pending != {}
        invariant pending <= responses.Keys
        invariant count == |data| == |ids|
        invariant count + |pending| == |responses.Keys|
        invariant count <= if limit <= 0 then 0 else limit
        invariant Distinct(ids)
        invariant forall i :: 0 <= i < |ids| ==> ids[i] in responses && ids[i] !in pending && data[i] == responses[ids[i]]
        decreases |pending|
      {
        if count >= limit {
          break;
        }
        var id :| id in pending;
        data := data + [responses[id]];
        ids := ids + [id];
        count := count + 1;
        pending := pending - {id};
      }
    }
  }

  /** A response just created is what retrieving its identifier returns. */
  method CreateThenRetrieve(store: ResponseStore, req: ResponsesCreateRequest, cfg: Option<BotConfig>, env: Env)
    returns (created: CreateOutcome, fetched: Result<ResponsesResponse, HttpError>)
    requires store.Valid()
    requires IsEnumeration(env.order, ContextKeys(cfg))
    requires req.stream != Some(true)
    modifies store
    ensures store.Valid()
    ensures created.Created? ==> fetched == Ok(created.response)
    ensures created.Created? || created.RuleError?
  {
    created := store.Create(Some(req), cfg, env);
    if created.Created? {
      fetched := store.Retrieve(created.response.id);
    } else {
      fetched := Err(HttpError(404, "Response not found"));
    }
  }
}
