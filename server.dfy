/** The HTTP server (server.py): one conversation client shared by every request, the chat
    endpoint that validates its body before it sends anything, the endpoint that clears the
    history, and the health check. A response carries its body as a `Body` value, and
    `Jsonify` spells out the JSON object the endpoint returns. */
module ApiServer {

  import opened Wrappers
  import opened Text
  import opened Json
  import opened HostSystem
  import opened ToolRegistries
  import opened LlmClients
  import opened AgentMain

  /** What `request.get_json()` gives: the decoded body, or the text of the exception it
      raises on a body that is not JSON. */
  datatype RequestBody = Parsed(value: JsonValue) | Unparsable(reason: String)

  /** The error an endpoint reports, by its cause. */
  datatype ServerError =
    | NotInitialized
    | BodyNotJson
    | MessageRequired
    | Caught(reason: String)   // an exception caught by the endpoint, with its `str(e)`

  /** The JSON object an endpoint returns, by what it says. */
  datatype Body =
    | Answer(response: String)
    | ErrorBody(error: ServerError)
    | HistoryCleared
    | Health(initialized: bool)

  datatype Response = Response(status: int, body: Body)

  function ErrorText(e: ServerError): String
  {
    match e
    case NotInitialized => "LLM client not initialized. Please check server configuration."
    case BodyNotJson => "Request body must be JSON"
    case MessageRequired => "Message is required and cannot be empty"
    case Caught(reason) => "An error occurred: " + reason
  }

  /** `jsonify(...)` of a body: `response`, `error` and `message` each alone, or the two
      fields of the health check. */
  function Jsonify(b: Body): (r: map<String, JsonValue>)
    ensures "response" in r <==> b.Answer?
    ensures "error" in r <==> b.ErrorBody?
    ensures "message" in r <==> b.HistoryCleared?
    ensures "status" in r <==> b.Health?
    ensures "llm_client_initialized" in r <==> b.Health?
    ensures b.Answer? ==> r == map["response" := JString(b.response)]
    ensures b.Health? ==> r["llm_client_initialized"] == JBool(b.initialized)
  {
    match b
    case Answer(text) => map["response" := JString(text)]
    case ErrorBody(e) => map["error" := JString(ErrorText(e))]
    case HistoryCleared => map["message" := JString("Conversation history cleared")]
    case Health(initialized) =>
      map["status" := JString(if initialized then "healthy" else "unhealthy"),
          "llm_client_initialized" := JBool(initialized)]
  }

  /** The health check reads `healthy` exactly when the client is initialized. */
  lemma HealthIff(initialized: bool)
    ensures Jsonify(Health(initialized))["status"] == JString("healthy") <==> initialized
    ensures Jsonify(Health(initialized))["status"] == JString("unhealthy") <==> !initialized
  {
    assert "healthy"[0] != "unhealthy"[0];
  }

  function ErrorResponse(status: int, e: ServerError): Response
  {
    Response(status, ErrorBody(e))
  }

  /** `str(e)` of the `AttributeError` of calling a missing method on a decoded value. */
  function NoAttribute(v: JsonValue, attribute: String): String
  {
    "'" + TypeName(v) + "' object has no attribute '" + attribute + "'"
  }

  /** The message a chat request asks to send, or the response that refuses the request
      before the client is asked anything. */
  function ReadMessage(body: RequestBody): (r: Result<String, Response>)
    ensures r.Success? ==> r.value != [] && !IsPySpace(r.value[0]) && !IsPySpace(r.value[|r.value| - 1])
    ensures r.Failure? ==> r.error.body.ErrorBody? && r.error.status in {400, 500}
    ensures r.Failure? ==>
            (r.error.status == 400 <==> r.error.body in {ErrorBody(BodyNotJson), ErrorBody(MessageRequired)})
  {
    match body
    case Unparsable(reason) => Failure(ErrorResponse(500, Caught(reason)))
    case Parsed(data) =>
      if !Truthy(data) then Failure(ErrorResponse(400, BodyNotJson))
      else if !data.JObject? then Failure(ErrorResponse(500, Caught(NoAttribute(data, "get"))))
      else
        var m := if "message" in data.fields then data.fields["message"] else JString("");
        if !m.JString? then Failure(ErrorResponse(500, Caught(NoAttribute(m, "strip"))))
        else
          TrimParts(m.s, IsPySpace);
          var message := PyStrip(m.s);
          if message == [] then Failure(ErrorResponse(400, MessageRequired))
          else Success(message)
  }

  /** A chat request is accepted exactly when its body is a JSON object whose `message` is a
      string with something besides white space, and then the stripped string is sent. */
  lemma ReadMessageIff(body: RequestBody)
    ensures ReadMessage(body).Success? <==>
            && body.Parsed? && body.value.JObject? && "message" in body.value.fields
            && body.value.fields["message"].JString?
            && PyStrip(body.value.fields["message"].s) != []
    ensures ReadMessage(body).Success? ==> ReadMessage(body).value == PyStrip(body.value.fields["message"].s)
  {
    if body.Parsed? && body.value.JObject? && "message" !in body.value.fields {
      assert PyStrip("") == [];
    }
  }

  /** The checks come in order: an empty or false body is a 400 before its type is looked at,
      a body that is not an object is a 500, and a blank or missing message is a 400. */
  lemma ReadMessageOrder(body: RequestBody)
    ensures body.Parsed? && !Truthy(body.value) ==> ReadMessage(body) == Failure(ErrorResponse(400, BodyNotJson))
    ensures body.Parsed? && Truthy(body.value) && !body.value.JObject? ==>
            ReadMessage(body) == Failure(ErrorResponse(500, Caught(NoAttribute(body.value, "get"))))
    ensures body.Parsed? && body.value.JObject? && body.value.fields != map[] && "message" !in body.value.fields ==>
            ReadMessage(body) == Failure(ErrorResponse(400, MessageRequired))
    ensures body.Parsed? && body.value.JObject? && "message" in body.value.fields
            && body.value.fields["message"] == JNull ==>
            ReadMessage(body) == Failure(ErrorResponse(500, Caught(NoAttribute(JNull, "strip"))))
  {
    if body.Parsed? && body.value.JObject? && "message" !in body.value.fields {
      assert PyStrip("") == [];
    }
  }

  /** `chat()` on an initialized server whose client is in state `c`: the response, and
      the client's state after it. A refused request leaves the client as it was; an accepted
      one is sent once, and its reply is a 200 while an exception is a 500 with its text. */
  function ChatSpec(env: Setup, body: RequestBody, c: ClientState): (r: (Response, ClientState))
    requires SetupValid(env)
    ensures r.0.status == 200 <==> r.0.body.Answer?
    ensures r.0.status == 400 <==> r.0.body in {ErrorBody(BodyNotJson), ErrorBody(MessageRequired)}
    ensures r.0.status in {200, 400, 500}
  {
    match ReadMessage(body)
    case Failure(refusal) => (refusal, c)
    case Success(message) =>
      var (outcome, c') := Effect(env, Send(message), c);
      (if outcome.Answered? then Response(200, Answer(outcome.reply))
       else ErrorResponse(500, Caught(outcome.message)), c')
  }

  /** A refused request never reaches the client: no API call, no tool, no change. */
  lemma RefusalChangesNothing(env: Setup, body: RequestBody, c: ClientState)
    requires SetupValid(env) && ReadMessage(body).Failure?
    ensures ChatSpec(env, body, c) == (ReadMessage(body).error, c)
    ensures ChatSpec(env, body, c).0.status != 200
  {
  }

  /** An accepted request adds the stripped message to the history as the user's turn, from
      any history, including one an earlier failed request left; a 200 adds an even number of
      entries. On a well-formed history on the assistant's turn, the history stays well
      formed. */
  lemma AcceptedMessageIsSent(env: Setup, body: RequestBody, c: ClientState)
    requires SetupValid(env) && ReadMessage(body).Success?
    ensures var (r, c') := ChatSpec(env, body, c);
            && c.history + [Entry(User, Text(ReadMessage(body).value))] <= c'.history
            && (r.status == 200 ==> |c'.history| % 2 == |c.history| % 2)
            && (WellFormed(c.history) && |c.history| % 2 == 0 ==> WellFormed(c'.history))
  {
    SendMessageGrowth(env, ReadMessage(body).value, c.history, c.remote, c.sent, c.host);
  }

  /** The server process: the client shared by every request, or none when the configuration
      could not be loaded. */
  class Server {
    var llmClient: LlmClient?

    ghost predicate Valid()
      reads this, llmClient, if llmClient != null then {llmClient.registry} else {}
    {
      llmClient != null ==> llmClient.registry.Valid()
    }

    /** The module's start: no client yet. */
    constructor ()
      ensures Valid() && llmClient == null
    {
      llmClient := null;
    }

    /** `initialize_llm_client()`: when the settings load (`configured`), a new client over a
        new standard registry, with an empty history; otherwise `False` and no change. */
    method InitializeLlmClient(configured: bool, host: Host, system: String, remote: seq<ApiResponse>)
      returns (ok: bool)
      requires Valid()
      modifies this
      ensures Valid() && ok == configured
      ensures !configured ==> llmClient == old(llmClient)
      ensures configured ==> && llmClient != null && fresh(llmClient) && fresh(llmClient.registry)
                             && llmClient.registry.names == StandardNames
                             && llmClient.registry.tools == StandardTools
                             && llmClient.host == host && llmClient.system == system
                             && llmClient.history == [] && llmClient.remote == remote && llmClient.sent == []
    {
      if !configured {
        return false;
      }
      var registry := CreateToolRegistry();
      llmClient := new LlmClient(registry, host, system, remote);
      ok := true;
    }

    /** `POST /api/chat` with `body`. */
    method Chat(body: RequestBody) returns (r: Response)
      requires Valid()
      modifies if llmClient != null then {llmClient, llmClient.host} else {}
      ensures Valid()
      ensures llmClient == null ==> r == ErrorResponse(500, NotInitialized)
      ensures llmClient != null ==>
              (r, StateOf(llmClient)) == ChatSpec(llmClient.Env(), body, old(StateOf(llmClient)))
    {
      if llmClient == null {
        return ErrorResponse(500, NotInitialized);
      }
      var read := ReadMessage(body);
      if read.Failure? {
        return read.error;
      }
      var outcome := Carry(llmClient, Send(read.value));
      r := if outcome.Answered? then Response(200, Answer(outcome.reply))
           else ErrorResponse(500, Caught(outcome.message));
    }

    /** `POST /api/chat/clear`: the history is emptied, and nothing else changes. */
    method ClearHistory() returns (r: Response)
      requires Valid()
      modifies if llmClient != null then {llmClient} else {}
      ensures Valid()
      ensures llmClient == null ==> r == ErrorResponse(500, NotInitialized)
      ensures llmClient != null ==>
              && r == Response(200, HistoryCleared)
              && StateOf(llmClient) == old(StateOf(llmClient)).(history := [])
    {
      if llmClient == null {
        return ErrorResponse(500, NotInitialized);
      }
      llmClient.ClearHistory();
      r := Response(200, HistoryCleared);
    }

    /** `GET /api/health`: always a 200, saying whether the client is initialized. */
    function HealthCheck(): (r: Response)
      reads this
      ensures r.status == 200 && r.body.Health?
      ensures Jsonify(r.body)["status"] == JString("healthy") <==> llmClient != null
    {
      HealthIff(llmClient != null);
      Response(200, Health(llmClient != null))
    }
  }
}
