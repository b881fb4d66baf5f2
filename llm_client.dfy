/** The conversation client (llm/client.py): it keeps the conversation history, calls the
    Messages API with it, runs every tool the model asks for and feeds the results back until
    the model stops asking, then returns the text of the final reply.

    The API is a script of answers (`remote`) that the client consumes one call at a time; a
    script that has run out stands for an API that fails to answer. */
module LlmClients {

  import opened Wrappers
  import opened Text
  import opened Json
  import opened ToolResults
  import opened HostSystem
  import opened ToolRegistries

  /** A content block of an assistant reply. `OtherBlock` is any block without a `text`
      attribute that is not a tool call. */
  datatype Block =
    | TextBlock(text: String)
    | ToolUseBlock(id: String, name: String, input: KwArgs)
    | OtherBlock

  /** A `tool_result` block sent back to the model. */
  datatype ToolResultBlock = ToolResultBlock(toolUseId: String, content: Message, isError: bool)

  datatype Role = User | Assistant

  datatype Content =
    | Text(text: String)
    | Blocks(blocks: seq<Block>)
    | Results(results: seq<ToolResultBlock>)

  /** An entry of the conversation history: `{"role": ..., "content": ...}`. */
  datatype Entry = Entry(role: Role, content: Content)

  /** What one call of `messages.create` does: a reply, or an exception with its text. */
  datatype ApiResponse = Reply(content: seq<Block>, stopReason: String) | ApiError(message: String)

  /** What the client sends with each call: the system prompt, the tool schemas and the whole
      history. */
  datatype Request = Request(system: String, tools: seq<Schema>, messages: seq<Entry>)

  /** The text of the exception the API raises when it does not answer. */
  const ConnectionError: String := "Connection error."

  /** `tool_registry.execute(tool_name, **tool_input)` binds `self` and `tool_name` before the
      input's keys are spread, so an input with either key binds that parameter twice and the
      call raises. When the input has both, `self` is the one named. */
  function RebindsParam(input: KwArgs): (r: Option<String>)
    ensures r.None? <==> "self" !in input && "tool_name" !in input
    ensures r.Some? ==> r.value in input && r.value in ["self", "tool_name"]
  {
    if "self" in input then Some("self")
    else if "tool_name" in input then Some("tool_name")
    else None
  }

  /** The text of the `TypeError` for a parameter given twice. */
  function MultipleValuesError(key: String): String
  {
    "ToolRegistry.execute() got multiple values for argument '" + key + "'"
  }

  /** What the client works with and never changes: the registry's tools, their names in
      registration order, the shell of the host and the system prompt. */
  datatype Setup = Setup(tools: map<String, Tool>, names: seq<String>, shell: Shell, system: String)

  predicate SetupValid(env: Setup)
  {
    forall i :: 0 <= i < |env.names| ==> env.names[i] in env.tools
  }

  // ---------------------------------------------------------------------------------
  // Tool calls
  // ---------------------------------------------------------------------------------

  /** The result block for the tool call `id` that returned `r`: the output of a success, the
      error of a failure, `(no output)` when that is empty. */
  function ResultBlock(id: String, r: ToolResult): (b: ToolResultBlock)
    ensures b.toolUseId == id && b.isError == !r.success && !Blank(b.content)
  {
    var content := Reported(r);
    ToolResultBlock(id, if !Blank(content) then content else NoOutput, !r.success)
  }

  /** What a result reports: the output of a success, the error of a failure, and an empty
      text for a failure without one. */
  function Reported(r: ToolResult): Message
  {
    if r.success then r.output else if r.error.Some? then r.error.value else Verbatim("")
  }

  /** The result block says what the tool said, or `(no output)` exactly when that was empty;
      its text is never empty. */
  lemma ResultBlockReports(id: String, r: ToolResult)
    ensures r.success && Render(r.output) != [] ==> ResultBlock(id, r).content == r.output
    ensures !r.success && ErrorText(r) != [] ==> ResultBlock(id, r).content == r.error.value
    ensures Render(ResultBlock(id, r).content) == "(no output)" <==>
            Render(Reported(r)) in {[], "(no output)"}
    ensures Render(ResultBlock(id, r).content) != []
  {
  }

  /** The ids of the tool calls among `blocks`, in order. */
  function UseIds(blocks: seq<Block>): seq<String>
  {
    if blocks == [] then []
    else (if blocks[0].ToolUseBlock? then [blocks[0].id] else []) + UseIds(blocks[1..])
  }

  function ResultIds(results: seq<ToolResultBlock>): seq<String>
  {
    if results == [] then [] else [results[0].toolUseId] + ResultIds(results[1..])
  }

  /** `results` put in front of the results of the rest of the calls, when those succeed. */
  function Prepend(results: seq<ToolResultBlock>, rest: (Result<seq<ToolResultBlock>, String>, HostState))
    : (Result<seq<ToolResultBlock>, String>, HostState)
  {
    match rest.0
    case Failure(m) => (Failure(m), rest.1)
    case Success(rs) => (Success(results + rs), rest.1)
  }

  lemma PrependTwice(a: seq<ToolResultBlock>, b: seq<ToolResultBlock>,
                     rest: (Result<seq<ToolResultBlock>, String>, HostState))
    ensures Prepend(a, Prepend(b, rest)) == Prepend(a + b, rest)
    ensures Prepend([], rest) == rest
  {
    if rest.0.Success? {
      assert a + (b + rest.0.value) == (a + b) + rest.0.value;
      assert [] + rest.0.value == rest.0.value;
    }
  }

  /** `_process_tool_calls`: each tool call, in order, run through the registry on the file
      system the previous one left; an exception from the call itself ends the whole. */
  function RunToolUses(env: Setup, blocks: seq<Block>, s: HostState): (r: (Result<seq<ToolResultBlock>, String>, HostState))
    ensures r.0.Success? ==> ResultIds(r.0.value) == UseIds(blocks)
    ensures r.0.Success? ==>
            forall i :: 0 <= i < |blocks| && blocks[i].ToolUseBlock? ==> RebindsParam(blocks[i].input).None?
    ensures r.0.Failure? ==> exists i :: 0 <= i < |blocks| && blocks[i].ToolUseBlock?
                                         && RebindsParam(blocks[i].input).Some?
  {
    if blocks == [] then (Success([]), s)
    else
      var b := blocks[0];
      if !b.ToolUseBlock? then RunToolUses(env, blocks[1..], s)
      else if RebindsParam(b.input).Some? then (Failure(MultipleValuesError(RebindsParam(b.input).value)), s)
      else
        var (result, s1) := Dispatch(env.tools, env.names, b.name, b.input, s, env.shell);
        Prepend([ResultBlock(b.id, result)], RunToolUses(env, blocks[1..], s1))
  }

  /** A reply without tool calls runs nothing and is answered with no results. */
  lemma {:induction false} NoToolUseRunsNothing(env: Setup, blocks: seq<Block>, s: HostState)
    requires forall i :: 0 <= i < |blocks| ==> !blocks[i].ToolUseBlock?
    ensures RunToolUses(env, blocks, s) == (Success([]), s)
  {
    if blocks != [] {
      NoToolUseRunsNothing(env, blocks[1..], s);
    }
  }

  /** A tool call whose input has a `self` or `tool_name` key raises the `TypeError` of
      `execute` binding it twice, before that tool or any later one runs. */
  lemma RebindingCallRaises(env: Setup, id: String, name: String, input: KwArgs, rest: seq<Block>, s: HostState)
    requires RebindsParam(input).Some?
    ensures RunToolUses(env, [ToolUseBlock(id, name, input)] + rest, s)
            == (Failure(MultipleValuesError(RebindsParam(input).value)), s)
  {
    assert ([ToolUseBlock(id, name, input)] + rest)[0] == ToolUseBlock(id, name, input);
  }

  // ---------------------------------------------------------------------------------
  // The final reply
  // ---------------------------------------------------------------------------------

  /** The texts of the blocks that have one, in order. */
  function Texts(blocks: seq<Block>): seq<String>
  {
    if blocks == [] then []
    else Texts(blocks[..|blocks| - 1])
         + (if blocks[|blocks| - 1].TextBlock? then [blocks[|blocks| - 1].text] else [])
  }

  /** `_extract_text_response`: the texts joined by newlines, or `(No response)` when there
      are none. */
  function ExtractText(blocks: seq<Block>): String
  {
    var parts := Texts(blocks);
    if parts == [] then "(No response)" else Join(parts, "\n")
  }

  /** Every text of the reply appears in what the client returns, a single text is returned
      as it is, and a reply without text gives `(No response)`. */
  lemma ExtractTextKeepsTexts(blocks: seq<Block>)
    ensures forall i :: 0 <= i < |Texts(blocks)| ==> Contains(ExtractText(blocks), Texts(blocks)[i])
    ensures |Texts(blocks)| == 1 ==> ExtractText(blocks) == Texts(blocks)[0]
    ensures Texts(blocks) == [] ==> ExtractText(blocks) == "(No response)"
  {
    forall i | 0 <= i < |Texts(blocks)|
      ensures Contains(ExtractText(blocks), Texts(blocks)[i])
    {
      JoinContainsParts(Texts(blocks), "\n", i);
    }
  }

  // ---------------------------------------------------------------------------------
  // The conversation loop
  // ---------------------------------------------------------------------------------

  /** Where a call of `send_message` ends: its reply or the text of the exception that
      escaped, and the history, the rest of the script, the requests sent and the file
      system after it. */
  datatype Conversation = Conversation(
    reply: Result<String, String>,
    history: seq<Entry>,
    remote: seq<ApiResponse>,
    sent: seq<Request>,
    host: HostState)

  /** The loop of `send_message` once the user's entry is in `history`: call the API with
      the whole history, append its answer, and either run the tools it asks for and go
      round again with their results appended, or return the text of the answer. */
  function Converse(env: Setup, history: seq<Entry>, remote: seq<ApiResponse>, sent: seq<Request>,
                    s: HostState): (c: Conversation)
    requires SetupValid(env)
    ensures history <= c.history && sent < c.sent
    ensures |c.remote| <= |remote|
    decreases |remote|
  {
    var sent' := sent + [Request(env.system, Schemas(env.tools, env.names), history)];
    if remote == [] then Conversation(Failure(ConnectionError), history, remote, sent', s)
    else match remote[0]
      case ApiError(m) => Conversation(Failure(m), history, remote[1..], sent', s)
      case Reply(content, stopReason) =>
        var h1 := history + [Entry(Assistant, Blocks(content))];
        if stopReason != "tool_use" then
          Conversation(Success(ExtractText(content)), h1, remote[1..], sent', s)
        else
          var (results, s1) := RunToolUses(env, content, s);
          match results
          case Failure(m) => Conversation(Failure(m), h1, remote[1..], sent', s1)
          case Success(rs) => Converse(env, h1 + [Entry(User, Results(rs))], remote[1..], sent', s1)
  }

  /** That `TypeError` is not caught by the client: a reply asking for such a call ends
      `send_message` with the exception's text. */
  lemma RebindingEndsTurn(env: Setup, history: seq<Entry>, id: String, name: String, input: KwArgs,
                          rest: seq<Block>, more: seq<ApiResponse>, sent: seq<Request>, s: HostState)
    requires SetupValid(env) && RebindsParam(input).Some?
    ensures Converse(env, history, [Reply([ToolUseBlock(id, name, input)] + rest, "tool_use")] + more, sent, s).reply
            == Failure(MultipleValuesError(RebindsParam(input).value))
  {
    RebindingCallRaises(env, id, name, input, rest, s);
  }

  /** `send_message(user_message, system_prompt)`. */
  function SendMessageSpec(env: Setup, userMessage: String, history: seq<Entry>, remote: seq<ApiResponse>,
                           sent: seq<Request>, s: HostState): Conversation
    requires SetupValid(env)
  {
    Converse(env, history + [Entry(User, Text(userMessage))], remote, sent, s)
  }

  /** Roles alternate, the user first. */
  ghost predicate Alternates(h: seq<Entry>)
  {
    forall i :: 0 <= i < |h| ==> h[i].role == (if i % 2 == 0 then User else Assistant)
  }

  /** Every entry of tool results answers the entry just before it: that one holds the calls,
      and the results carry the calls' ids in the same order. */
  ghost predicate Answered(h: seq<Entry>)
  {
    forall j :: 1 <= j < |h| && h[j].content.Results? ==>
      h[j - 1].content.Blocks? && ResultIds(h[j].content.results) == UseIds(h[j - 1].content.blocks)
  }

  ghost predicate WellFormed(h: seq<Entry>)
  {
    Alternates(h) && Answered(h)
  }

  /** Appending an assistant reply, after the user's turn, keeps the history well formed. */
  lemma AppendReply(h: seq<Entry>, content: seq<Block>)
    requires WellFormed(h) && |h| % 2 == 1
    ensures WellFormed(h + [Entry(Assistant, Blocks(content))])
  {
  }

  /** Appending the results of a reply's calls keeps the history well formed. */
  lemma AppendResults(h: seq<Entry>, content: seq<Block>, rs: seq<ToolResultBlock>)
    requires WellFormed(h + [Entry(Assistant, Blocks(content))]) && |h| % 2 == 1
    requires ResultIds(rs) == UseIds(content)
    ensures WellFormed(h + [Entry(Assistant, Blocks(content))] + [Entry(User, Results(rs))])
  {
    var h1 := h + [Entry(Assistant, Blocks(content))];
    var h2 := h1 + [Entry(User, Results(rs))];
    assert h2[|h1| - 1] == Entry(Assistant, Blocks(content));
    forall j | 1 <= j < |h2| && h2[j].content.Results?
      ensures h2[j - 1].content.Blocks? && ResultIds(h2[j].content.results) == UseIds(h2[j - 1].content.blocks)
    {
      if j < |h1| {
        assert h2[j] == h1[j] && h2[j - 1] == h1[j - 1];
      }
    }
  }

  /** The loop keeps the history well formed: it alternates, the user first, and every entry
      of results answers the calls before it. A successful reply ends on the assistant's turn
      with one assistant entry, and one pair of entries per round of tool calls, per call of
      the API. */
  lemma {:induction false} ConverseWellFormed(env: Setup, history: seq<Entry>, remote: seq<ApiResponse>,
                                              sent: seq<Request>, s: HostState)
    requires SetupValid(env)
    requires WellFormed(history) && |history| % 2 == 1
    ensures var c := Converse(env, history, remote, sent, s);
            && WellFormed(c.history)
            && (forall k :: |sent| <= k < |c.sent| ==> history <= c.sent[k].messages <= c.history)
            && (c.reply.Success? ==> |c.history| == |history| + 2 * (|remote| - |c.remote|) - 1)
            && (c.reply.Success? ==> |c.sent| == |sent| + (|remote| - |c.remote|))
    decreases |remote|
  {
    if remote != [] && remote[0].Reply? {
      var content := remote[0].content;
      AppendReply(history, content);
      if remote[0].stopReason == "tool_use" {
        var (results, s1) := RunToolUses(env, content, s);
        if results.Success? {
          AppendResults(history, content, results.value);
          var h2 := history + [Entry(Assistant, Blocks(content))] + [Entry(User, Results(results.value))];
          var sent' := sent + [Request(env.system, Schemas(env.tools, env.names), history)];
          ConverseWellFormed(env, h2, remote[1..], sent', s1);
        }
      }
    }
  }

  /** From any history, a successful loop made `k` calls of the API, sent `k` requests and
      added `2k - 1` entries: one assistant entry per call, and one results entry per round of
      tool calls. */
  lemma {:induction false} ConverseGrowth(env: Setup, history: seq<Entry>, remote: seq<ApiResponse>,
                                          sent: seq<Request>, s: HostState)
    requires SetupValid(env)
    ensures var c := Converse(env, history, remote, sent, s);
            && (c.reply.Success? ==> |c.history| == |history| + 2 * (|remote| - |c.remote|) - 1)
            && (c.reply.Success? ==> |c.sent| == |sent| + (|remote| - |c.remote|))
    decreases |remote|
  {
    if remote != [] && remote[0].Reply? && remote[0].stopReason == "tool_use" {
      var content := remote[0].content;
      var (results, s1) := RunToolUses(env, content, s);
      if results.Success? {
        var h2 := history + [Entry(Assistant, Blocks(content))] + [Entry(User, Results(results.value))];
        var sent' := sent + [Request(env.system, Schemas(env.tools, env.names), history)];
        ConverseGrowth(env, h2, remote[1..], sent', s1);
      }
    }
  }

  /** A `send_message` from any history, including one a failed earlier call left ending on
      the user's turn, keeps that history and the user's entry as its prefix; a success that
      took `k` rounds of tool calls adds 2k + 2 entries and makes one API call per round plus
      one. From a well-formed history on the assistant's turn, the new history is well formed
      and a success ends it on the assistant's turn again. */
  lemma SendMessageGrowth(env: Setup, userMessage: String, history: seq<Entry>, remote: seq<ApiResponse>,
                          sent: seq<Request>, s: HostState)
    requires SetupValid(env)
    ensures var c := SendMessageSpec(env, userMessage, history, remote, sent, s);
            && history + [Entry(User, Text(userMessage))] <= c.history
            && (c.reply.Success? ==>
                  && |c.history| == |history| + 2 * (|remote| - |c.remote|)
                  && |c.history| % 2 == |history| % 2
                  && |c.sent| == |sent| + (|remote| - |c.remote|))
            && (WellFormed(history) && |history| % 2 == 0 ==> WellFormed(c.history))
  {
    var h := history + [Entry(User, Text(userMessage))];
    var c := Converse(env, h, remote, sent, s);
    assert c == SendMessageSpec(env, userMessage, history, remote, sent, s);
    ConverseGrowth(env, h, remote, sent, s);
    assert |h| == |history| + 1;
    if WellFormed(history) && |history| % 2 == 0 {
      UserTurnWellFormed(history, userMessage);
      ConverseWellFormed(env, h, remote, sent, s);
    }
  }

  /** The user's message after a history ending on the assistant's turn keeps it well formed. */
  lemma UserTurnWellFormed(history: seq<Entry>, userMessage: String)
    requires WellFormed(history) && |history| % 2 == 0
    ensures WellFormed(history + [Entry(User, Text(userMessage))])
  {
    var h := history + [Entry(User, Text(userMessage))];
    assert h[|history|].content.Text?;
    forall i | 0 <= i < |history| ensures h[i] == history[i] { }
  }

  /** A reply that does not stop for tools ends the call after one API call, with its text. */
  lemma FinalReplyEndsTurn(env: Setup, history: seq<Entry>, content: seq<Block>, stopReason: String,
                           rest: seq<ApiResponse>, sent: seq<Request>, s: HostState)
    requires SetupValid(env) && stopReason != "tool_use"
    ensures Converse(env, history, [Reply(content, stopReason)] + rest, sent, s)
            == Conversation(Success(ExtractText(content)), history + [Entry(Assistant, Blocks(content))],
                            rest, sent + [Request(env.system, Schemas(env.tools, env.names), history)], s)
  {
    assert ([Reply(content, stopReason)] + rest)[1..] == rest;
  }

  // ---------------------------------------------------------------------------------
  // The client object
  // ---------------------------------------------------------------------------------

  class LlmClient {
    const registry: ToolRegistry
    /** The file system and shell the tools run on. */
    const host: Host
    const system: String
    var history: seq<Entry>
    /** The answers the API has yet to give. */
    var remote: seq<ApiResponse>
    /** The requests sent so far. */
    var sent: seq<Request>

    function Env(): (env: Setup)
      reads registry
      requires registry.Valid()
      ensures SetupValid(env)
    {
      assert forall i :: 0 <= i < |registry.names| ==> registry.names[i] in registry.tools;
      Setup(registry.tools, registry.names, host.shell, system)
    }

    constructor (registry: ToolRegistry, host: Host, system: String, remote: seq<ApiResponse>)
      ensures this.registry == registry && this.host == host && this.system == system
      ensures history == [] && this.remote == remote && sent == []
    {
      this.registry := registry;
      this.host := host;
      this.system := system;
      this.remote := remote;
      history := [];
      sent := [];
    }

    /** `_call_api`: send the history and take the next answer. */
    method CallApi() returns (response: ApiResponse)
      requires registry.Valid()
      modifies this
      ensures sent == old(sent) + [Request(system, registry.GetAllSchemas(), history)]
      ensures old(remote) == [] ==> response == ApiError(ConnectionError) && remote == []
      ensures old(remote) != [] ==> response == old(remote)[0] && remote == old(remote)[1..]
      ensures history == old(history)
    {
      sent := sent + [Request(system, registry.GetAllSchemas(), history)];
      if remote == [] {
        return ApiError(ConnectionError);
      }
      response := remote[0];
      remote := remote[1..];
    }

    /** `_process_tool_calls(assistant_content)`. */
    method ProcessToolCalls(content: seq<Block>) returns (r: Result<seq<ToolResultBlock>, String>)
      requires registry.Valid()
      modifies host
      ensures (r, host.State()) == RunToolUses(Env(), content, old(host.State()))
    {
      var results: seq<ToolResultBlock> := [];
      var i := 0;
      assert content[0..] == content;
      PrependTwice([], [], RunToolUses(Env(), content, host.State()));
      while i < |content|
        invariant 0 <= i <= |content|
        invariant RunToolUses(Env(), content, old(host.State()))
                  == Prepend(results, RunToolUses(Env(), content[i..], host.State()))
      {
        var b := content[i];
        assert content[i..][0] == b && content[i..][1..] == content[i + 1..];
        if b.ToolUseBlock? {
          var rebound := RebindsParam(b.input);
          if rebound.Some? {
            return Failure(MultipleValuesError(rebound.value));
          }
          ghost var st := host.State();
          var result := registry.Execute(host, b.name, b.input);
          PrependTwice(results, [ResultBlock(b.id, result)], RunToolUses(Env(), content[i + 1..], host.State()));
          results := results + [ResultBlock(b.id, result)];
        }
        i := i + 1;
      }
      assert content[i..] == [] && results + [] == results;
      r := Success(results);
    }

    /** `_extract_text_response(assistant_content)`. */
    method ExtractTextResponse(content: seq<Block>) returns (r: String)
      ensures r == ExtractText(content)
    {
      var textParts: seq<String> := [];
      var i := 0;
      while i < |content|
        invariant 0 <= i <= |content|
        invariant textParts == Texts(content[..i])
      {
        assert content[..i + 1][..i] == content[..i];
        if content[i].TextBlock? {
          textParts := textParts + [content[i].text];
        }
        i := i + 1;
      }
      assert content[..i] == content;
      r := if textParts != [] then Join(textParts, "\n") else "(No response)";
    }

    /** `send_message(user_message, system_prompt)`; `Failure` carries the text of the
        exception that escapes it. */
    method SendMessage(userMessage: String) returns (r: Result<String, String>)
      requires registry.Valid()
      modifies this, host
      ensures Conversation(r, history, remote, sent, host.State())
              == SendMessageSpec(Env(), userMessage, old(history), old(remote), old(sent), old(host.State()))
    {
      history := history + [Entry(User, Text(userMessage))];
      while true
        invariant registry.Valid()
        invariant Converse(Env(), history, remote, sent, host.State())
                  == SendMessageSpec(Env(), userMessage, old(history), old(remote), old(sent), old(host.State()))
        decreases |remote|
      {
        var response := CallApi();
        if response.ApiError? {
          return Failure(response.message);
        }
        var assistantContent := response.content;
        history := history + [Entry(Assistant, Blocks(assistantContent))];
        if response.stopReason == "tool_use" {
          var toolResults := ProcessToolCalls(assistantContent);
          if toolResults.Failure? {
            return Failure(toolResults.error);
          }
          history := history + [Entry(User, Results(toolResults.value))];
        } else {
          var text := ExtractTextResponse(assistantContent);
          return Success(text);
        }
      }
    }

    /** `clear_history()`. */
    method ClearHistory()
      modifies this
      ensures history == [] && remote == old(remote) && sent == old(sent)
    {
      history := [];
    }
  }
}
