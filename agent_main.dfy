/** The command-line agent (main.py): the registry of the four tools, and the loop that reads
    lines, ends on `quit`, `exit`, end of input or an interrupt, clears the history on
    `clear`, and sends every other non-blank line to the client. */
module AgentMain {

  import opened Wrappers
  import opened Text
  import opened HostSystem
  import opened ToolRegistries
  import opened LlmClients

  /** `create_tool_registry()`: Read, Write, Edit and Bash, in that order. */
  method CreateToolRegistry() returns (registry: ToolRegistry)
    ensures fresh(registry) && registry.Valid()
    ensures registry.names == ["Read", "Write", "Edit", "Bash"]
    ensures registry.tools == map["Read" := Read, "Write" := Write, "Edit" := Edit, "Bash" := Bash]
  {
    registry := new ToolRegistry();
    registry.Register(Read);
    registry.Register(Write);
    registry.Register(Edit);
    registry.Register(Bash);
  }

  /** The registry's tools and order, as `create_tool_registry()` leaves them. */
  const StandardNames: seq<String> := ["Read", "Write", "Edit", "Bash"]
  const StandardTools: map<String, Tool> := map["Read" := Read, "Write" := Write, "Edit" := Edit, "Bash" := Bash]

  /** Every tool is registered under its own name, every name is registered once, and the
      `i`-th name is that of the `i`-th tool registered, so the schemas the client sends
      name Read, Write, Edit and Bash in that order. */
  lemma StandardRegistryIsComplete()
    ensures forall t: Tool :: NameOf(t) in StandardTools && StandardTools[NameOf(t)] == t
    ensures forall n :: n in StandardTools <==> n in StandardNames
    ensures forall i, j :: 0 <= i < j < |StandardNames| ==> StandardNames[i] != StandardNames[j]
    ensures forall i :: 0 <= i < |StandardNames| ==> NameOf(StandardTools[StandardNames[i]]) == StandardNames[i]
  {
    forall t: Tool ensures NameOf(t) in StandardTools && StandardTools[NameOf(t)] == t {
      match t
      case Read =>
      case Write =>
      case Edit =>
      case Bash =>
    }
  }

  /** What `input()` does when the loop asks for a line. */
  datatype InputEvent = Line(text: String) | EndOfInput | Interrupt

  /** What the loop asks of the client. */
  datatype Command = Send(message: String) | Clear

  predicate IsQuit(lowered: String)
  {
    lowered == "quit" || lowered == "exit"
  }

  /** What the loop does with one event. */
  datatype Step = Stop | Skip | DoClear | DoSend(message: String)

  /** The end of input and an interrupt stop the loop; a line is stripped, skipped when
      blank, stops the loop when it is `quit` or `exit` in any case, clears on `clear` in
      any case, and is sent otherwise. */
  function StepOf(e: InputEvent): Step
  {
    match e
    case EndOfInput => Stop
    case Interrupt => Stop
    case Line(t) =>
      var userInput := PyStrip(t);
      if userInput == [] then Skip
      else if IsQuit(ToLower(userInput)) then Stop
      else if ToLower(userInput) == "clear" then DoClear
      else DoSend(userInput)
  }

  /** A line is skipped exactly when it is all white space; a message sent is the stripped
      line, neither blank nor, in any case, one of the command words. */
  lemma StepOfLine(t: String)
    ensures StepOf(Line(t)) == Skip <==> AllSpace(t, IsPySpace)
    ensures StepOf(Line(t)).DoSend? ==>
              var m := StepOf(Line(t)).message;
              && m == PyStrip(t) && m != [] && !IsPySpace(m[0]) && !IsPySpace(m[|m| - 1])
              && !IsQuit(ToLower(m)) && ToLower(m) != "clear"
  {
    TrimEmptyIff(t, IsPySpace);
    TrimParts(t, IsPySpace);
  }

  function StepsOf(events: seq<InputEvent>): (steps: seq<Step>)
    ensures |steps| == |events|
  {
    if events == [] then [] else [StepOf(events[0])] + StepsOf(events[1..])
  }

  lemma {:induction false} StepsOfIndex(events: seq<InputEvent>, j: nat)
    requires j < |events|
    ensures StepsOf(events)[j] == StepOf(events[j])
  {
    if j > 0 {
      StepsOfIndex(events[1..], j - 1);
    }
  }

  lemma {:induction false} StepsOfPrefix(events: seq<InputEvent>, k: nat)
    requires k <= |events|
    ensures StepsOf(events[..k]) == StepsOf(events)[..k]
  {
    if k > 0 {
      assert events[..k][0] == events[0] && events[..k][1..] == events[1..][..k - 1];
      StepsOfPrefix(events[1..], k - 1);
    }
  }

  lemma StepsOfFrom(events: seq<InputEvent>, i: nat)
    requires i < |events|
    ensures StepsOf(events[i..]) == [StepOf(events[i])] + StepsOf(events[i + 1..])
  {
    assert events[i..][0] == events[i] && events[i..][1..] == events[i + 1..];
  }

  /** The steps carried out in order up to the first one that stops the loop. */
  function Perform(steps: seq<Step>): seq<Command>
  {
    if steps == [] then []
    else match steps[0]
      case Stop => []
      case Skip => Perform(steps[1..])
      case DoClear => [Clear] + Perform(steps[1..])
      case DoSend(m) => [Send(m)] + Perform(steps[1..])
  }

  /** The commands a run of the loop gives over `events`. */
  function Commands(events: seq<InputEvent>): seq<Command>
  {
    Perform(StepsOf(events))
  }

  /** Steps that do not stop the loop act one after the other. */
  lemma {:induction false} PerformAppend(a: seq<Step>, b: seq<Step>)
    requires forall i :: 0 <= i < |a| ==> !a[i].Stop?
    ensures Perform(a + b) == Perform(a) + Perform(b)
  {
    if a == [] {
      assert a + b == b;
    } else {
      assert (a + b)[0] == a[0] && (a + b)[1..] == a[1..] + b;
      PerformAppend(a[1..], b);
    }
  }

  /** Nothing after the first `quit`, `exit`, end of input or interrupt is acted on. */
  lemma StopEndsTheLoop(events: seq<InputEvent>, k: nat)
    requires k < |events| && StepOf(events[k]) == Stop
    requires forall i :: 0 <= i < k ==> StepOf(events[i]) != Stop
    ensures Commands(events) == Commands(events[..k])
  {
    var steps := StepsOf(events);
    assert steps == steps[..k] + steps[k..];
    StepsOfPrefix(events, k);
    forall i | 0 <= i < k ensures !steps[..k][i].Stop? {
      StepsOfIndex(events, i);
    }
    StepsOfIndex(events, k);
    assert steps[k..][0] == Stop;
    PerformAppend(steps[..k], steps[k..]);
  }

  /** A sent message comes from a step that sends it. */
  lemma {:induction false} PerformSends(steps: seq<Step>, m: String)
    requires Send(m) in Perform(steps)
    ensures DoSend(m) in steps
  {
    if steps[0] != DoSend(m) {
      PerformSends(steps[1..], m);
    }
  }

  /** Every message sent is the stripped text of a line typed before the loop stopped; it is
      not blank and is none of the command words. */
  lemma SentMessagesAreStripped(events: seq<InputEvent>, m: String)
    requires Send(m) in Commands(events)
    ensures exists j :: 0 <= j < |events| && events[j].Line? && m == PyStrip(events[j].text)
    ensures m != [] && !IsPySpace(m[0]) && !IsPySpace(m[|m| - 1])
    ensures !IsQuit(ToLower(m)) && ToLower(m) != "clear"
  {
    PerformSends(StepsOf(events), m);
    var j :| 0 <= j < |events| && StepsOf(events)[j] == DoSend(m);
    StepsOfIndex(events, j);
    StepOfLine(events[j].text);
  }

  /** What the user sees for one command. */
  datatype Outcome = Answered(reply: String) | ErrorShown(message: String) | Cleared

  /** The client's state: its history, the API's remaining answers, the requests sent and the
      file system. */
  datatype ClientState = ClientState(history: seq<Entry>, remote: seq<ApiResponse>, sent: seq<Request>, host: HostState)

  /** One command carried out on the client: what the user sees, and the client's state after
      it. `clear` empties the history and touches nothing else; a message is sent, and its
      reply or the text of its exception is shown. */
  function Effect(env: Setup, command: Command, c: ClientState): (Outcome, ClientState)
    requires SetupValid(env)
  {
    match command
    case Clear => (Cleared, c.(history := []))
    case Send(m) =>
      var conv := SendMessageSpec(env, m, c.history, c.remote, c.sent, c.host);
      (if conv.reply.Success? then Answered(conv.reply.value) else ErrorShown(conv.reply.error),
       ClientState(conv.history, conv.remote, conv.sent, conv.host))
  }

  /** The commands carried out one after the other on the client. */
  function Session(env: Setup, commands: seq<Command>, c: ClientState): (r: (seq<Outcome>, ClientState))
    requires SetupValid(env)
    ensures |r.0| == |commands|
  {
    if commands == [] then ([], c)
    else
      var (outcome, c1) := Effect(env, commands[0], c);
      var rest := Session(env, commands[1..], c1);
      ([outcome] + rest.0, rest.1)
  }

  /** A session runs its first command, then the others from the state that one leaves. */
  lemma SessionCons(env: Setup, command: Command, rest: seq<Command>, c: ClientState)
    requires SetupValid(env)
    ensures var (outcome, c1) := Effect(env, command, c);
            var r := Session(env, rest, c1);
            Session(env, [command] + rest, c) == ([outcome] + r.0, r.1)
  {
    assert ([command] + rest)[0] == command && ([command] + rest)[1..] == rest;
  }

  /** The outcome of every command is of its kind: `clear` is reported as such, and only it. */
  lemma {:induction false} SessionOutcomes(env: Setup, commands: seq<Command>, c: ClientState)
    requires SetupValid(env)
    ensures var r := Session(env, commands, c);
            forall i :: 0 <= i < |commands| ==> (r.0[i] == Cleared <==> commands[i] == Clear)
  {
    if commands != [] {
      var (outcome, c1) := Effect(env, commands[0], c);
      SessionOutcomes(env, commands[1..], c1);
      var r := Session(env, commands, c);
      forall i | 0 <= i < |commands| ensures r.0[i] == Cleared <==> commands[i] == Clear {
        if i > 0 {
          assert r.0[i] == Session(env, commands[1..], c1).0[i - 1];
          assert commands[i] == commands[1..][i - 1];
        }
      }
    }
  }

  /** The client's state, as Session sees it. */
  ghost function StateOf(client: LlmClient): ClientState
    reads client, client.host
  {
    ClientState(client.history, client.remote, client.sent, client.host.State())
  }

  /** One command on the client: `clear_history()`, or `send_message` with the reply or the
      exception's text shown. */
  method Carry(client: LlmClient, command: Command) returns (outcome: Outcome)
    requires client.registry.Valid()
    modifies client, client.host
    ensures (outcome, StateOf(client)) == Effect(client.Env(), command, old(StateOf(client)))
  {
    match command {
      case Clear =>
        client.ClearHistory();
        outcome := Cleared;
      case Send(m) =>
        var reply := client.SendMessage(m);
        outcome := if reply.Success? then Answered(reply.value) else ErrorShown(reply.error);
    }
  }

  /** The loop's handling of the line it reads: EOF and Ctrl-C stop it; a line is stripped,
      skipped when blank, stops the loop on `quit` or `exit`, clears on `clear`, and is sent
      otherwise. */
  method NextStep(events: seq<InputEvent>, i: nat) returns (step: Step)
    requires i < |events|
    ensures step == StepOf(events[i])
  {
    match events[i] {
      case EndOfInput => return Stop;
      case Interrupt => return Stop;
      case Line(t) =>
        var userInput := PyStrip(t);
        if userInput == [] {
          return Skip;
        }
        var lowered := ToLower(userInput);
        if IsQuit(lowered) {
          return Stop;
        }
        if lowered == "clear" {
          return DoClear;
        }
        return DoSend(userInput);
    }
  }

  function CommandsFrom(events: seq<InputEvent>, i: nat): seq<Command>
    requires i <= |events|
    decreases |events| - i
  {
    if i == |events| then []
    else match StepOf(events[i])
      case Stop => []
      case Skip => CommandsFrom(events, i + 1)
      case DoClear => [Clear] + CommandsFrom(events, i + 1)
      case DoSend(m) => [Send(m)] + CommandsFrom(events, i + 1)
  }

  lemma {:induction false} CommandsFromIsPerform(events: seq<InputEvent>, i: nat)
    requires i <= |events|
    ensures CommandsFrom(events, i) == Perform(StepsOf(events[i..]))
    decreases |events| - i
  {
    if i < |events| {
      CommandsFromIsPerform(events, i + 1);
      StepsOfFrom(events, i);
      var steps := StepsOf(events[i..]);
      assert steps[0] == StepOf(events[i]) && steps[1..] == StepsOf(events[i + 1..]);
    }
  }

  /** One round of the loop, on the `i`-th event. */
  method Advance(client: LlmClient, events: seq<InputEvent>, i: nat) returns (stop: bool, shown: seq<Outcome>)
    requires i < |events| && client.registry.Valid()
    modifies client, client.host
    ensures stop ==> CommandsFrom(events, i) == [] && shown == [] && StateOf(client) == old(StateOf(client))
    ensures !stop ==> var r := Session(client.Env(), CommandsFrom(events, i + 1), StateOf(client));
                      Session(client.Env(), CommandsFrom(events, i), old(StateOf(client))) == (shown + r.0, r.1)
  {
    var step := NextStep(events, i);
    if step == Stop {
      return true, [];
    }
    stop := false;
    ghost var rest := CommandsFrom(events, i + 1);
    if step == Skip {
      shown := [];
      assert CommandsFrom(events, i) == rest;
      assert [] + Session(client.Env(), rest, StateOf(client)).0 == Session(client.Env(), rest, StateOf(client)).0;
      return;
    }
    var command := if step == DoClear then Clear else Send(step.message);
    assert CommandsFrom(events, i) == [command] + rest;
    SessionCons(client.Env(), command, rest, StateOf(client));
    var outcome := Carry(client, command);
    shown := [outcome];
  }

  method RunAgentLoop(client: LlmClient, events: seq<InputEvent>) returns (outcomes: seq<Outcome>)
    requires client.registry.Valid()
    modifies client, client.host
    ensures var r := Session(client.Env(), Commands(events), old(StateOf(client)));
            outcomes == r.0 && StateOf(client) == r.1
  {
    ghost var env := client.Env();
    CommandsFromIsPerform(events, 0);
    assert events[0..] == events;
    ghost var total := Session(env, Commands(events), StateOf(client));
    ghost var pending := Session(env, CommandsFrom(events, 0), StateOf(client));
    assert pending == total;
    outcomes := [];
    var i := 0;
    assert [] + total.0 == total.0;
    while i < |events|
      invariant 0 <= i <= |events|
      invariant client.registry.Valid() && client.Env() == env
      invariant pending == Session(env, CommandsFrom(events, i), StateOf(client))
      invariant total == (outcomes + pending.0, pending.1)
    {
      var stop, shown := Advance(client, events, i);
      if stop {
        assert pending == Session(env, [], StateOf(client)) == ([], StateOf(client));
        assert outcomes + [] == outcomes;
        assert total == (outcomes, StateOf(client));
        return;
      }
      pending := Session(env, CommandsFrom(events, i + 1), StateOf(client));
      assert outcomes + (shown + pending.0) == (outcomes + shown) + pending.0;
      outcomes := outcomes + shown;
      i := i + 1;
    }
    assert outcomes + [] == outcomes;
  }
}
