/** The tool registry (tools/base.py): tools by name in registration order, their schemas, and
    the dispatch of a call by name that turns every failure into a failed `ToolResult`. */
module ToolRegistries {

  import opened Wrappers
  import opened Text
  import opened Json
  import opened ToolResults
  import opened HostSystem
  import ReadTool
  import WriteTool
  import EditTool
  import BashTool

  /** The four tools of the repository. */
  datatype Tool = Read | Write | Edit | Bash

  function NameOf(t: Tool): String
  {
    match t
    case Read => "Read"
    case Write => "Write"
    case Edit => "Edit"
    case Bash => "Bash"
  }

  function DescriptionOf(t: Tool): String
  {
    match t
    case Read => "Read the contents of a file at the given path."
    case Write => "Create a new file with the specified content. Fails if the file already exists."
    case Edit => "Edit an existing file by replacing a specific string with new content."
    case Bash => "Execute a bash command and return its output."
  }

  function SignatureOf(t: Tool): Signature
  {
    match t
    case Read => ReadTool.Sig
    case Write => WriteTool.Sig
    case Edit => EditTool.Sig
    case Bash => BashTool.Sig
  }

  /** A tool's schema in the Anthropic format: name, description, and the names of the input
      properties and of the required ones. */
  datatype Schema = Schema(name: String, description: String, properties: seq<String>, required: seq<String>)

  function SchemaOf(t: Tool): (s: Schema)
    ensures s.name == NameOf(t)
    ensures s.required <= s.properties
  {
    var sig := SignatureOf(t);
    Schema(NameOf(t), DescriptionOf(t), sig.params, sig.params[..sig.required])
  }

  /** The schemas of the tools registered under `names`, in that order. */
  function Schemas(tools: map<String, Tool>, names: seq<String>): (r: seq<Schema>)
    requires forall i :: 0 <= i < |names| ==> names[i] in tools
    ensures |r| == |names|
    ensures forall i :: 0 <= i < |r| ==> r[i] == SchemaOf(tools[names[i]])
  {
    if names == [] then [] else [SchemaOf(tools[names[0]])] + Schemas(tools, names[1..])
  }

  /** `tool.execute(**kwargs)`: its outcome and the file system after it. */
  function RunTool(t: Tool, kwargs: KwArgs, s: HostState, shell: Shell): (ToolOutcome, HostState)
  {
    match t
    case Read => (ReadTool.Execute(kwargs, s), s)
    case Write => WriteTool.Run(kwargs, s)
    case Edit => EditTool.Run(kwargs, s)
    case Bash => BashTool.Run(kwargs, s, shell)
  }

  /** `ToolRegistry.execute(name, **kwargs)` on a registry holding `tools` with names `names`
      in registration order: an unknown name runs nothing, and an exception from the tool
      becomes a failed result. */
  function Dispatch(tools: map<String, Tool>, names: seq<String>, name: String, kwargs: KwArgs,
                    s: HostState, shell: Shell): (ToolResult, HostState)
  {
    if name !in tools then (Failed(UnknownTool(name, names)), s)
    else
      var (outcome, s') := RunTool(tools[name], kwargs, s, shell);
      match outcome
      case Returned(r) => (r, s')
      case Raised(e) => (Failed(ExecutionFailed(e)), s')
  }

  /** An unknown name gives a failure naming the available tools, and nothing runs. */
  lemma UnknownToolRunsNothing(tools: map<String, Tool>, names: seq<String>, name: String,
                               kwargs: KwArgs, s: HostState, shell: Shell)
    requires name !in tools
    ensures Dispatch(tools, names, name, kwargs, s, shell)
            == (Failed(UnknownTool(name, names)), s)
  {
  }

  /** Dispatch passes on what the tool returns, and turns what it raises into a failure with
      empty output: no exception gets out. */
  lemma DispatchCatches(tools: map<String, Tool>, names: seq<String>, name: String,
                        kwargs: KwArgs, s: HostState, shell: Shell)
    requires name in tools
    ensures var (outcome, s') := RunTool(tools[name], kwargs, s, shell);
            && (outcome.Returned? ==> Dispatch(tools, names, name, kwargs, s, shell) == (outcome.result, s'))
            && (outcome.Raised? ==> Dispatch(tools, names, name, kwargs, s, shell)
                                    == (Failed(ExecutionFailed(outcome.exception)), s'))
  {
  }

  /** A Read call, through the registry, never changes the file system. */
  lemma ReadThroughRegistryChangesNothing(tools: map<String, Tool>, names: seq<String>, name: String,
                                          kwargs: KwArgs, s: HostState, shell: Shell)
    requires name in tools && tools[name] == Read
    ensures Dispatch(tools, names, name, kwargs, s, shell).1 == s
  {
  }

  class ToolRegistry {
    /** `_tools`, a dictionary: its keys and values ... */
    var tools: map<String, Tool>
    /** ... and its keys in insertion order. */
    var names: seq<String>

    ghost predicate Valid()
      reads this
    {
      && (forall i, j :: 0 <= i < j < |names| ==> names[i] != names[j])
      && (forall n :: n in tools <==> n in names)
    }

    constructor ()
      ensures Valid() && tools == map[] && names == []
    {
      tools := map[];
      names := [];
    }

    /** `register(tool)`: the name now maps to `tool`; a new name goes last, a known one keeps
        its place and loses its earlier tool; every other entry is kept. */
    method Register(t: Tool)
      requires Valid()
      modifies this
      ensures Valid()
      ensures tools == old(tools)[NameOf(t) := t]
      ensures NameOf(t) in old(tools) ==> names == old(names)
      ensures NameOf(t) !in old(tools) ==> names == old(names) + [NameOf(t)]
      ensures GetTool(NameOf(t)) == Some(t)
    {
      var name := NameOf(t);
      if name !in tools {
        names := names + [name];
      }
      tools := tools[name := t];
    }

    /** `get_tool(name)`: the tool registered under `name`, or `None`. */
    function GetTool(name: String): (r: Option<Tool>)
      reads this
      ensures r.Some? <==> name in tools
      ensures r.Some? ==> r.value == tools[name]
    {
      if name in tools then Some(tools[name]) else None
    }

    /** `list_tools()`: every registered name once, in order of first registration. */
    function ListTools(): (r: seq<String>)
      reads this
      requires Valid()
      ensures forall n :: n in r <==> n in tools
      ensures forall i, j :: 0 <= i < j < |r| ==> r[i] != r[j]
      ensures r == names
    {
      names
    }

    /** `get_all_schemas()`: one schema per registered tool, in the order of `list_tools()`. */
    function GetAllSchemas(): (r: seq<Schema>)
      reads this
      requires Valid()
      ensures |r| == |ListTools()|
      ensures forall i :: 0 <= i < |r| ==> r[i] == SchemaOf(tools[ListTools()[i]]) && r[i].name == NameOf(tools[ListTools()[i]])
    {
      assert forall i :: 0 <= i < |names| ==> names[i] in tools;
      Schemas(tools, names)
    }

    /** `execute(name, **kwargs)` on the host. */
    method Execute(host: Host, name: String, kwargs: KwArgs) returns (r: ToolResult)
      requires Valid()
      modifies host
      ensures (r, host.State()) == Dispatch(tools, names, name, kwargs, old(host.State()), host.shell)
    {
      var tool := GetTool(name);
      if tool.None? {
        return Failed(UnknownTool(name, ListTools()));
      }
      var outcome: ToolOutcome;
      match tool.value {
        case Read => outcome := ReadTool.Execute(kwargs, host.State());
        case Write => outcome := WriteTool.Execute(host, kwargs);
        case Edit => outcome := EditTool.Execute(host, kwargs);
        case Bash => outcome := BashTool.Execute(host, kwargs);
      }
      match outcome {
        case Returned(result) => r := result;
        case Raised(e) => r := Failed(ExecutionFailed(e));
      }
    }
  }
}
