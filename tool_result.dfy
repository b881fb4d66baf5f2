/** What a tool gives back (tools/base.py): the `ToolResult` record and its dictionary form, the
    fixed texts the tools report and the exceptions that escape them, and the binding of keyword
    arguments to a tool's `execute`. A result carries each text as a `Message` value, and
    `Render` spells it out with the wording the tools write. */
module ToolResults {

  import opened Wrappers
  import opened Text
  import opened Json
  import opened HostSystem

  /** An exception that escapes a tool's `execute`, by what raised it. */
  datatype Exception =
    | UnexpectedKeyword(qualname: String, keys: set<String>)   // binding the call: the unknown keywords
    | MissingArguments(qualname: String, missing: seq<String>) // binding the call: required parameters absent
    | NotAPath(value: JsonValue)                               // `os.fspath` on a path that is not text
    | CountNotStr(value: JsonValue)                            // `content.count(old_str)` on a non-text
    | ReplaceNotStr(value: JsonValue)                          // `content.replace(old_str, new_str)` on a non-text
    | WriteNotStr(value: JsonValue)                            // `f.write(content)` on a non-text
    | OsFailure(error: OsError)                                // an `OSError` the tool does not handle

  /** A text a tool reports, by the situation it reports. */
  datatype Message =
    | Verbatim(text: String)                            // a file's text, a command's output
    | NoOutput
    | PathRequired
    | NotAbsolute(path: Path)
    | FileMissing(path: Path)
    | NotAFile(path: Path)
    | Denied(path: Path)
    | ReadingDenied(path: Path)
    | WritingDenied(path: Path)
    | MakeDirDenied(path: Path)
    | NotText(path: Path)
    | AlreadyExists(path: Path)
    | Created(path: Path)
    | Edited(path: Path)
    | StringNotFound(oldStr: String)
    | NotUnique(occurrences: nat)
    | CommandRequired
    | ExitedWith(code: int, stderr: String)
    | TimedOut(seconds: String)
    | LaunchFailed(reason: String)
    | UnknownTool(name: String, available: seq<String>)
    | ExecutionFailed(exception: Exception)

  /** CPython's list of missing names: `'a'`, `'a' and 'b'`, `'a', 'b', and 'c'`. */
  function NameList(names: seq<String>): String
  {
    if |names| == 0 then ""
    else if |names| == 1 then Repr(names[0])
    else if |names| == 2 then Repr(names[0]) + " and " + Repr(names[1])
    else
      Join(seq(|names| - 1, i requires 0 <= i < |names| - 1 => Repr(names[i])), ", ")
      + ", and " + Repr(names[|names| - 1])
  }

  /** `str(e)` of an `OSError`: `[Errno 13] Permission denied: '/x'`. */
  function OsErrorText(e: OsError): String
  {
    "[Errno " + NatToString(Errno(e.kind)) + "] " + Strerror(e.kind) + ": " + Repr(e.path)
  }

  /** How CPython's generated argument checks name the type of a wrong argument: `None` for
      `None`, the type's name otherwise. */
  function ClinicTypeName(v: JsonValue): (r: String)
    ensures v == JNull ==> r == "None"
    ensures v != JNull ==> r == TypeName(v)
  {
    if v == JNull then "None" else TypeName(v)
  }

  /** `str(e)` of an escaping exception; it is never empty. */
  function ExceptionText(e: Exception): (r: String)
    ensures r != []
  {
    match e
    case UnexpectedKeyword(q, keys) =>
      q + "() got an unexpected keyword argument"
      + if exists k :: k in keys && keys == {k} then var k :| k in keys && keys == {k}; " " + Repr(k) else ""
    case MissingArguments(q, missing) =>
      q + "() missing " + NatToString(|missing|) + " required positional argument"
      + (if |missing| == 1 then "" else "s") + ": " + NameList(missing)
    case NotAPath(v) => "expected str, bytes or os.PathLike object, not " + TypeName(v)
    case CountNotStr(v) => "must be str, not " + TypeName(v)
    case ReplaceNotStr(v) => "replace() argument 2 must be str, not " + ClinicTypeName(v)
    case WriteNotStr(v) => "write() argument must be str, not " + ClinicTypeName(v)
    case OsFailure(error) => OsErrorText(error)
  }

  /** A `None` argument: `f.write` and `str.replace` name it `None`, while `os.fspath` names
      its type, `NoneType`. */
  lemma NoneArgumentTexts()
    ensures ExceptionText(WriteNotStr(JNull)) == "write() argument must be str, not None"
    ensures ExceptionText(ReplaceNotStr(JNull)) == "replace() argument 2 must be str, not None"
    ensures ExceptionText(NotAPath(JNull)) == "expected str, bytes or os.PathLike object, not NoneType"
  {
  }

  /** The first 100 characters of the searched string, marked with `...` when cut. */
  function Preview(oldStr: String): (r: String)
    ensures |oldStr| <= 100 ==> r == oldStr
    ensures |oldStr| > 100 ==> |r| == 103 && r[..100] == oldStr[..100] && r[100..] == "..."
  {
    if |oldStr| > 100 then oldStr[..100] + "..." else oldStr
  }

  /** An empty verbatim text is the only message that reads as nothing. */
  predicate Blank(m: Message)
  {
    m.Verbatim? && m.text == []
  }

  /** The text of a message, as the tools word it. */
  function Render(m: Message): (r: String)
    ensures r == [] <==> Blank(m)
  {
    match m
    case Verbatim(text) => text
    case NoOutput => "(no output)"
    case PathRequired => "Path parameter is required."
    case NotAbsolute(p) => "Path must be absolute. Received: " + p
    case FileMissing(p) => "File not found: " + p
    case NotAFile(p) => "Path is not a file: " + p
    case Denied(p) => "Permission denied: " + p
    case ReadingDenied(p) => "Permission denied reading: " + p
    case WritingDenied(p) => "Permission denied writing: " + p
    case MakeDirDenied(p) => "Permission denied creating directory: " + p
    case NotText(p) => "Cannot read file as text (binary file?): " + p
    case AlreadyExists(p) => "File already exists: " + p + ". Use Edit tool to modify existing files."
    case Created(p) => "Successfully created file: " + p
    case Edited(p) => "Successfully edited file: " + p
    case StringNotFound(o) => "String not found in file: '" + Preview(o) + "'"
    case NotUnique(n) =>
      "String found " + NatToString(n) + " times in file. It must be unique. Add more context to make it unique."
    case CommandRequired => "Command parameter is required."
    case ExitedWith(code, stderr) =>
      "Command exited with code " + IntToString(code) + (if stderr != [] then ": " + stderr else "")
    case TimedOut(seconds) => "Command timed out after " + seconds + " seconds."
    case LaunchFailed(reason) => "Failed to execute command: " + reason
    case UnknownTool(name, available) => "Unknown tool: " + name + ". Available tools: " + ReprList(available)
    case ExecutionFailed(e) => "Tool execution failed: " + ExceptionText(e)
  }

  datatype ToolResult = ToolResult(success: bool, output: Message, error: Option<Message>)

  /** A failed result as every tool writes it: empty output and an error. */
  function Failed(error: Message): ToolResult
  {
    ToolResult(false, Verbatim(""), Some(error))
  }

  /** A successful result: no error. */
  function Succeeded(output: Message): ToolResult
  {
    ToolResult(true, output, None)
  }

  /** The error as `to_dict` tests it: `None` and the empty string both read as no error. */
  function ErrorText(r: ToolResult): String
  {
    if r.error.Some? then Render(r.error.value) else ""
  }

  /** `to_dict`: `success` and `output` always, `error` only when the error is non-empty. */
  function ToDict(r: ToolResult): (d: map<String, JsonValue>)
    ensures d.Keys <= {"success", "output", "error"}
    ensures "success" in d && d["success"] == JBool(r.success)
    ensures "output" in d && d["output"] == JString(Render(r.output))
    ensures "error" in d <==> ErrorText(r) != []
    ensures "error" in d ==> d["error"] == JString(ErrorText(r))
  {
    var base := map["success" := JBool(r.success), "output" := JString(Render(r.output))];
    if r.error.Some? && !Blank(r.error.value) then base["error" := JString(Render(r.error.value))] else base
  }

  /** The dictionary form forgets exactly how the texts were made and the difference between
      no error and an empty one. */
  lemma ToDictInjective(a: ToolResult, b: ToolResult)
    ensures ToDict(a) == ToDict(b) <==>
            a.success == b.success && Render(a.output) == Render(b.output) && ErrorText(a) == ErrorText(b)
  {
    if ToDict(a) == ToDict(b) {
      assert ToDict(a)["success"] == ToDict(b)["success"];
      assert ToDict(a)["output"] == ToDict(b)["output"];
      if ErrorText(a) != [] {
        assert ToDict(b)["error"] == JString(ErrorText(a));
      }
    }
  }

  /** How a call to a tool's `execute` ends: it returns a result, or an exception escapes it. */
  datatype ToolOutcome = Returned(result: ToolResult) | Raised(exception: Exception)

  type KwArgs = map<String, JsonValue>

  /** The parameters of a tool's `execute` after `self`, in declaration order; the first
      `required` of them have no default. */
  datatype Signature = Signature(qualname: String, params: seq<String>, required: nat)

  /** The required parameters that `kwargs` does not supply, in declaration order. */
  function MissingParams(names: seq<String>, kwargs: KwArgs): (m: seq<String>)
    ensures |m| <= |names|
    ensures forall x :: x in m <==> x in names && x !in kwargs
  {
    if names == [] then []
    else
      var rest := MissingParams(names[1..], kwargs);
      assert forall x :: x in names <==> x == names[0] || x in names[1..];
      if names[0] in kwargs then rest else [names[0]] + rest
  }

  /** The keywords of the call that name no parameter. */
  function UnknownKeys(sig: Signature, kwargs: KwArgs): (keys: set<String>)
    ensures forall k :: k in keys <==> k in kwargs && k !in sig.params
  {
    set k | k in kwargs && k !in sig.params
  }

  /** The `TypeError` that calling `execute(**kwargs)` raises before the body runs, if any: an
      unexpected keyword is reported before missing arguments. */
  function BindingError(sig: Signature, kwargs: KwArgs): (r: Option<Exception>)
    requires sig.required <= |sig.params|
    ensures r.None? <==>
            (forall k :: k in kwargs ==> k in sig.params)
            && (forall i :: 0 <= i < sig.required ==> sig.params[i] in kwargs)
    ensures UnknownKeys(sig, kwargs) != {} ==> r == Some(UnexpectedKeyword(sig.qualname, UnknownKeys(sig, kwargs)))
    ensures r.Some? && r.value.MissingArguments? ==>
            r.value.qualname == sig.qualname && r.value.missing != []
            && forall x :: x in r.value.missing <==> x in sig.params[..sig.required] && x !in kwargs
  {
    var missing := MissingParams(sig.params[..sig.required], kwargs);
    var unknown := UnknownKeys(sig, kwargs);
    if unknown != {} then
      Some(UnexpectedKeyword(sig.qualname, unknown))
    else if missing != [] then
      PrefixMember(sig.params, sig.required, missing[0]);
      Some(MissingArguments(sig.qualname, missing))
    else
      assert forall i :: 0 <= i < sig.required ==> sig.params[..sig.required][i] == sig.params[i];
      None
  }

  /** A call with a single unknown keyword `k` raises the `TypeError` that names `k`:
      `ReadTool.execute() got an unexpected keyword argument 'foo'`. */
  lemma OneUnknownKeywordNamed(sig: Signature, kwargs: KwArgs, k: String)
    requires sig.required <= |sig.params|
    requires k in kwargs && k !in sig.params
    requires forall j :: j in kwargs && j != k ==> j in sig.params
    ensures BindingError(sig, kwargs) == Some(UnexpectedKeyword(sig.qualname, {k}))
    ensures ExceptionText(BindingError(sig, kwargs).value)
            == sig.qualname + "() got an unexpected keyword argument " + Repr(k)
  {
    assert UnknownKeys(sig, kwargs) == {k};
  }

  lemma PrefixMember(s: seq<String>, n: nat, x: String)
    requires n <= |s| && x in s[..n]
    ensures exists i :: 0 <= i < n && s[i] == x
  {
    var i :| 0 <= i < n && s[..n][i] == x;
  }

  /** The argument a call binds to parameter `name`: the keyword value, else the default. */
  function ArgOr(kwargs: KwArgs, name: String, default: JsonValue): JsonValue
  {
    if name in kwargs then kwargs[name] else default
  }
}
