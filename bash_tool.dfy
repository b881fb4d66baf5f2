/** The Bash tool (tools/bash.py): the command guard, the timeout normalisation, the run on
    the host's shell, and the shaping of what the process gave back into a result. */
module BashTool {

  import opened Wrappers
  import opened Text
  import opened Json
  import opened ToolResults
  import opened HostSystem

  const Sig: Signature := Signature("BashTool.execute", ["command", "timeout"], 1)

  const DefaultTimeout: int := 30
  const MaxTimeout: int := 300

  /** The timeout the command runs under: 30 for a value that is not an `int` (a `bool` is
      one) or is below 1, at most 300, and the given value otherwise. */
  function EffectiveTimeout(t: JsonValue): (r: JsonValue)
    ensures IsPyInt(r) && 1 <= IntValue(r) <= MaxTimeout
    ensures IsPyInt(t) && 1 <= IntValue(t) <= MaxTimeout ==> r == t
    ensures !IsPyInt(t) || IntValue(t) < 1 ==> r == JInt(DefaultTimeout)
    ensures IsPyInt(t) && IntValue(t) > MaxTimeout ==> r == JInt(MaxTimeout)
  {
    var t1 := if !IsPyInt(t) || IntValue(t) < 1 then JInt(DefaultTimeout) else t;
    if IntValue(t1) > MaxTimeout then JInt(MaxTimeout) else t1
  }

  /** `s.strip() if s else ""` for a captured stream that may be `None`. */
  function Stream(captured: Option<String>): String
  {
    if captured.Some? && captured.value != [] then PyStrip(captured.value) else ""
  }

  /** The output of a command that exited with 0: its stripped stdout, then its stripped
      stderr after a `[stderr]` marker when there is any. */
  function SuccessOutput(stdout: String, stderr: String): String
  {
    stdout + (if stderr != [] then "\n[stderr]: " + stderr else "")
  }

  /** What the tool returns for an outcome of `subprocess.run` under `timeout`. */
  function Shape(outcome: ProcessOutcome, timeout: JsonValue): ToolResult
    requires IsPyInt(timeout)
  {
    match outcome
    case Completed(code, out, err) =>
      var stdout := Stream(out);
      var stderr := Stream(err);
      if code == 0 then
        var output := SuccessOutput(stdout, stderr);
        Succeeded(if output != [] then Verbatim(output) else NoOutput)
      else ToolResult(false, Verbatim(stdout), Some(ExitedWith(code, stderr)))
    case TimeoutExpired => Failed(TimedOut(IntText(timeout)))
    case Crashed(message) => Failed(LaunchFailed(message))
  }

  /** `BashTool().execute(**kwargs)` with `subprocess.run` answered by `shell`: its outcome and
      the file system the command leaves behind. */
  function Run(kwargs: KwArgs, s: HostState, shell: Shell): (ToolOutcome, HostState)
  {
    match BindingError(Sig, kwargs)
    case Some(e) => (Raised(e), s)
    case None =>
      assert Sig.params[0] in kwargs;
      var command := kwargs["command"];
      if !Truthy(command) then (Returned(Failed(CommandRequired)), s)
      else
        var timeout := EffectiveTimeout(ArgOr(kwargs, "timeout", JInt(DefaultTimeout)));
        var (outcome, s') := shell(command, timeout, s);
        (Returned(Shape(outcome, timeout)), s')
  }

  /** `BashTool().execute(**kwargs)` on the host. */
  method Execute(host: Host, kwargs: KwArgs) returns (o: ToolOutcome)
    modifies host
    ensures (o, host.State()) == Run(kwargs, old(host.State()), host.shell)
  {
    var bindingError := BindingError(Sig, kwargs);
    if bindingError.Some? {
      return Raised(bindingError.value);
    }
    assert Sig.params[0] in kwargs;
    var command := kwargs["command"];
    if !Truthy(command) {
      return Returned(Failed(CommandRequired));
    }
    var timeout := EffectiveTimeout(ArgOr(kwargs, "timeout", JInt(DefaultTimeout)));
    var outcome := host.Run(command, timeout);
    o := Returned(Shape(outcome, timeout));
  }

  /** An empty command is refused before the shell is asked: nothing runs, nothing changes. */
  lemma EmptyCommandRunsNothing(kwargs: KwArgs, s: HostState, shell: Shell)
    requires "command" in kwargs && kwargs.Keys <= {"command", "timeout"}
    requires !Truthy(kwargs["command"])
    ensures Run(kwargs, s, shell) == (Returned(Failed(CommandRequired)), s)
  {
    assert BindingError(Sig, kwargs).None?;
  }

  /** Exit code 0 is a success with no error; its output is `(no output)` when stdout and
      stderr are both empty after stripping, and otherwise the stripped stdout followed, when
      stderr is not empty, by a `[stderr]` marker and the stripped stderr. */
  lemma ZeroExitSucceeds(out: Option<String>, err: Option<String>, timeout: JsonValue)
    requires IsPyInt(timeout)
    ensures var r := Shape(Completed(0, out, err), timeout);
            && r.success && r.error.None?
            && (Stream(out) == [] && Stream(err) == [] ==> r.output == NoOutput)
            && (Stream(out) != [] && Stream(err) == [] ==> r.output == Verbatim(Stream(out)))
            && (Stream(err) != [] ==> r.output == Verbatim(Stream(out) + "\n[stderr]: " + Stream(err)))
  {
  }

  /** A non-zero exit fails, keeps the stripped stdout as output, and names the code, followed
      by the stripped stderr when there is any. */
  lemma NonZeroExitFails(code: int, out: Option<String>, err: Option<String>, timeout: JsonValue)
    requires IsPyInt(timeout) && code != 0
    ensures Shape(Completed(code, out, err), timeout)
            == ToolResult(false, Verbatim(Stream(out)), Some(ExitedWith(code, Stream(err))))
  {
  }

  /** A timeout fails with a message that names the normalised timeout, which lies in
      [1, 300]. */
  lemma TimeoutNamesNormalisedValue(kwargs: KwArgs, s: HostState, shell: Shell)
    requires "command" in kwargs && kwargs.Keys <= {"command", "timeout"} && Truthy(kwargs["command"])
    requires var t := EffectiveTimeout(ArgOr(kwargs, "timeout", JInt(DefaultTimeout)));
             shell(kwargs["command"], t, s).0 == TimeoutExpired
    ensures var t := EffectiveTimeout(ArgOr(kwargs, "timeout", JInt(DefaultTimeout)));
            && 1 <= IntValue(t) <= MaxTimeout
            && Run(kwargs, s, shell).0
               == Returned(Failed(TimedOut(IntText(t))))
  {
    assert BindingError(Sig, kwargs).None?;
  }
}
