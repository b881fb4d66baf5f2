/** The Write tool (tools/write.py): a guard ladder over the path, then the missing parent
    directories, then the new file. `Run` states the whole call as a function of the file
    system; `Execute` carries it out on a `Host`. */
module WriteTool {

  import opened Wrappers
  import opened Text
  import opened Json
  import opened ToolResults
  import opened HostSystem

  const Sig: Signature := Signature("WriteTool.execute", ["path", "content"], 2)

  /** The parent directory step: `os.makedirs(parent, exist_ok=True)` when the parent is named
      and missing, nothing otherwise. */
  function PrepareParent(s: HostState, p: Path): (r: (Option<OsError>, HostState))
    ensures r.1.files == s.files && s.dirs <= r.1.dirs
    ensures r.1.unreadable == s.unreadable && r.1.unwritable == s.unwritable
    ensures p !in s.dirs ==> p !in r.1.dirs
  {
    var parent := Dirname(p);
    PathNotMadeWithParent(s, p);
    if parent != [] && !Exists(s, parent) then AfterMakeDirs(s, parent) else (None, s)
  }

  /** Making the parent directory's missing ancestors never makes the path itself. */
  lemma PathNotMadeWithParent(s: HostState, p: Path)
    ensures p !in s.dirs ==> p !in AfterMakeDirs(s, Dirname(p)).1.dirs
  {
  }

  /** Creating the new file `p` once the guards have passed: the parent directory, `open`, then
      `f.write`. */
  function Create(p: Path, content: JsonValue, s: HostState): (ToolOutcome, HostState)
  {
    var (dirError, s1) := PrepareParent(s, p);
    if dirError.Some? then
      if dirError.value.kind == PermissionDenied then
        (Returned(Failed(MakeDirDenied(Dirname(p)))), s1)
      else (Raised(OsFailure(dirError.value)), s1)
    else
      var (openError, s2) := AfterOpenForWrite(s1, p);
      if openError.Some? then
        if openError.value.kind == PermissionDenied then (Returned(Failed(Denied(p))), s2)
        else (Raised(OsFailure(openError.value)), s2)
      else if !content.JString? then (Raised(WriteNotStr(content)), s2)
      else (Returned(Succeeded(Created(p))),
            s2.(files := s2.files[p := TextFile(content.s)]))
  }

  /** `WriteTool().execute(**kwargs)`: its outcome and the file system after it. */
  function Run(kwargs: KwArgs, s: HostState): (ToolOutcome, HostState)
  {
    match BindingError(Sig, kwargs)
    case Some(e) => (Raised(e), s)
    case None =>
      assert Sig.params[0] in kwargs && Sig.params[1] in kwargs;
      var path := kwargs["path"];
      var content := kwargs["content"];
      if !Truthy(path) then (Returned(Failed(PathRequired)), s)
      else if !path.JString? then (Raised(NotAPath(path)), s)
      else if !IsAbs(path.s) then (Returned(Failed(NotAbsolute(path.s))), s)
      else if Exists(s, path.s) then (Returned(Failed(AlreadyExists(path.s))), s)
      else Create(path.s, content, s)
  }

  /** `WriteTool().execute(**kwargs)` on the host. */
  method Execute(host: Host, kwargs: KwArgs) returns (o: ToolOutcome)
    modifies host
    ensures (o, host.State()) == Run(kwargs, old(host.State()))
  {
    var bindingError := BindingError(Sig, kwargs);
    if bindingError.Some? {
      return Raised(bindingError.value);
    }
    assert Sig.params[0] in kwargs && Sig.params[1] in kwargs;
    var path := kwargs["path"];
    var content := kwargs["content"];
    if !Truthy(path) {
      return Returned(Failed(PathRequired));
    }
    if !path.JString? {
      return Raised(NotAPath(path));
    }
    var p := path.s;
    if !IsAbs(p) {
      return Returned(Failed(NotAbsolute(p)));
    }
    if p in host.files || p in host.dirs {
      return Returned(Failed(AlreadyExists(p)));
    }
    var parent := Dirname(p);
    if parent != [] && !(parent in host.files || parent in host.dirs) {
      var dirError := host.MakeDirs(parent);
      if dirError.Some? {
        if dirError.value.kind == PermissionDenied {
          return Returned(Failed(MakeDirDenied(parent)));
        }
        return Raised(OsFailure(dirError.value));
      }
    }
    var openError := host.OpenForWrite(p);
    if openError.Some? {
      if openError.value.kind == PermissionDenied {
        return Returned(Failed(Denied(p)));
      }
      return Raised(OsFailure(openError.value));
    }
    if !content.JString? {
      return Raised(WriteNotStr(content));
    }
    host.WriteText(p, content.s);
    o := Returned(Succeeded(Created(p)));
  }

  /** The call `execute(path=p, content=c)`. */
  function Args(p: String, c: String): KwArgs
  {
    map["path" := JString(p), "content" := JString(c)]
  }

  /** Write never overwrites: an existing path, file or directory, is refused and nothing
      changes. */
  lemma WriteNeverOverwrites(p: String, c: String, s: HostState)
    requires IsAbs(p) && Exists(s, p)
    ensures Run(Args(p, c), s) == (Returned(Failed(AlreadyExists(p))), s)
  {
    WriteArgsBind(p, c);
  }

  /** Creating a new file succeeds exactly when its parent directory can be made and a file
      can be created in it; the new file then holds exactly the content, every other file is
      as it was, and the parent directory exists. */
  lemma CreateSucceedsIff(p: Path, c: String, s: HostState)
    requires !Exists(s, p)
    ensures var (o, s') := Create(p, JString(c), s);
            o.Returned? && o.result.success <==>
            PrepareParent(s, p).0.None? && CreateError(PrepareParent(s, p).1, p).None?
    ensures var (o, s') := Create(p, JString(c), s);
            o.Returned? && o.result.success ==>
            && s'.files == s.files[p := TextFile(c)]
            && s.dirs <= s'.dirs && IsDir(s', Dirname(p))
            && o.result == Succeeded(Created(p))
  {
  }

  /** A write succeeds exactly when the path is absolute and new and the file can be created. */
  lemma WriteSucceedsIff(p: String, c: String, s: HostState)
    ensures Run(Args(p, c), s).0.Returned? && Run(Args(p, c), s).0.result.success <==>
            IsAbs(p) && !Exists(s, p) && PrepareParent(s, p).0.None?
            && CreateError(PrepareParent(s, p).1, p).None?
    ensures IsAbs(p) && !Exists(s, p) ==> Run(Args(p, c), s) == Create(p, JString(c), s)
  {
    WritePastGuards(p, c, s);
    if IsAbs(p) && !Exists(s, p) {
      CreateSucceedsIff(p, c, s);
    }
  }

  /** The guards of a call `execute(path=p, content=c)`, in order, and then the creation. */
  lemma WritePastGuards(p: String, c: String, s: HostState)
    ensures Run(Args(p, c), s)
            == if p == [] then (Returned(Failed(PathRequired)), s)
               else if !IsAbs(p) then (Returned(Failed(NotAbsolute(p))), s)
               else if Exists(s, p) then (Returned(Failed(AlreadyExists(p))), s)
               else Create(p, JString(c), s)
  {
    WriteArgsBind(p, c);
  }

  /** The call `execute(path=p, content=c)` binds every parameter. */
  lemma WriteArgsBind(p: String, c: String)
    ensures BindingError(Sig, Args(p, c)).None?
  {
  }

  /** A returned failure leaves every file as it was: in particular, refusing to create the
      parent directory writes no file. */
  lemma WriteFailureWritesNothing(kwargs: KwArgs, s: HostState)
    ensures var (o, s') := Run(kwargs, s);
            o.Returned? && !o.result.success ==> s'.files == s.files
  {
  }

  /** The one exception that leaves a file behind: content that is not text, raised by
      `f.write` after `open` created the file empty. */
  lemma NonTextContentLeavesEmptyFile(p: Path, content: JsonValue, s: HostState)
    requires !Exists(s, p) && !content.JString?
    requires PrepareParent(s, p).0.None? && CreateError(PrepareParent(s, p).1, p).None?
    ensures Create(p, content, s).0 == Raised(WriteNotStr(content))
    ensures Create(p, content, s).1.files == s.files[p := TextFile("")]
  {
  }
}
