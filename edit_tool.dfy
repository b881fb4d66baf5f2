/** The Edit tool (tools/edit.py): a guard ladder over the path, the file's text, the number
    of occurrences of `old_str`, and the rewrite when there is exactly one. `Run` states the
    whole call as a function of the file system; `Execute` carries it out on a `Host`. */
module EditTool {

  import opened Wrappers
  import opened Text
  import opened Json
  import opened ToolResults
  import opened HostSystem

  const Sig: Signature := Signature("EditTool.execute", ["path", "old_str", "new_str"], 3)

  /** The rewrite once the file's text `content` is read: count, then replace and write. */
  function Rewrite(p: Path, content: String, oldStr: JsonValue, newStr: JsonValue, s: HostState)
    : (ToolOutcome, HostState)
  {
    if !oldStr.JString? then (Raised(CountNotStr(oldStr)), s)
    else
      var occurrences := Count(content, oldStr.s);
      if occurrences == 0 then (Returned(Failed(StringNotFound(oldStr.s))), s)
      else if occurrences > 1 then (Returned(Failed(NotUnique(occurrences))), s)
      else if !newStr.JString? then (Raised(ReplaceNotStr(newStr)), s)
      else
        var newContent := Replace(content, oldStr.s, newStr.s);
        var (openError, s1) := AfterOpenForWrite(s, p);
        if openError.Some? then
          if openError.value.kind == PermissionDenied then
            (Returned(Failed(WritingDenied(p))), s1)
          else (Raised(OsFailure(openError.value)), s1)
        else (Returned(Succeeded(Edited(p))),
              s1.(files := s1.files[p := TextFile(newContent)]))
  }

  /** `EditTool().execute(**kwargs)`: its outcome and the file system after it. */
  function Run(kwargs: KwArgs, s: HostState): (ToolOutcome, HostState)
  {
    match BindingError(Sig, kwargs)
    case Some(e) => (Raised(e), s)
    case None =>
      assert Sig.params[0] in kwargs && Sig.params[1] in kwargs && Sig.params[2] in kwargs;
      var path := kwargs["path"];
      if !Truthy(path) then (Returned(Failed(PathRequired)), s)
      else if !path.JString? then (Raised(NotAPath(path)), s)
      else
        var p := path.s;
        if !IsAbs(p) then (Returned(Failed(NotAbsolute(p))), s)
        else if !Exists(s, p) then (Returned(Failed(FileMissing(p))), s)
        else if !IsFile(s, p) then (Returned(Failed(NotAFile(p))), s)
        else AfterRead(p, ReadText(s, p), kwargs["old_str"], kwargs["new_str"], s)
  }

  /** What follows the reading of the file's text: a permission error and a file that is not
      UTF-8 are reported, another `OSError` escapes, and a text goes on to the rewrite. */
  function AfterRead(p: Path, read: Result<String, ReadFailure>, oldStr: JsonValue, newStr: JsonValue,
                     s: HostState): (ToolOutcome, HostState)
  {
    match read
    case Failure(OpenFailed(e)) =>
      if e.kind == PermissionDenied then (Returned(Failed(ReadingDenied(p))), s)
      else (Raised(OsFailure(e)), s)
    case Failure(DecodeFailed) =>
      (Returned(Failed(NotText(p))), s)
    case Success(content) => Rewrite(p, content, oldStr, newStr, s)
  }

  /** `EditTool().execute(**kwargs)` on the host. */
  method Execute(host: Host, kwargs: KwArgs) returns (o: ToolOutcome)
    modifies host
    ensures (o, host.State()) == Run(kwargs, old(host.State()))
  {
    var bindingError := BindingError(Sig, kwargs);
    if bindingError.Some? {
      return Raised(bindingError.value);
    }
    assert Sig.params[0] in kwargs && Sig.params[1] in kwargs && Sig.params[2] in kwargs;
    var path := kwargs["path"];
    var oldStr := kwargs["old_str"];
    var newStr := kwargs["new_str"];
    if !Truthy(path) {
      return Returned(Failed(PathRequired));
    }
    if !path.JString? {
      return Raised(NotAPath(path));
    }
    var p := path.s;
    if !IsAbs(p) {
      return Returned(Failed(NotAbsolute(p)));
    }
    if !(p in host.files || p in host.dirs) {
      return Returned(Failed(FileMissing(p)));
    }
    if p !in host.files {
      return Returned(Failed(NotAFile(p)));
    }
    var read := ReadText(host.State(), p);
    if read.Failure? {
      match read.error {
        case OpenFailed(e) =>
          if e.kind == PermissionDenied {
            return Returned(Failed(ReadingDenied(p)));
          }
          return Raised(OsFailure(e));
        case DecodeFailed =>
          return Returned(Failed(NotText(p)));
      }
    }
    var content := read.value;
    if !oldStr.JString? {
      return Raised(CountNotStr(oldStr));
    }
    var occurrences := Count(content, oldStr.s);
    if occurrences == 0 {
      return Returned(Failed(StringNotFound(oldStr.s)));
    }
    if occurrences > 1 {
      return Returned(Failed(NotUnique(occurrences)));
    }
    if !newStr.JString? {
      return Raised(ReplaceNotStr(newStr));
    }
    var newContent := Replace(content, oldStr.s, newStr.s);
    var openError := host.OpenForWrite(p);
    if openError.Some? {
      if openError.value.kind == PermissionDenied {
        return Returned(Failed(WritingDenied(p)));
      }
      return Raised(OsFailure(openError.value));
    }
    host.WriteText(p, newContent);
    o := Returned(Succeeded(Edited(p)));
  }

  /** The call `execute(path=p, old_str=o, new_str=n)`. */
  function Args(p: String, o: String, n: String): KwArgs
  {
    map["path" := JString(p), "old_str" := JString(o), "new_str" := JString(n)]
  }

  /** Exactly one occurrence: the file becomes the text before it, `n`, and the text after it,
      and no other file changes. */
  lemma EditUniqueOccurrence(p: Path, content: String, o: String, n: String, s: HostState)
    requires p in s.files && s.files[p] == TextFile(content) && p !in s.dirs && p !in s.unwritable
    requires Count(content, o) == 1
    ensures Contains(content, o)
    ensures var i := FirstOccurrence(content, o);
            Rewrite(p, content, JString(o), JString(n), s)
            == (Returned(Succeeded(Edited(p))),
                s.(files := s.files[p := TextFile(content[..i] + n + content[i + |o|..])]))
  {
    ReplaceSingle(content, o, n);
    var c' := Replace(content, o, n);
    assert s.files[p := TextFile("")][p := TextFile(c')] == s.files[p := TextFile(c')];
  }

  /** No occurrence, or more than one: a failure that leaves the file system as it was; the
      second one reports the count. */
  lemma EditNotUnique(p: Path, content: String, o: String, n: JsonValue, s: HostState)
    ensures Count(content, o) == 0 ==>
            Rewrite(p, content, JString(o), n, s) == (Returned(Failed(StringNotFound(o))), s)
    ensures Count(content, o) > 1 ==>
            Rewrite(p, content, JString(o), n, s)
            == (Returned(Failed(NotUnique(Count(content, o)))), s)
  {
  }

  /** Python counts the empty string `len(content) + 1` times: an empty `old_str` is refused as
      not unique in a non-empty file, and turns an empty file into `n`. */
  lemma EditEmptyOldStr(p: Path, content: String, n: String, s: HostState)
    requires p in s.files && s.files[p] == TextFile(content) && p !in s.dirs && p !in s.unwritable
    ensures content != [] ==>
            Rewrite(p, content, JString(""), JString(n), s)
            == (Returned(Failed(NotUnique(|content| + 1))), s)
    ensures content == [] ==>
            Rewrite(p, content, JString(""), JString(n), s).1.files == s.files[p := TextFile(n)]
  {
    if content == [] {
      EditUniqueOccurrence(p, content, "", n, s);
      assert content[..0] + n + content[0..] == n;
    }
  }

  /** The guards fire in order, before the file is read: empty path, relative path, missing
      path, path that is not a file; none of them changes the file system. */
  lemma EditGuardOrder(p: String, o: String, n: String, s: HostState)
    ensures p == [] ==> Run(Args(p, o, n), s) == (Returned(Failed(PathRequired)), s)
    ensures p != [] && !IsAbs(p) ==>
            Run(Args(p, o, n), s) == (Returned(Failed(NotAbsolute(p))), s)
    ensures p != [] && IsAbs(p) && !Exists(s, p) ==>
            Run(Args(p, o, n), s) == (Returned(Failed(FileMissing(p))), s)
    ensures p != [] && IsAbs(p) && p !in s.files && p in s.dirs ==>
            Run(Args(p, o, n), s) == (Returned(Failed(NotAFile(p))), s)
  {
    assert BindingError(Sig, Args(p, o, n)).None?;
  }

  /** Past the guards, a file that cannot be read as text gives its failure and no change;
      a readable one goes on to the rewrite. */
  lemma EditReadStage(p: String, o: String, n: String, s: HostState)
    requires IsAbs(p) && p in s.files
    ensures p in s.unreadable ==>
            Run(Args(p, o, n), s) == (Returned(Failed(ReadingDenied(p))), s)
    ensures p !in s.unreadable && s.files[p].BinaryFile? ==>
            Run(Args(p, o, n), s) == (Returned(Failed(NotText(p))), s)
    ensures p !in s.unreadable && s.files[p].TextFile? ==>
            Run(Args(p, o, n), s) == Rewrite(p, s.files[p].content, JString(o), JString(n), s)
  {
    EditPastGuards(p, o, n, s);
  }

  /** A call on an absolute path that names a file gets past the guards to the read. */
  lemma EditPastGuards(p: String, o: String, n: String, s: HostState)
    requires IsAbs(p) && p in s.files
    ensures Run(Args(p, o, n), s) == AfterRead(p, ReadText(s, p), JString(o), JString(n), s)
  {
    ArgsBind(p, o, n);
  }

  /** The call `execute(path=p, old_str=o, new_str=n)` binds every parameter. */
  lemma ArgsBind(p: String, o: String, n: String)
    ensures BindingError(Sig, Args(p, o, n)).None?
  {
  }

  /** A returned failure leaves the file system as it was. */
  lemma EditFailureChangesNothing(kwargs: KwArgs, s: HostState)
    ensures var (o, s') := Run(kwargs, s);
            o.Returned? && !o.result.success ==> s' == s
  {
  }
}
