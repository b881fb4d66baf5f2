/** The Read tool (tools/read.py): a guard ladder over the path, then the file's text. It only
    reads the file system, so it is a function of the file system's state. */
module ReadTool {

  import opened Wrappers
  import opened Text
  import opened Json
  import opened ToolResults
  import opened HostSystem

  const Sig: Signature := Signature("ReadTool.execute", ["path"], 1)

  /** `ReadTool().execute(**kwargs)` on the file system `s`. A success returns the text of
      the readable text file the absolute path names; a returned failure has empty output and
      an error; the only exceptions are a call that does not bind, a path that is not text and
      an `OSError` other than a permission error. */
  function Execute(kwargs: KwArgs, s: HostState): (r: ToolOutcome)
    ensures r.Returned? && r.result.success ==>
              && "path" in kwargs && kwargs["path"].JString?
              && var p := kwargs["path"].s;
                 && IsAbs(p) && p in s.files && p !in s.unreadable && s.files[p].TextFile?
                 && r.result == Succeeded(Verbatim(s.files[p].content))
    ensures r.Returned? && !r.result.success ==> r.result.output == Verbatim("") && r.result.error.Some?
    ensures r.Raised? ==>
              || BindingError(Sig, kwargs) == Some(r.exception)
              || r.exception.NotAPath?
              || (r.exception.OsFailure? && r.exception.error.kind != PermissionDenied)
  {
    match BindingError(Sig, kwargs)
    case Some(e) => Raised(e)
    case None =>
      var path := kwargs["path"];
      if !Truthy(path) then Returned(Failed(PathRequired))
      else if !path.JString? then Raised(NotAPath(path))
      else
        var p := path.s;
        if !IsAbs(p) then Returned(Failed(NotAbsolute(p)))
        else if !Exists(s, p) then Returned(Failed(FileMissing(p)))
        else if !IsFile(s, p) then Returned(Failed(NotAFile(p)))
        else match ReadText(s, p)
          case Success(content) => Returned(Succeeded(Verbatim(content)))
          case Failure(OpenFailed(e)) =>
            if e.kind == PermissionDenied then Returned(Failed(Denied(p)))
            else Raised(OsFailure(e))
          case Failure(DecodeFailed) =>
            Returned(Failed(NotText(p)))
  }

  /** The call `execute(path=p)`. */
  function PathArg(p: String): KwArgs
  {
    map["path" := JString(p)]
  }

  /** Read succeeds exactly on an absolute path naming a readable text file, and then returns
      that file's text with no error. */
  lemma ReadSucceedsIff(p: String, s: HostState)
    ensures Execute(PathArg(p), s).Returned? && Execute(PathArg(p), s).result.success <==>
            IsAbs(p) && p in s.files && s.files[p].TextFile? && p !in s.unreadable
    ensures Execute(PathArg(p), s).Returned? && Execute(PathArg(p), s).result.success ==>
            Execute(PathArg(p), s).result == Succeeded(Verbatim(s.files[p].content))
  {
    assert BindingError(Sig, PathArg(p)).None?;
  }

  /** The guards fire in order and the first one that fails decides the error: empty path,
      relative path, missing path, path that is not a file. */
  lemma ReadGuardOrder(p: String, s: HostState)
    ensures p == [] <==> Execute(PathArg(p), s) == Returned(Failed(PathRequired))
    ensures p != [] && !IsAbs(p) <==>
            Execute(PathArg(p), s) == Returned(Failed(NotAbsolute(p)))
    ensures p != [] && IsAbs(p) && !Exists(s, p) <==>
            Execute(PathArg(p), s) == Returned(Failed(FileMissing(p)))
    ensures p != [] && IsAbs(p) && p !in s.files && p in s.dirs <==>
            Execute(PathArg(p), s) == Returned(Failed(NotAFile(p)))
  {
    assert BindingError(Sig, PathArg(p)).None?;
  }

  /** A relative path is refused whatever the file system holds, even a file under that name. */
  lemma RelativePathRefused(p: String, s: HostState, s': HostState)
    requires p != [] && !IsAbs(p)
    ensures Execute(PathArg(p), s) == Execute(PathArg(p), s')
    ensures !Execute(PathArg(p), s).result.success
  {
    assert BindingError(Sig, PathArg(p)).None?;
  }

  /** A file that may not be read, or that is not UTF-8 text, gives its fixed message. */
  lemma ReadFailures(p: String, s: HostState)
    requires IsAbs(p) && p in s.files
    ensures p in s.unreadable ==>
            Execute(PathArg(p), s) == Returned(Failed(Denied(p)))
    ensures p !in s.unreadable && s.files[p].BinaryFile? ==>
            Execute(PathArg(p), s) == Returned(Failed(NotText(p)))
  {
    assert BindingError(Sig, PathArg(p)).None?;
  }
}
