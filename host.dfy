/** The machine the tools act on: POSIX path text (`os.path.isabs`, `os.path.split`,
    `os.path.dirname`), the file system as directories and files, the `OSError`s its
    operations raise, `os.makedirs(..., exist_ok=True)`, and the shell that `subprocess.run`
    hands a command to. A path names an entry by its exact text. */
module HostSystem {

  import opened Wrappers
  import opened Text
  import opened Json

  type Path = String

  // ---------------------------------------------------------------------------------
  // Path text
  // ---------------------------------------------------------------------------------

  /** `posixpath.isabs`. */
  predicate IsAbs(p: Path)
  {
    StartsWith(p, "/")
  }

  predicate IsSlash(c: char)
  {
    c == '/'
  }

  /** `p.rfind('/') + 1`: the length of the part of `p` up to and including its last slash. */
  function LastSlashEnd(p: Path): (i: nat)
    ensures i <= |p|
    ensures i == 0 || p[i - 1] == '/'
    ensures forall k :: i <= k < |p| ==> p[k] != '/'
  {
    if p == [] then 0
    else if p[|p| - 1] == '/' then |p|
    else LastSlashEnd(p[..|p| - 1])
  }

  /** `posixpath.split`: the tail after the last slash, and the head before it with its
      trailing slashes removed unless it consists only of slashes. */
  function Split(p: Path): (r: (Path, Path))
    ensures r.1 == p[LastSlashEnd(p)..]
    ensures |r.0| <= LastSlashEnd(p)
  {
    var i := LastSlashEnd(p);
    var head := p[..i];
    TrimEndParts(head, IsSlash);
    (if head != [] && !AllSpace(head, IsSlash) then TrimEnd(head, IsSlash) else head, p[i..])
  }

  /** Split cuts `p` into head, a run of slashes, and a tail without slashes, and the head is
      shorter than `p` whenever the tail is not empty. */
  lemma SplitParts(p: Path)
    ensures var (head, tail) := Split(p);
            && p == head + p[|head|..|p| - |tail|] + tail
            && |head| + |tail| <= |p|
            && AllSpace(p[|head|..|p| - |tail|], IsSlash)
            && (forall k :: 0 <= k < |tail| ==> tail[k] != '/')
            && (tail != [] ==> |head| < |p|)
  {
    var i := LastSlashEnd(p);
    TrimEndParts(p[..i], IsSlash);
    var head := Split(p).0;
    assert p[..i][..|head|] == p[..|head|];
    assert p[|head|..i] == p[..i][|head|..];
  }

  /** `posixpath.dirname`. */
  function Dirname(p: Path): (d: Path)
    ensures IsPrefix(d, p)
  {
    SplitParts(p);
    Split(p).0
  }

  predicate IsPrefix(q: Path, p: Path)
  {
    |q| <= |p| && p[..|q|] == q
  }

  /** The directory `os.makedirs` recurses into, and the last name it creates. */
  function ParentAndName(p: Path): (r: (Path, Path))
    ensures IsPrefix(r.0, p)
    ensures r.1 != [] ==> |r.0| < |p|
  {
    SplitParts(p);
    var (head, tail) := Split(p);
    if tail == [] then
      SplitParts(head);
      Split(head)
    else (head, tail)
  }

  // ---------------------------------------------------------------------------------
  // File system state and its errors
  // ---------------------------------------------------------------------------------

  /** A file's bytes: text that decodes as UTF-8, or bytes that do not. */
  datatype FileData = TextFile(content: String) | BinaryFile

  /** The file system: its directories and files, the entries this process may not read
      (`open(p, "r")` raises `PermissionError`), and the entries it may not write: a file that
      `open(p, "w")` may not truncate, a directory in which no entry may be created. */
  datatype HostState = HostState(files: map<Path, FileData>, dirs: set<Path>,
                                 unreadable: set<Path>, unwritable: set<Path>)

  predicate Exists(s: HostState, p: Path)
  {
    p in s.files || p in s.dirs
  }

  predicate IsFile(s: HostState, p: Path)
  {
    p in s.files
  }

  predicate IsDir(s: HostState, p: Path)
  {
    p in s.dirs
  }

  datatype OsErrorKind = NotFound | PermissionDenied | FileExists | NotADirectory | IsADirectory

  /** An `OSError` subclass raised on the entry `path`. */
  datatype OsError = OsError(kind: OsErrorKind, path: Path)

  function Errno(k: OsErrorKind): nat
  {
    match k
    case NotFound => 2
    case PermissionDenied => 13
    case FileExists => 17
    case NotADirectory => 20
    case IsADirectory => 21
  }

  function Strerror(k: OsErrorKind): String
  {
    match k
    case NotFound => "No such file or directory"
    case PermissionDenied => "Permission denied"
    case FileExists => "File exists"
    case NotADirectory => "Not a directory"
    case IsADirectory => "Is a directory"
  }

  /** The error the system gives for creating the new entry `p`, if any: its directory must
      be a writable directory. */
  function CreateError(s: HostState, p: Path): Option<OsError>
  {
    var parent := Dirname(p);
    if parent in s.files then Some(OsError(NotADirectory, p))
    else if parent !in s.dirs then Some(OsError(NotFound, p))
    else if parent in s.unwritable then Some(OsError(PermissionDenied, p))
    else None
  }

  /** Why reading a file as UTF-8 text fails. */
  datatype ReadFailure = OpenFailed(error: OsError) | DecodeFailed

  /** `open(p, "r", encoding="utf-8").read()`. */
  function ReadText(s: HostState, p: Path): (r: Result<String, ReadFailure>)
    ensures r.Success? <==> p in s.files && p !in s.unreadable && s.files[p].TextFile?
    ensures r.Success? ==> r.value == s.files[p].content
  {
    if p in s.dirs && p !in s.files then Failure(OpenFailed(OsError(IsADirectory, p)))
    else if p !in s.files then Failure(OpenFailed(OsError(NotFound, p)))
    else if p in s.unreadable then Failure(OpenFailed(OsError(PermissionDenied, p)))
    else if s.files[p].BinaryFile? then Failure(DecodeFailed)
    else Success(s.files[p].content)
  }

  /** `os.mkdir(p)`, and the state after it. */
  function AfterMkdir(s: HostState, p: Path): (r: (Option<OsError>, HostState))
    ensures r.0.None? <==> !Exists(s, p) && CreateError(s, p).None?
    ensures r.0.None? ==> r.1 == s.(dirs := s.dirs + {p})
    ensures r.0.Some? ==> r.1 == s
  {
    if Exists(s, p) then (Some(OsError(FileExists, p)), s)
    else if CreateError(s, p).Some? then (CreateError(s, p), s)
    else (None, s.(dirs := s.dirs + {p}))
  }

  /** `os.mkdir(p)` with `exist_ok`: a failure on a path that is a directory is ignored. */
  function AfterMkdirExistOk(s: HostState, p: Path): (r: (Option<OsError>, HostState))
    ensures r.1 == s || r.1 == s.(dirs := s.dirs + {p})
    ensures r.0.None? <==> IsDir(r.1, p)
  {
    var (e, s') := AfterMkdir(s, p);
    if e.Some? && IsDir(s', p) then (None, s') else (e, s')
  }

  /** `os.makedirs(name, exist_ok=True)`: missing ancestors first, each of them by a recursive
      call whose `FileExistsError` is ignored, then `name` itself unless its last name is `.`.
      It only adds directories: the files, the existing directories and both permission sets
      are kept. */
  function AfterMakeDirs(s: HostState, name: Path): (r: (Option<OsError>, HostState))
    ensures r.1.files == s.files && s.dirs <= r.1.dirs
    ensures r.1.unreadable == s.unreadable && r.1.unwritable == s.unwritable
    ensures forall q :: q in r.1.dirs && q !in s.dirs ==> IsPrefix(q, name) && Dirname(q) != q
    decreases |name|
  {
    var (head, tail) := ParentAndName(name);
    if head != [] && tail != [] && !Exists(s, head) then
      var sub := AfterMakeDirs(s, head);
      if sub.0.Some? && sub.0.value.kind != FileExists then sub
      else if tail == "." then (None, sub.1)
      else AfterMkdirExistOk(sub.1, name)
    else AfterMkdirExistOk(s, name)
  }

  /** When `os.makedirs` succeeds, the directory exists afterwards, unless the path ends in
      `/.`, which the recursion stops at once its parent exists. */
  lemma {:induction false} MakeDirsCreates(s: HostState, name: Path)
    requires AfterMakeDirs(s, name).0.None?
    ensures IsDir(AfterMakeDirs(s, name).1, name) || ParentAndName(name).1 == "."
  {
  }

  /** `open(p, "w")`: truncates an existing writable file or creates an empty one. */
  function AfterOpenForWrite(s: HostState, p: Path): (r: (Option<OsError>, HostState))
    ensures r.0.None? ==> r.1 == s.(files := s.files[p := TextFile("")])
    ensures r.0.Some? ==> r.1 == s
  {
    if p in s.dirs then (Some(OsError(IsADirectory, p)), s)
    else if p in s.files then
      if p in s.unwritable then (Some(OsError(PermissionDenied, p)), s)
      else (None, s.(files := s.files[p := TextFile("")]))
    else if CreateError(s, p).Some? then (CreateError(s, p), s)
    else (None, s.(files := s.files[p := TextFile("")]))
  }

  // ---------------------------------------------------------------------------------
  // The shell
  // ---------------------------------------------------------------------------------

  /** How `subprocess.run` ends: the process completes (`stdout`/`stderr` are `None` when
      nothing was captured), the timeout expires, or some other exception is raised. */
  datatype ProcessOutcome =
    | Completed(returncode: int, stdout: Option<String>, stderr: Option<String>)
    | TimeoutExpired
    | Crashed(message: String)

  /** What running `command` with `shell=True` and a timeout does, on a given file system:
      the outcome, and the file system the command leaves behind. */
  type Shell = (JsonValue, JsonValue, HostState) -> (ProcessOutcome, HostState)

  // ---------------------------------------------------------------------------------
  // The machine
  // ---------------------------------------------------------------------------------

  class Host {
    var files: map<Path, FileData>
    var dirs: set<Path>
    var unreadable: set<Path>
    var unwritable: set<Path>
    const shell: Shell

    function State(): HostState
      reads this
    {
      HostState(files, dirs, unreadable, unwritable)
    }

    constructor (s: HostState, shell: Shell)
      ensures State() == s && this.shell == shell
    {
      files := s.files;
      dirs := s.dirs;
      unreadable := s.unreadable;
      unwritable := s.unwritable;
      this.shell := shell;
    }

    method Mkdir(p: Path) returns (e: Option<OsError>)
      modifies this
      ensures (e, State()) == AfterMkdir(old(State()), p)
    {
      if p in files || p in dirs {
        return Some(OsError(FileExists, p));
      }
      e := CreateError(State(), p);
      if e.None? {
        dirs := dirs + {p};
      }
    }

    /** `os.makedirs(name, exist_ok=True)`. */
    method MakeDirs(name: Path) returns (e: Option<OsError>)
      modifies this
      ensures (e, State()) == AfterMakeDirs(old(State()), name)
      decreases |name|
    {
      var (head, tail) := ParentAndName(name);
      if head != [] && tail != [] && !(head in files || head in dirs) {
        e := MakeDirs(head);
        if e.Some? && e.value.kind != FileExists {
          return;
        }
        if tail == "." {
          return None;
        }
      }
      e := Mkdir(name);
      if e.Some? && name in dirs {
        e := None;
      }
    }

    /** `open(p, "w")`. */
    method OpenForWrite(p: Path) returns (e: Option<OsError>)
      modifies this
      ensures (e, State()) == AfterOpenForWrite(old(State()), p)
    {
      if p in dirs {
        return Some(OsError(IsADirectory, p));
      }
      if p in files {
        if p in unwritable {
          return Some(OsError(PermissionDenied, p));
        }
      } else {
        e := CreateError(State(), p);
        if e.Some? {
          return;
        }
      }
      files := files[p := TextFile("")];
      e := None;
    }

    /** `f.write(content)` on the file just opened for writing. */
    method WriteText(p: Path, content: String)
      modifies this
      ensures State() == old(State()).(files := old(files)[p := TextFile(content)])
    {
      files := files[p := TextFile(content)];
    }

    /** `subprocess.run(command, shell=True, capture_output=True, text=True, timeout=timeout)`. */
    method Run(command: JsonValue, timeout: JsonValue) returns (o: ProcessOutcome)
      modifies this
      ensures (o, State()) == shell(command, timeout, old(State()))
    {
      var s';
      o, s' := shell(command, timeout, State()).0, shell(command, timeout, State()).1;
      files, dirs, unreadable, unwritable := s'.files, s'.dirs, s'.unreadable, s'.unwritable;
    }
  }
}
