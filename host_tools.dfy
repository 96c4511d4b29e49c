/** The executor's own tool functions (cli/synapse/tools.py): the guarded file read and the
    name-to-function dispatch. The filesystem and git are not modelled; what they answer is
    an input (`HostFs`, and what the git helpers return or raise, passed to `DispatchTool`). Paths are resolved,
    absolute paths written as their sequence of components, the root being `[]`. */
module HostTools {
  import opened Common

  type Path = seq<string>

  /** What the host's filesystem answers. `resolve` is `Path(path).resolve()` on the given
      argument (it raises for an argument that is not a path); `stat` identifies the file a
      path names (`os.stat`, which raises for a missing path); `isFile` is `is_file()`,
      modelled as total; `read` is `read_text()`. */
  datatype HostFs = HostFs(
    cwd: Attempt<Path>,
    resolve: Json -> Attempt<Path>,
    stat: Path -> Attempt<nat>,
    isFile: Path -> bool,
    read: Path -> Attempt<string>)

  /** `base in p.parents`: `base` is a proper ancestor of `p`. */
  predicate IsProperAncestor(base: Path, p: Path) {
    |base| < |p| && p[..|base|] == base
  }

  /** `os.path.samefile(a, b)`: both exist and name the same file; the stat of `a` is
      taken first. */
  function SameFile(fs: HostFs, a: Path, b: Path): Attempt<bool> {
    match fs.stat(a)
    case Raised(m) => Raised(m)
    case Done(x) =>
      match fs.stat(b)
      case Raised(m) => Raised(m)
      case Done(y) => Done(x == y)
  }

  /** Which return statement of `read_file` answers. */
  datatype ReadResult =
    | FileText(text: string)
    | SecurityViolation
    | FileNotFound
    | Exception(message: string)

  /** The outcome of `read_file(path)`. The containment check runs first: `samefile` is
      asked only when the working directory is not a proper ancestor of the resolved path. */
  function ReadFileResult(fs: HostFs, path: Json): ReadResult {
    match fs.cwd
    case Raised(m) => Exception(m)
    case Done(base) =>
      match fs.resolve(path)
      case Raised(m) => Exception(m)
      case Done(full) =>
        if IsProperAncestor(base, full) then AfterContainment(fs, full)
        else
          match SameFile(fs, full, base)
          case Raised(m) => Exception(m)
          case Done(false) => SecurityViolation
          case Done(true) => AfterContainment(fs, full)
  }

  function AfterContainment(fs: HostFs, full: Path): ReadResult {
    if !fs.isFile(full) then FileNotFound
    else match fs.read(full)
      case Raised(m) => Exception(m)
      case Done(text) => FileText(text)
  }

  /** The string `read_file` returns for each outcome. */
  function ResultText(r: ReadResult): string {
    match r
    case FileText(t) => t
    case SecurityViolation => "Error: Security violation"
    case FileNotFound => "Error: File not found"
    case Exception(m) => "Error: " + m
  }

  /** `read_file(path)`: the file's text, or a message starting with "Error:". */
  function ReadFile(fs: HostFs, path: Json): (r: string)
    ensures ReadFileResult(fs, path).FileText? || StartsWith(r, "Error:")
  {
    var res := ReadFileResult(fs, path);
    if res.FileText? then res.text
    else FailuresArePrefixed(res); ResultText(res)
  }

  /** The resolved path lies in the working directory: below it, or the same file. */
  predicate Contained(fs: HostFs, base: Path, full: Path) {
    IsProperAncestor(base, full) || SameFile(fs, full, base) == Done(true)
  }

  /** A path outside the working directory is refused as a security violation exactly when
      both stats succeed; the refusal never depends on whether the target is a file or can
      be read. */
  lemma ReadFileSecurityViolation(fs: HostFs, path: Json)
    ensures ReadFileResult(fs, path) == SecurityViolation <==>
      fs.cwd.Done? && fs.resolve(path).Done? &&
      !IsProperAncestor(fs.cwd.value, fs.resolve(path).value) &&
      SameFile(fs, fs.resolve(path).value, fs.cwd.value) == Done(false)
  {
  }

  /** File contents, and "not found", are only ever reported for contained paths: the
      containment check comes first. */
  lemma ReadFileOnlyInside(fs: HostFs, path: Json)
    requires ReadFileResult(fs, path).FileText? || ReadFileResult(fs, path) == FileNotFound
    ensures fs.cwd.Done? && fs.resolve(path).Done?
    ensures Contained(fs, fs.cwd.value, fs.resolve(path).value)
    ensures ReadFileResult(fs, path) == FileNotFound <==> !fs.isFile(fs.resolve(path).value)
    ensures ReadFileResult(fs, path).FileText? ==>
      fs.read(fs.resolve(path).value) == Done(ReadFileResult(fs, path).text)
  {
  }

  /** Every failure of `read_file`, caught exceptions included, starts with "Error:". */
  lemma {:induction false} FailuresArePrefixed(r: ReadResult)
    requires !r.FileText?
    ensures StartsWith(ResultText(r), "Error:")
  {
    match r
    case SecurityViolation =>
      assert ResultText(r) == "Error:" + " Security violation";
      StartsWithAppend("Error:", " Security violation");
    case FileNotFound =>
      assert ResultText(r) == "Error:" + " File not found";
      StartsWithAppend("Error:", " File not found");
    case Exception(m) =>
      assert ResultText(r) == "Error:" + (" " + m);
      StartsWithAppend("Error:", " " + m);
  }

  // ---------------------------------------------------------------- dispatch_tool

  /** The names of `TOOL_MAP`. */
  const ToolMapNames := {"get_git_status", "get_diff", "read_file"}

  /** What calling a mapped function with the wrong arguments raises. */
  const ArgumentMismatch := "TypeError: wrong arguments"

  /** `dispatch_tool(name, args)`: a dict is passed as keyword arguments, a list as
      positional ones, anything else as the single argument. A call whose arguments do not
      fit the function raises, and the exception leaves `dispatch_tool` (Raised).
      `gitStatus` and `gitDiff` are what `get_git_status` and `get_diff` return, or the
      exception they do not catch (a missing `git` executable, a working directory that no
      longer exists); they catch only a failing git command. */
  function DispatchTool(name: string, args: Json, fs: HostFs,
                        gitStatus: Attempt<string>, gitDiff: Attempt<string>): (r: Attempt<string>)
    ensures r.Raised? ==>
      || (name in ToolMapNames && r.message == ArgumentMismatch)
      || (name == "get_git_status" && r == gitStatus)
      || (name == "get_diff" && r == gitDiff)
  {
    if name !in ToolMapNames then Done("Error: Tool '" + name + "' not found.")
    else match args
      case JObj(kw) =>
        if name == "read_file" then
          if kw.Keys == {"path"} then Done(ReadFile(fs, kw["path"])) else Raised(ArgumentMismatch)
        else if kw == map[] then GitOutput(name, gitStatus, gitDiff) else Raised(ArgumentMismatch)
      case JArr(xs) => CallPositional(name, xs, fs, gitStatus, gitDiff)
      case _ => CallPositional(name, [args], fs, gitStatus, gitDiff)
  }

  function GitOutput(name: string, gitStatus: Attempt<string>, gitDiff: Attempt<string>): Attempt<string> {
    if name == "get_git_status" then gitStatus else gitDiff
  }

  function CallPositional(name: string, xs: seq<Json>, fs: HostFs,
                          gitStatus: Attempt<string>, gitDiff: Attempt<string>): Attempt<string> {
    if name == "read_file" then
      if |xs| == 1 then Done(ReadFile(fs, xs[0])) else Raised(ArgumentMismatch)
    else if xs == [] then GitOutput(name, gitStatus, gitDiff) else Raised(ArgumentMismatch)
  }

  /** Unknown names are reported; `read_file` receives its path however the arguments are
      shaped: by keyword, by position, or as the bare argument; a git helper called without
      arguments answers with its own outcome, an escaping exception included. */
  lemma DispatchToolShapes(name: string, args: Json, fs: HostFs,
                           gitStatus: Attempt<string>, gitDiff: Attempt<string>, p: Json)
    ensures name !in ToolMapNames ==>
      DispatchTool(name, args, fs, gitStatus, gitDiff) == Done("Error: Tool '" + name + "' not found.")
    ensures DispatchTool("read_file", JObj(map["path" := p]), fs, gitStatus, gitDiff) == Done(ReadFile(fs, p))
    ensures DispatchTool("read_file", JArr([p]), fs, gitStatus, gitDiff) == Done(ReadFile(fs, p))
    ensures !p.JObj? && !p.JArr? ==>
      DispatchTool("read_file", p, fs, gitStatus, gitDiff) == Done(ReadFile(fs, p))
    ensures DispatchTool("get_git_status", EmptyObject, fs, gitStatus, gitDiff) == gitStatus
    ensures DispatchTool("get_diff", JArr([]), fs, gitStatus, gitDiff) == gitDiff
    ensures DispatchTool("get_diff", JNull, fs, gitStatus, gitDiff) == Raised(ArgumentMismatch)
  {
    assert map["path" := p].Keys == {"path"};
  }
}
