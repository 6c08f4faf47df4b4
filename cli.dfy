/**
 * The command-line layer of the task runner: the dispatch key of a task, the upward
 * search for the configuration file, the argument vector handed to a task's command,
 * and what one invocation does with the decoded configuration.
 *
 * The operating system is a parameter: the file system is the set `files` of paths that
 * are regular files plus the map `contents` of documents that can be opened (already
 * lexed as JSON), the environment override is an optional string, and the names that
 * the argument parser reports present are the set `present`.
 */
module Cli {
  import opened Wrappers
  import opened Json
  import opened Parser

  // ---------------------------------------------------------------- task_name

  predicate IsAsciiUpper(c: char) {
    'A' <= c <= 'Z'
  }

  function LowerChar(c: char): char {
    if IsAsciiUpper(c) then (c as int + 32) as char else c
  }

  /** `replace(" ", "_")`: every space becomes one underscore, nothing else changes. */
  function ReplaceSpaces(s: string): (r: string)
    ensures |r| == |s|
    ensures forall i :: 0 <= i < |s| ==> r[i] == (if s[i] == ' ' then '_' else s[i])
  {
    if s == [] then []
    else [if s[0] == ' ' then '_' else s[0]] + ReplaceSpaces(s[1..])
  }

  /** `to_lowercase`, restricted to ASCII letters. */
  function ToLowerAscii(s: string): (r: string)
    ensures |r| == |s|
    ensures forall i :: 0 <= i < |s| ==> r[i] == LowerChar(s[i])
  {
    if s == [] then []
    else [LowerChar(s[0])] + ToLowerAscii(s[1..])
  }

  /** The dispatch key of a task: its label with spaces replaced and letters lower-cased.
      It has the label's length and holds neither a space nor an upper-case letter. */
  function TaskName(text: string): (r: string)
    ensures |r| == |text|
    ensures forall i :: 0 <= i < |r| ==> r[i] != ' ' && !IsAsciiUpper(r[i])
  {
    ToLowerAscii(ReplaceSpaces(text))
  }

  /** Position by position: a space becomes '_', an upper-case letter its lower case, and
      every other character, other whitespace included, is kept. */
  lemma TaskNameAt(text: string, i: nat)
    requires i < |text|
    ensures text[i] == ' ' ==> TaskName(text)[i] == '_'
    ensures IsAsciiUpper(text[i]) ==> TaskName(text)[i] == (text[i] as int + 32) as char
    ensures text[i] != ' ' && !IsAsciiUpper(text[i]) ==> TaskName(text)[i] == text[i]
  {
    assert ReplaceSpaces(text)[i] == (if text[i] == ' ' then '_' else text[i]);
  }

  /** Normalising a name again changes nothing. */
  lemma TaskNameIdempotent(text: string)
    ensures TaskName(TaskName(text)) == TaskName(text)
  {
    var n := TaskName(text);
    forall i | 0 <= i < |n|
      ensures TaskName(n)[i] == n[i]
    {
      TaskNameAt(n, i);
    }
  }

  lemma {:induction false} ReplaceSpacesConcat(a: string, b: string)
    ensures ReplaceSpaces(a + b) == ReplaceSpaces(a) + ReplaceSpaces(b)
  {
    if a == [] {
      assert a + b == b;
    } else {
      assert (a + b)[1..] == a[1..] + b;
      ReplaceSpacesConcat(a[1..], b);
    }
  }

  lemma {:induction false} ToLowerAsciiConcat(a: string, b: string)
    ensures ToLowerAscii(a + b) == ToLowerAscii(a) + ToLowerAscii(b)
  {
    if a == [] {
      assert a + b == b;
    } else {
      assert (a + b)[1..] == a[1..] + b;
      ToLowerAsciiConcat(a[1..], b);
    }
  }

  /** Names are computed character by character: the name of a concatenation is the
      concatenation of the names. */
  lemma TaskNameConcat(a: string, b: string)
    ensures TaskName(a + b) == TaskName(a) + TaskName(b)
  {
    ReplaceSpacesConcat(a, b);
    ToLowerAsciiConcat(ReplaceSpaces(a), ReplaceSpaces(b));
  }

  lemma ExamplePiecesHead()
    ensures TaskName("Emit") == "emit" && TaskName(" ") == "_"
  {
  }

  lemma ExamplePiecesTail()
    ensures TaskName("Gree") == "gree" && TaskName("ting") == "ting"
  {
  }

  /** "Emit Greeting" is dispatched as emit_greeting, which is its own name. */
  lemma TaskNameExample()
    ensures TaskName("Emit Greeting") == "emit_greeting"
    ensures TaskName("emit_greeting") == "emit_greeting"
  {
    assert "Emit Greeting" == "Emit" + " " + "Gree" + "ting";
    assert "emit_greeting" == "emit" + "_" + "gree" + "ting";
    ExamplePiecesHead();
    ExamplePiecesTail();
    TaskNameConcat("Emit", " ");
    TaskNameConcat("Emit" + " ", "Gree");
    TaskNameConcat("Emit" + " " + "Gree", "ting");
    TaskNameIdempotent("Emit Greeting");
  }

  // ---------------------------------------------------------------- find_in_parents

  /** An absolute, canonical path as its components below the root; [] is the root. */
  type Path = seq<string>

  /** The path buffer the search walks upward; `Pop` truncates it in place. */
  class PathBuf {
    var components: Path

    constructor (p: Path)
      ensures components == p
    {
      components := p;
    }

    /** Truncates to the parent directory; at the root it returns false and changes nothing. */
    method Pop() returns (popped: bool)
      modifies this
      ensures popped <==> old(components) != []
      ensures components == if popped then old(components)[..|old(components)| - 1] else old(components)
    {
      popped := components != [];
      if popped {
        components := components[..|components| - 1];
      }
    }

    function Join(child: Path): Path
      reads this
    {
      components + child
    }
  }

  /** The depth of the nearest directory on the way from `dir` up to the root whose
      `child` is a file: `dir` itself first, then each parent, the root last. */
  function NearestAncestor(dir: Path, child: Path, files: set<Path>): (r: Option<nat>)
    ensures r.Some? ==> r.value <= |dir| && dir[..r.value] + child in files
    ensures r.Some? ==> forall k :: r.value < k <= |dir| ==> dir[..k] + child !in files
    ensures r.None? ==> forall k :: 0 <= k <= |dir| ==> dir[..k] + child !in files
    decreases |dir|
  {
    assert dir[..|dir|] == dir;
    if dir + child in files then Some(|dir|)
    else if dir == [] then None
    else
      var parent := dir[..|dir| - 1];
      assert forall k :: 0 <= k <= |parent| ==> parent[..k] == dir[..k];
      NearestAncestor(parent, child, files)
  }

  datatype LocateError = NotFound

  /** find_in_parents: checks `start`, then each parent in turn, the root included, and
      returns the first `dir/child` that is a file. */
  method FindInParents(start: Path, child: Path, files: set<Path>) returns (r: Result<Path, LocateError>)
    ensures r == match NearestAncestor(start, child, files)
                 case Some(k) => Success(start[..k] + child)
                 case None => Failure(NotFound)
  {
    var running := true;
    var rp := new PathBuf(start);
    while running
      invariant rp.components == start[..|rp.components|]
      invariant running ==> NearestAncestor(start, child, files) == NearestAncestor(rp.components, child, files)
      invariant !running ==> NearestAncestor(start, child, files).None?
      decreases |rp.components|, running
    {
      var tp := rp.Join(child);
      if tp in files {
        return Success(tp);
      }
      running := rp.Pop();
    }
    return Failure(NotFound);
  }

  // ---------------------------------------------------------------- find_config_path

  const ConfigChild: Path := [".vscode", "tasks.json"]

  /** The textual form of an absolute path. */
  function Render(p: Path): string {
    if p == [] then "/" else RenderBelowRoot(p)
  }

  function RenderBelowRoot(p: Path): string {
    if p == [] then "" else "/" + p[0] + RenderBelowRoot(p[1..])
  }

  /** Where the configuration is read from: the override, verbatim, when it is set;
      otherwise the nearest `.vscode/tasks.json` above the working directory. */
  function ConfigLocation(overrideVar: Option<string>, cwd: Path, files: set<Path>): Result<string, LocateError> {
    match overrideVar
    case Some(v) => Success(v)
    case None =>
      match NearestAncestor(cwd, ConfigChild, files)
      case Some(k) => Success(Render(cwd[..k] + ConfigChild))
      case None => Failure(NotFound)
  }

  /** find_config_path: a set override wins outright and no search is made. */
  method FindConfigPath(overrideVar: Option<string>, cwd: Path, files: set<Path>) returns (r: Result<string, LocateError>)
    ensures overrideVar.Some? ==> r == Success(overrideVar.value)
    ensures r == ConfigLocation(overrideVar, cwd, files)
  {
    match overrideVar {
      case Some(v) =>
        return Success(v);
      case None =>
        var found := FindInParents(cwd, ConfigChild, files);
        match found {
          case Success(p) => return Success(Render(p));
          case Failure(e) => return Failure(e);
        }
    }
  }

  /** Without the override, from /x/y/z with only /x/.vscode/tasks.json present. */
  lemma ConfigLocationExample(cwd: Path, files: set<Path>)
    ensures ConfigLocation(Some("/a/b/tasks.json"), cwd, files) == Success("/a/b/tasks.json")
    ensures ConfigLocation(None, ["x", "y", "z"], {["x", ".vscode", "tasks.json"]})
         == Success("/x/.vscode/tasks.json")
  {
    var dir: Path := ["x", "y", "z"];
    var fs: set<Path> := {["x", ".vscode", "tasks.json"]};
    assert dir[..1] + ConfigChild == ["x", ".vscode", "tasks.json"];
    assert dir[..2] + ConfigChild != ["x", ".vscode", "tasks.json"] by {
      assert (dir[..2] + ConfigChild)[1] == "y";
    }
    assert dir[..3] + ConfigChild != ["x", ".vscode", "tasks.json"] by {
      assert (dir[..3] + ConfigChild)[1] == "y";
    }
    var r := NearestAncestor(dir, ConfigChild, fs);
    assert r == Some(1);
    assert Render(["x", ".vscode", "tasks.json"]) == "/x/.vscode/tasks.json";
  }

  // ---------------------------------------------------------------- execute_task

  /** The process builder, reduced to what is set on it: the program and its arguments. */
  class Command {
    const program: string
    var args: seq<string>

    constructor (program: string)
      ensures this.program == program && args == []
    {
      this.program := program;
      args := [];
    }

    /** Appends one argument after those already given. */
    method Arg(a: string)
      modifies this
      ensures args == old(args) + [a]
    {
      args := args + [a];
    }
  }

  /** The argument vector execute_task spawns: the command first, then the task's
      arguments in their list order. The working directory option plays no part. */
  method ExecuteTask(task: BaseTaskConfiguration) returns (argv: seq<string>)
    ensures |argv| == |task.args| + 1
    ensures argv[0] == task.command
    ensures forall i :: 0 <= i < |task.args| ==> argv[i + 1] == task.args[i]
  {
    var cmd := new Command(task.command);
    for i := 0 to |task.args|
      invariant cmd.args == task.args[..i]
    {
      cmd.Arg(task.args[i]);
    }
    argv := [cmd.program] + cmd.args;
  }

  // ---------------------------------------------------------------- dispatch

  /** The Debug rendering of a task type. */
  function TaskTypeDebug(t: TaskType): string {
    match t
    case Shell => "Shell"
    case Process => "Process"
  }

  function ListLine(t: BaseTaskConfiguration): string {
    "  " + TaskName(t.taskLabel) + " (" + TaskTypeDebug(t.taskType) + ")"
  }

  /** `--list`: a header, then one line per task in document order. */
  method ListTasks(tasks: seq<BaseTaskConfiguration>) returns (lines: seq<string>)
    ensures |lines| == |tasks| + 1 && lines[0] == "Task list:"
    ensures forall i :: 0 <= i < |tasks| ==> lines[i + 1] == ListLine(tasks[i])
  {
    lines := ["Task list:"];
    for i := 0 to |tasks|
      invariant |lines| == i + 1 && lines[0] == "Task list:"
      invariant forall j :: 0 <= j < i ==> lines[j + 1] == ListLine(tasks[j])
    {
      lines := lines + [ListLine(tasks[i])];
    }
  }

  /** The first task, in document order, whose name the argument parser reports present. */
  function FirstSelected(tasks: seq<BaseTaskConfiguration>, present: set<string>): (r: Option<nat>)
    ensures r.Some? ==> r.value < |tasks| && TaskName(tasks[r.value].taskLabel) in present
    ensures r.Some? ==> forall j :: 0 <= j < r.value ==> TaskName(tasks[j].taskLabel) !in present
    ensures r.None? ==> forall j :: 0 <= j < |tasks| ==> TaskName(tasks[j].taskLabel) !in present
  {
    if tasks == [] then None
    else if TaskName(tasks[0].taskLabel) in present then Some(0)
    else
      match FirstSelected(tasks[1..], present)
      case Some(k) => Some(k + 1)
      case None => None
  }

  datatype Outcome =
    | Listed(lines: seq<string>)
    | Executed(index: nat, argv: seq<string>)
    | Help

  /** What an invocation does with the decoded tasks: `list` present lists them and runs
      none; otherwise the first selected task runs, and with no task selected the help
      text is shown and nothing runs. */
  predicate DispatchedAs(tasks: seq<BaseTaskConfiguration>, present: set<string>, o: Outcome) {
    && ("list" in present ==>
          && o.Listed? && |o.lines| == |tasks| + 1 && o.lines[0] == "Task list:"
          && forall i :: 0 <= i < |tasks| ==> o.lines[i + 1] == ListLine(tasks[i]))
    && ("list" !in present ==>
          match FirstSelected(tasks, present)
          case Some(i) => o == Executed(i, [tasks[i].command] + tasks[i].args)
          case None => o == Help)
  }

  method Dispatch(tasks: seq<BaseTaskConfiguration>, present: set<string>) returns (o: Outcome)
    ensures DispatchedAs(tasks, present, o)
  {
    if "list" in present {
      var lines := ListTasks(tasks);
      return Listed(lines);
    }
    for i := 0 to |tasks|
      invariant forall j :: 0 <= j < i ==> TaskName(tasks[j].taskLabel) !in present
    {
      if TaskName(tasks[i].taskLabel) in present {
        var argv := ExecuteTask(tasks[i]);
        assert argv == [tasks[i].command] + tasks[i].args;
        return Executed(i, argv);
      }
    }
    return Help;
  }

  /** Two tasks whose labels normalise to the same name: only the earlier can ever run. */
  lemma ShadowedTaskNeverRuns(tasks: seq<BaseTaskConfiguration>, present: set<string>, i: nat, j: nat)
    requires i < j < |tasks|
    requires TaskName(tasks[i].taskLabel) == TaskName(tasks[j].taskLabel)
    ensures FirstSelected(tasks, present) != Some(j)
  {
  }

  // ---------------------------------------------------------------- main

  datatype Panic =
    | ConfigNotFound
    | ConfigUnreadable
    | ParseFailed(error: DecodeError)

  datatype Run = Panicked(reason: Panic) | Completed(outcome: Outcome)

  /** Locate, open and decode the configuration; each failure ends the invocation. */
  function LoadConfig(overrideVar: Option<string>, cwd: Path, files: set<Path>, contents: map<string, Json>)
    : Result<TaskConfiguration, Panic>
  {
    match ConfigLocation(overrideVar, cwd, files)
    case Failure(_) => Failure(ConfigNotFound)
    case Success(path) =>
      if path !in contents then Failure(ConfigUnreadable)
      else
        match Decode(contents[path])
        case Failure(e) => Failure(ParseFailed(e))
        case Success(tc) => Success(tc)
  }

  /** One invocation: no task runs unless the configuration was found and decoded. */
  method RunCli(overrideVar: Option<string>, cwd: Path, files: set<Path>, contents: map<string, Json>,
                present: set<string>) returns (run: Run)
    ensures LoadConfig(overrideVar, cwd, files, contents).Failure? ==>
      run == Panicked(LoadConfig(overrideVar, cwd, files, contents).error)
    ensures LoadConfig(overrideVar, cwd, files, contents).Success? ==>
      run.Completed? && DispatchedAs(LoadConfig(overrideVar, cwd, files, contents).value.tasks, present, run.outcome)
  {
    var located := FindConfigPath(overrideVar, cwd, files);
    if located.Failure? {
      return Panicked(ConfigNotFound);
    }
    var path := located.value;
    if path !in contents {
      return Panicked(ConfigUnreadable);
    }
    var parsed := Decode(contents[path]);
    if parsed.Failure? {
      return Panicked(ParseFailed(parsed.error));
    }
    var outcome := Dispatch(parsed.value.tasks, present);
    return Completed(outcome);
  }
}
