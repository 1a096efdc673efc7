/** Task records, the choice of execution mode, and the pair of directories
    (`pending_tasks/<name>` and `completed_tasks/<name>`) each participant owns;
    plus the outcomes of everything outside the model (subprocesses, file
    writes, clocks, directory enumeration), which the participants take as input. */
module Tasks {
  import opened Strings

  /** The JSON object of one task file, with string values. */
  type Task = map<string, string>

  /** `task.get(key, default)`. */
  function Get(t: Task, key: string, default: string): string
  {
    if key in t then t[key] else default
  }

  /** The way a task is executed. */
  datatype Mode = CommandMode(command: string) | ScriptMode(source: string) | GenericMode

  /** Key precedence: `command`, then `script`, then the generic mode. */
  function ModeOf(t: Task): (m: Mode)
    ensures m.CommandMode? <==> "command" in t
    ensures m.ScriptMode? <==> "command" !in t && "script" in t
    ensures m.GenericMode? <==> "command" !in t && "script" !in t
    ensures m.CommandMode? ==> m.command == t["command"]
    ensures m.ScriptMode? ==> m.source == t["script"]
  {
    if "command" in t then CommandMode(t["command"])
    else if "script" in t then ScriptMode(t["script"])
    else GenericMode
  }

  /** A file in a task directory, either parsable JSON or not. */
  datatype TaskFile = Parsed(task: Task) | Unparsable(reason: string)

  /** A directory, keyed by file name. */
  type Dir = map<string, TaskFile>

  /** A participant's pending and completed directories. */
  datatype TaskDirs = TaskDirs(pending: Dir, completed: Dir)

  predicate IsJsonName(name: string)
  {
    EndsWith(name, ".json")
  }

  /** `Path(dir).glob("*.json")` over the entries a directory listing produced. */
  function Glob(entries: seq<string>): (r: seq<string>)
    ensures forall n :: n in r <==> n in entries && IsJsonName(n)
    ensures |r| <= |entries|
  {
    if |entries| == 0 then []
    else (if IsJsonName(entries[0]) then [entries[0]] else []) + Glob(entries[1..])
  }

  /** No name is listed twice. */
  predicate Distinct(names: seq<string>)
  {
    forall i, j :: 0 <= i < j < |names| ==> names[i] != names[j]
  }

  /** `entries` lists every file of `d` exactly once. */
  ghost predicate Enumerates(entries: seq<string>, d: Dir)
  {
    Distinct(entries) && forall n :: n in entries <==> n in d
  }

  /** The rest of a listing without repetitions has none, and lacks its head. */
  lemma DistinctTail(names: seq<string>)
    requires Distinct(names) && |names| > 0
    ensures Distinct(names[1..]) && names[0] !in names[1..]
  {
    var rest := names[1..];
    forall i, j | 0 <= i < j < |rest|
      ensures rest[i] != rest[j]
    {
      assert rest[i] == names[i + 1] && rest[j] == names[j + 1];
    }
    forall k | 0 <= k < |rest|
      ensures rest[k] != names[0]
    {
      assert rest[k] == names[k + 1];
    }
  }

  /** Filtering a listing keeps it free of repetitions. */
  lemma {:induction false} GlobKeepsDistinct(entries: seq<string>)
    requires Distinct(entries)
    ensures Distinct(Glob(entries))
  {
    if |entries| > 0 {
      var rest := entries[1..];
      DistinctTail(entries);
      GlobKeepsDistinct(rest);
      assert entries[0] !in Glob(rest);
    }
  }

  /** The filtered listing of a directory names exactly its `.json` files. */
  lemma GlobListsJson(entries: seq<string>, d: Dir)
    requires Enumerates(entries, d)
    ensures Distinct(Glob(entries))
    ensures forall n :: n in Glob(entries) <==> n in d && IsJsonName(n)
  {
    GlobKeepsDistinct(entries);
  }

  function JsonNames(d: Dir): set<string>
  {
    set n | n in d && IsJsonName(n)
  }

  /** `len(list(Path(dir).glob("*.json")))`. */
  function JsonCount(d: Dir): nat
  {
    |JsonNames(d)|
  }

  const NoSuchFile := "No such file or directory"

  datatype Loaded = Loaded(task: Task) | LoadError(reason: string)

  /** `json.load(open(file))`: fails for a file that is gone or not parsable. */
  function Load(d: Dir, name: string): (r: Loaded)
    ensures r.Loaded? <==> name in d && d[name].Parsed?
    ensures r.Loaded? ==> r.task == d[name].task
  {
    if name !in d then LoadError(NoSuchFile)
    else match d[name]
      case Parsed(t) => Loaded(t)
      case Unparsable(reason) => LoadError(reason)
  }

  /** Renaming `pending/<name>` to `completed/<name>`. On POSIX a completed file
      of the same name is replaced. */
  function Move(dirs: TaskDirs, name: string): (r: TaskDirs)
    requires name in dirs.pending
    ensures r.pending.Keys == dirs.pending.Keys - {name}
    ensures forall n :: n in r.pending ==> r.pending[n] == dirs.pending[n]
    ensures name in r.completed && r.completed[name] == dirs.pending[name]
    ensures forall n :: n != name ==> (n in r.completed <==> n in dirs.completed)
    ensures forall n :: n != name && n in r.completed ==> r.completed[n] == dirs.completed[n]
  {
    TaskDirs(dirs.pending - {name}, dirs.completed[name := dirs.pending[name]])
  }

  /** No task file is invented or lost between `before` and `after`: pending only
      shrinks, every completed file was completed or pending before with the same
      contents, and the set of names held by the pair is unchanged. */
  ghost predicate Conserves(before: TaskDirs, after: TaskDirs)
  {
    && (forall n :: n in after.pending ==> n in before.pending && after.pending[n] == before.pending[n])
    && (forall n :: n in after.completed ==>
          (n in before.completed && after.completed[n] == before.completed[n])
          || (n in before.pending && after.completed[n] == before.pending[n]))
    && before.pending.Keys + before.completed.Keys == after.pending.Keys + after.completed.Keys
  }

  lemma ConservesReflexive(d: TaskDirs)
    ensures Conserves(d, d)
  {
  }

  lemma ConservesTransitive(a: TaskDirs, b: TaskDirs, c: TaskDirs)
    requires Conserves(a, b) && Conserves(b, c)
    ensures Conserves(a, c)
  {
  }

  lemma MoveConserves(dirs: TaskDirs, name: string)
    requires name in dirs.pending
    ensures Conserves(dirs, Move(dirs, name))
  {
  }

  /** Moving a pending `.json` file whose name is free in completed shifts one
      from the pending count to the completed count; replacing a completed file
      of the same name leaves the completed count as it was. */
  lemma MoveCounts(dirs: TaskDirs, name: string)
    requires name in dirs.pending && IsJsonName(name)
    ensures JsonCount(Move(dirs, name).pending) == JsonCount(dirs.pending) - 1
    ensures name !in dirs.completed ==> JsonCount(Move(dirs, name).completed) == JsonCount(dirs.completed) + 1
    ensures name in dirs.completed ==> JsonCount(Move(dirs, name).completed) == JsonCount(dirs.completed)
  {
    RemoveCounts(dirs.pending, name);
    WriteCounts(dirs.completed, name, dirs.pending[name]);
  }

  /** Removing a `.json` file takes one from the count. */
  lemma RemoveCounts(d: Dir, name: string)
    requires name in d && IsJsonName(name)
    ensures JsonCount(d - {name}) == JsonCount(d) - 1
  {
    assert JsonNames(d) == JsonNames(d - {name}) + {name} && name !in JsonNames(d - {name});
  }

  /** Writing a file with a new `.json` name adds one to the count; overwriting an
      existing one does not. */
  lemma WriteCounts(d: Dir, name: string, f: TaskFile)
    requires IsJsonName(name)
    ensures name !in d ==> JsonCount(d[name := f]) == JsonCount(d) + 1
    ensures name in d ==> JsonCount(d[name := f]) == JsonCount(d)
  {
    if name in d {
      assert JsonNames(d[name := f]) == JsonNames(d);
    } else {
      assert JsonNames(d[name := f]) == JsonNames(d) + {name} && name !in JsonNames(d);
    }
  }

  // ----- the environment ------------------------------------------------------

  /** What a subprocess did: it exited with a code and captured output, or
      starting it raised an exception. */
  datatype Run = Exited(code: int, stdout: string, stderr: string) | Raised(error: string)

  /** A file-system step that either succeeds or raises with a message. */
  datatype Step = Ok | Fails(error: string)

  /** The outcomes met while executing one task file: its subprocess, the write
      of its temporary script file, the write of its output file, and the move
      to completed. */
  datatype TaskEnv = TaskEnv(run: Run, script: Step, artifact: Step, move: Step)

  /** Everything a polling tick observes from outside: the clock (`time.time()` in
      whole seconds and the two `strftime` renderings), whether the shared output
      directory accepts a file, each task file's outcomes, the order in which the
      operating system lists a directory, and the last-modified times of the
      participants' log files. */
  datatype World = World(
    time: int,
    stamp: string,
    compact: string,
    output: Step,
    outcome: string -> TaskEnv,
    enumerate: Dir -> seq<string>,
    logTimes: map<string, int>)
}
