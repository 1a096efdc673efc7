/** worker_session_automation.py: a worker that processes each pending task
    file in one of three modes inside its own directory (the process changes
    its working directory there and back), reports start, completion and errors
    to the manager, and obeys stop and retry messages.

    Every path the worker uses is relative, so what a step touches depends on
    the working directory at that moment. The model keeps the working directory
    as state and resolves each path against it. It describes two builds: the
    code as written, and the code with the two corrections listed under
    Findings in the README. */
module Session {
  import opened Strings
  import opened Communication
  import opened Tasks
  import opened Schedule

  const ManagerName := "manager"

  // Subjects, and the words looked for in subjects.
  const StartSubject := "タスク開始: "
  const DoneSubject := "タスク完了: "
  const ErrorSubject := "タスクエラー: "
  const StopWord := "停止"
  const StopWordLatin := "stop"
  const RetryWord := "リトライ"

  // Task keys and the defaults of `task_data.get`.
  const NameKey := "name"
  const DescriptionKey := "description"
  const UnknownTask := "unknown_task"
  const CommandTask := "command_task"
  const ScriptTask := "script_task"
  const GenericTask := "generic_task"
  const NoDescription := "No description"

  // Log and message phrases.
  const StartingTask := "Starting task: "
  const TaskQuote := "Task '"
  const StartedBy := "' has been started by "
  const CompletedBy := "' has been completed by "
  const ProcessingError := "Error processing task "
  const Colon := ": "
  const ErrorBody := "Error occurred while processing task: "
  const ExecutingCommand := "Executing command: "
  const CommandSucceeded := "Command executed successfully. Output saved to "
  const CommandFailed := "Error executing command: "
  const ExecutingScript := "Executing script for task: "
  const ScriptSucceeded := "Script executed successfully. Output saved to "
  const ScriptFailed := "Error executing script: "
  const ProcessingGeneric := "Processing generic task: "
  const GenericDone := "Generic task processed. Output saved to "
  const TaskCompleted := "Task completed: "
  const CompletionFailed := "Error completing task: "
  const Found := "Found "
  const PendingCount := " pending tasks"
  const CheckFailed := "Error checking pending tasks: "
  const Received := "Received message from "
  const StopReceived := "Received stop command from manager"
  const RetryReceived := "Received retry command from manager"

  // File names and the lines of the output file.
  const PendingRoot := "pending_tasks/"
  const Slash := "/"
  const OutputPrefix := "task_"
  const OutputSuffix := "_output.txt"
  const TempPrefix := "temp_script_"
  const PySuffix := ".py"
  const Newline := "\n"
  const TaskLine := "Task: "
  const CommandLine := "Command: "
  const ScriptLine := "Script executed: "
  const ExitLine := "Exit Code: "
  const StdoutLine := "STDOUT:\n"
  const StderrLine := "STDERR:\n"
  const DescriptionLine := "Description: "
  const WorkerLine := "Worker: "
  const ProcessedLine := "Processed at: "
  const StatusLine := "Status: Task acknowledged and processed\n"

  /** The code as written, or with the corrections: log lines always reach the
      worker's own log, and generic mode restores the working directory when it
      fails, as the other two modes do. */
  datatype Build = AsWritten | Corrected

  /** The process's working directory: the one it started in, or the worker's
      own directory, which the three modes enter. */
  datatype Cwd = Start | WorkerDir

  /** One `WorkerSessionAutomation` process: its store and log handle, the log
      lines that landed in `<name>/<name>/<name>_log.txt` because they were
      written from inside the worker's directory, its task directories, the
      files in its own directory, and its working directory. */
  datatype SessionWorker = SessionWorker(
    comm: Channel, stray: seq<LogEntry>, dirs: TaskDirs, files: map<string, string>, cwd: Cwd)
  {
    function Name(): string
    {
      comm.owner
    }
  }

  /** A step either returns normally or raises with a message. */
  datatype Try = Normal(s: SessionWorker) | Abrupt(s: SessionWorker, error: string)

  // ----- paths resolved against the working directory ------------------------

  /** As written, a line logged from inside the worker's directory goes to the
      nested log file. */
  predicate Strays(b: Build, cwd: Cwd)
  {
    b == AsWritten && cwd == WorkerDir
  }

  /** `log_activity(activity)`. */
  function Note(b: Build, s: SessionWorker, activity: string): (r: SessionWorker)
    ensures r.comm.owner == s.comm.owner && r.comm.store == s.comm.store
    ensures r.dirs == s.dirs && r.files == s.files && r.cwd == s.cwd
    ensures s.comm.log <= r.comm.log
    ensures Progresses(r.comm.log) == Progresses(s.comm.log)
    ensures Progresses(r.stray) == Progresses(s.stray)
  {
    if Strays(b, s.cwd) then
      ProgressesConcat(s.stray, [LogEntry(activity, None)]);
      s.(stray := s.stray + [LogEntry(activity, None)])
    else s.(comm := s.comm.Log(activity))
  }

  /** `log_activity(activity, progress=p)`: the value reaches the worker's log,
      or the nested one. */
  function NoteAt(b: Build, s: SessionWorker, activity: string, p: int): (r: SessionWorker)
    ensures r.comm.owner == s.comm.owner && r.comm.store == s.comm.store
    ensures r.dirs == s.dirs && r.files == s.files && r.cwd == s.cwd
    ensures s.comm.log <= r.comm.log
    ensures Strays(b, s.cwd) ==>
              Progresses(r.comm.log) == Progresses(s.comm.log) && Progresses(r.stray) == Progresses(s.stray) + [p]
    ensures !Strays(b, s.cwd) ==>
              Progresses(r.comm.log) == Progresses(s.comm.log) + [p] && Progresses(r.stray) == Progresses(s.stray)
  {
    if Strays(b, s.cwd) then
      ProgressesConcat(s.stray, [LogEntry(activity, Some(p))]);
      s.(stray := s.stray + [LogEntry(activity, Some(p))])
    else s.(comm := s.comm.LogAt(activity, p))
  }

  /** `send_message`. From inside the worker's directory the store path names a
      file in a directory that does not exist: reading it yields nothing and
      writing it raises. */
  function Send(s: SessionWorker, ts: string, to: string, subject: string, body: string, priority: string): (r: Try)
    ensures r.Normal? <==> s.cwd == Start
    ensures r.s.comm.owner == s.comm.owner && r.s.comm.log == s.comm.log && r.s.stray == s.stray
    ensures r.s.dirs == s.dirs && r.s.files == s.files && r.s.cwd == s.cwd
    ensures r.Normal? ==>
              Contents(r.s.comm.store) == Contents(s.comm.store) + [Message(ts, s.Name(), to, subject, body, priority, Some(false))]
    ensures r.Abrupt? ==> r.s.comm.store == s.comm.store
  {
    match s.cwd
    case Start => Normal(s.(comm := s.comm.Send(ts, to, subject, body, priority)))
    case WorkerDir => Abrupt(s, NoSuchFile)
  }

  /** From `s` to `r` the store only grows, and every record it gains is
      addressed to the manager: the worker's own reports. */
  ghost predicate ReportsOnly(s: SessionWorker, r: SessionWorker)
  {
    && r.comm.owner == s.comm.owner
    && |Contents(s.comm.store)| <= |Contents(r.comm.store)|
    && Contents(r.comm.store)[..|Contents(s.comm.store)|] == Contents(s.comm.store)
    && forall i :: |Contents(s.comm.store)| <= i < |Contents(r.comm.store)| ==> Contents(r.comm.store)[i].to == ManagerName
  }

  /** A step that leaves the store alone sends nothing. */
  lemma NoReports(s: SessionWorker, r: SessionWorker)
    requires r.comm.owner == s.comm.owner && r.comm.store == s.comm.store
    ensures ReportsOnly(s, r)
  {
  }

  lemma ReportsOnlyTransitive(s0: SessionWorker, s1: SessionWorker, s2: SessionWorker)
    requires ReportsOnly(s0, s1) && ReportsOnly(s1, s2)
    ensures ReportsOnly(s0, s2)
  {
    var a, b, c := Contents(s0.comm.store), Contents(s1.comm.store), Contents(s2.comm.store);
    assert c[..|a|] == c[..|b|][..|a|];
    forall i | |a| <= i < |c|
      ensures c[i].to == ManagerName
    {
      if i < |b| {
        assert c[i] == c[..|b|][i];
      }
    }
  }

  /** Reports to the manager never change what is unread for any other
      participant, in particular for the worker itself. */
  lemma ReportsKeepUnread(s: SessionWorker, r: SessionWorker)
    requires ReportsOnly(s, r)
    ensures s.Name() != ManagerName ==>
              Unread(Contents(r.comm.store), s.Name()) == Unread(Contents(s.comm.store), s.Name())
  {
    if s.Name() != ManagerName {
      var a, c := Contents(s.comm.store), Contents(r.comm.store);
      var extra := c[|a|..];
      assert c == a + extra;
      UnreadConcat(a, extra, s.Name());
      forall m | m in extra
        ensures m.to == ManagerName
      {
        var j :| 0 <= j < |extra| && extra[j] == m;
        assert c[|a| + j] == m;
      }
      NothingUnreadAmongReports(extra, s.Name());
    }
  }

  lemma NothingUnreadAmongReports(reports: seq<Message>, name: string)
    requires name != ManagerName
    requires forall m :: m in reports ==> m.to == ManagerName
    ensures Unread(reports, name) == []
  {
  }

  // ----- the three modes ------------------------------------------------------

  function OutputName(taskName: string): string
  {
    OutputPrefix + taskName + OutputSuffix
  }

  function TempName(taskName: string): string
  {
    TempPrefix + taskName + PySuffix
  }

  /** One line of an output file: a label, a value, a line break. */
  function Field(key: string, value: string): string
  {
    key + value + Newline
  }

  /** The output file of a command task. */
  function CommandReport(taskName: string, command: string, code: int, stdout: string, stderr: string): string
  {
    Field(TaskLine, taskName) + Field(CommandLine, command) + Field(ExitLine, IntToString(code))
    + Field(StdoutLine, stdout) + Field(StderrLine, stderr)
  }

  /** The output file of a script task. */
  function ScriptReport(taskName: string, code: int, stdout: string, stderr: string): string
  {
    Field(TaskLine, taskName) + Field(ScriptLine, TempName(taskName)) + Field(ExitLine, IntToString(code))
    + Field(StdoutLine, stdout) + Field(StderrLine, stderr)
  }

  /** The output file of a generic task. */
  function GenericReport(taskName: string, description: string, worker: string, stamp: string): string
  {
    Field(TaskLine, taskName) + Field(DescriptionLine, description) + Field(WorkerLine, worker)
    + Field(ProcessedLine, stamp) + StatusLine
  }

  /** Each of five consecutive parts occurs in their concatenation. */
  lemma FivePartsOccur(a: string, b: string, c: string, d: string, e: string)
    ensures Contains(a, a + b + c + d + e) && Contains(b, a + b + c + d + e) && Contains(c, a + b + c + d + e)
    ensures Contains(d, a + b + c + d + e) && Contains(e, a + b + c + d + e)
  {
    ContainsInfix([], a, b);
    assert [] + a + b == a + b;
    ContainsExtended(a, a + b, c);
    ContainsExtended(a, a + b + c, d);
    ContainsExtended(a, a + b + c + d, e);
    ContainsInfix(a, b, c);
    ContainsExtended(b, a + b + c, d);
    ContainsExtended(b, a + b + c + d, e);
    ContainsInfix(a + b, c, d);
    ContainsExtended(c, a + b + c + d, e);
    ContainsInfix(a + b + c, d, e);
    ContainsInfix(a + b + c + d, e, []);
    assert a + b + c + d + e + [] == a + b + c + d + e;
  }

  /** The output file of a command task records the task, the command, the exit
      code (which reads back as the code), and both captured streams. */
  lemma CommandReportRecords(taskName: string, command: string, code: int, stdout: string, stderr: string)
    ensures var report := CommandReport(taskName, command, code, stdout, stderr);
      && Contains(Field(TaskLine, taskName), report)
      && Contains(Field(CommandLine, command), report)
      && Contains(Field(ExitLine, IntToString(code)), report)
      && Contains(Field(StdoutLine, stdout), report)
      && Contains(Field(StderrLine, stderr), report)
      && ParseInt(IntToString(code)) == Some(code)
  {
    FivePartsOccur(Field(TaskLine, taskName), Field(CommandLine, command), Field(ExitLine, IntToString(code)),
                   Field(StdoutLine, stdout), Field(StderrLine, stderr));
    ParseIntRoundTrip(code);
  }

  /** The output file of a script task names the temporary script file it ran. */
  lemma ScriptReportRecords(taskName: string, code: int, stdout: string, stderr: string)
    ensures var report := ScriptReport(taskName, code, stdout, stderr);
      && Contains(Field(ScriptLine, TempName(taskName)), report)
      && Contains(Field(ExitLine, IntToString(code)), report)
      && Contains(Field(StdoutLine, stdout), report)
      && Contains(Field(StderrLine, stderr), report)
  {
    FivePartsOccur(Field(TaskLine, taskName), Field(ScriptLine, TempName(taskName)), Field(ExitLine, IntToString(code)),
                   Field(StdoutLine, stdout), Field(StderrLine, stderr));
  }

  /** Whether a mode returns normally, given the outcomes it meets. */
  predicate ModeFinishes(task: Task, env: TaskEnv)
  {
    match ModeOf(task)
    case CommandMode(_) => env.run.Exited? && env.artifact.Ok?
    case ScriptMode(_) => env.script.Ok? && env.run.Exited? && env.artifact.Ok?
    case GenericMode => env.artifact.Ok?
  }

  /** The message of the exception a mode raises: the first failing step's. */
  function ModeError(task: Task, env: TaskEnv): string
  {
    match ModeOf(task)
    case CommandMode(_) =>
      if env.run.Raised? then env.run.error else if env.artifact.Fails? then env.artifact.error else ""
    case ScriptMode(_) =>
      if env.script.Fails? then env.script.error
      else if env.run.Raised? then env.run.error
      else if env.artifact.Fails? then env.artifact.error else ""
    case GenericMode => if env.artifact.Fails? then env.artifact.error else ""
  }

  /** The progress a mode that finishes logs to the worker's log, and to the
      nested log: 25 at its start and 75 at its end, where the 75 is logged
      from inside the worker's directory. */
  function MainSteps(b: Build): seq<int>
  {
    if b == Corrected then [25, 75] else [25]
  }

  function StraySteps(b: Build): seq<int>
  {
    if b == Corrected then [] else [75]
  }

  /** The handler of command and script mode: log the error (from where the
      working directory is), change back to the start directory, re-raise. */
  function Recover(b: Build, s: SessionWorker, failed: string, e: string): (r: Try)
    ensures r.Abrupt? && r.error == e && r.s.cwd == Start
    ensures r.s.comm.owner == s.comm.owner && r.s.comm.store == s.comm.store
    ensures r.s.dirs == s.dirs && r.s.files == s.files
    ensures s.comm.log <= r.s.comm.log
    ensures Progresses(r.s.comm.log) == Progresses(s.comm.log) && Progresses(r.s.stray) == Progresses(s.stray)
  {
    Abrupt(Note(b, s, failed + e).(cwd := Start), e)
  }

  /** The end of a mode that finished: log 75 from inside the worker's
      directory, then change back. */
  function Finish(b: Build, s: SessionWorker, done: string, p0: seq<int>): (r: Try)
    requires s.cwd == WorkerDir
    requires Progresses(s.comm.log) == p0 + [25]
    ensures r.Normal? && r.s.cwd == Start && r.s.files == s.files
    ensures r.s.comm.owner == s.comm.owner && r.s.comm.store == s.comm.store && r.s.dirs == s.dirs
    ensures s.comm.log <= r.s.comm.log
    ensures Progresses(r.s.comm.log) == p0 + MainSteps(b)
    ensures Progresses(r.s.stray) == Progresses(s.stray) + StraySteps(b)
  {
    var s1 := NoteAt(b, s, done, 75);
    assert b == Corrected ==> Progresses(s1.comm.log) == p0 + [25] + [75];
    Normal(s1.(cwd := Start))
  }

  /** What every mode keeps: owner, store and directories; the log only grows.
      A mode that finishes logs `MainSteps` and `StraySteps`; one that raises
      has logged 25 only, to the worker's log. */
  ghost predicate ModeStep(b: Build, s: SessionWorker, r: Try)
  {
    && r.s.comm.owner == s.comm.owner && r.s.comm.store == s.comm.store
    && r.s.dirs == s.dirs && s.comm.log <= r.s.comm.log
    && (r.Normal? ==> Progresses(r.s.comm.log) == Progresses(s.comm.log) + MainSteps(b)
                      && Progresses(r.s.stray) == Progresses(s.stray) + StraySteps(b))
    && (r.Abrupt? ==> Progresses(r.s.comm.log) == Progresses(s.comm.log) + [25]
                      && Progresses(r.s.stray) == Progresses(s.stray))
  }

  /** `execute_command_task`. */
  function RunCommandTask(b: Build, s: SessionWorker, task: Task, command: string, env: TaskEnv): (r: Try)
    requires s.cwd == Start
    ensures ModeStep(b, s, r) && r.s.cwd == Start
    ensures r.Normal? <==> env.run.Exited? && env.artifact.Ok?
    ensures r.Abrupt? ==> r.error == (if env.run.Raised? then env.run.error else env.artifact.error)
    ensures r.Normal? ==>
              var name := Get(task, NameKey, CommandTask);
              r.s.files == s.files[OutputName(name) := CommandReport(name, command, env.run.code, env.run.stdout, env.run.stderr)]
    ensures r.Abrupt? ==> r.s.files == s.files
  {
    var name := Get(task, NameKey, CommandTask);
    var s0 := NoteAt(b, s, ExecutingCommand + command, 25);
    var s1 := s0.(cwd := WorkerDir);
    match env.run
    case Raised(e) => Recover(b, s1, CommandFailed, e)
    case Exited(code, out, err) =>
      match env.artifact
      case Fails(e) => Recover(b, s1, CommandFailed, e)
      case Ok =>
        var s2 := s1.(files := s1.files[OutputName(name) := CommandReport(name, command, code, out, err)]);
        Finish(b, s2, CommandSucceeded + OutputName(name), Progresses(s.comm.log))
  }

  /** `execute_script_task`: the temporary file is removed only on the normal
      path. */
  function RunScriptTask(b: Build, s: SessionWorker, task: Task, source: string, env: TaskEnv): (r: Try)
    requires s.cwd == Start
    ensures ModeStep(b, s, r) && r.s.cwd == Start
    ensures r.Normal? <==> env.script.Ok? && env.run.Exited? && env.artifact.Ok?
    ensures r.Abrupt? ==>
              r.error == (if env.script.Fails? then env.script.error
                          else if env.run.Raised? then env.run.error else env.artifact.error)
    ensures var temp := TempName(Get(task, NameKey, ScriptTask));
      && (r.Normal? ==> temp !in r.s.files)
      && (r.Abrupt? && env.script.Ok? ==> temp in r.s.files && r.s.files[temp] == source)
  {
    var name := Get(task, NameKey, ScriptTask);
    var s0 := NoteAt(b, s, ExecutingScript + name, 25);
    var s1 := s0.(cwd := WorkerDir);
    match env.script
    case Fails(e) => Recover(b, s1, ScriptFailed, e)
    case Ok =>
      var s2 := s1.(files := s1.files[TempName(name) := source]);
      match env.run
      case Raised(e) => Recover(b, s2, ScriptFailed, e)
      case Exited(code, out, err) =>
        match env.artifact
        case Fails(e) => Recover(b, s2, ScriptFailed, e)
        case Ok =>
          var s3 := s2.(files := s2.files[OutputName(name) := ScriptReport(name, code, out, err)] - {TempName(name)});
          Finish(b, s3, ScriptSucceeded + OutputName(name), Progresses(s.comm.log))
  }

  /** `execute_generic_task`. It has no handler: as written, a failing write
      leaves the process inside the worker's directory. */
  function RunGenericTask(b: Build, s: SessionWorker, task: Task, env: TaskEnv, stamp: string): (r: Try)
    requires s.cwd == Start
    ensures ModeStep(b, s, r)
    ensures r.Normal? <==> env.artifact.Ok?
    ensures r.Abrupt? ==> r.error == env.artifact.error
    ensures r.s.cwd == WorkerDir <==> b == AsWritten && r.Abrupt?
    ensures r.Normal? ==>
              var name := Get(task, NameKey, GenericTask);
              r.s.files == s.files[OutputName(name) := GenericReport(name, Get(task, DescriptionKey, NoDescription), s.Name(), stamp)]
  {
    var name := Get(task, NameKey, GenericTask);
    var description := Get(task, DescriptionKey, NoDescription);
    var s0 := NoteAt(b, s, ProcessingGeneric + name, 25);
    var s1 := s0.(cwd := WorkerDir);
    match env.artifact
    case Fails(e) => Abrupt(if b == Corrected then s1.(cwd := Start) else s1, e)
    case Ok =>
      var s2 := s1.(files := s1.files[OutputName(name) := GenericReport(name, description, s.Name(), stamp)]);
      Finish(b, s2, GenericDone + OutputName(name), Progresses(s.comm.log))
  }

  /** A mode entered from inside the worker's directory: the relative
      `os.chdir` raises after progress 25; command and script mode log the
      error first. */
  function EnterFails(b: Build, s: SessionWorker, task: Task): (r: Try)
    ensures r.Abrupt? && r.error == NoSuchFile
    ensures r.s.comm.owner == s.comm.owner && r.s.comm.store == s.comm.store
    ensures r.s.dirs == s.dirs && r.s.cwd == s.cwd && s.comm.log <= r.s.comm.log
  {
    match ModeOf(task)
    case CommandMode(command) =>
      Abrupt(Note(b, NoteAt(b, s, ExecutingCommand + command, 25), CommandFailed + NoSuchFile), NoSuchFile)
    case ScriptMode(_) =>
      var name := Get(task, NameKey, ScriptTask);
      Abrupt(Note(b, NoteAt(b, s, ExecutingScript + name, 25), ScriptFailed + NoSuchFile), NoSuchFile)
    case GenericMode =>
      Abrupt(NoteAt(b, s, ProcessingGeneric + Get(task, NameKey, GenericTask), 25), NoSuchFile)
  }

  /** The mode `process_task` picks for `task`. From the start directory it
      raises exactly when the mode does not finish, with that step's error. */
  function RunMode(b: Build, s: SessionWorker, task: Task, env: TaskEnv, stamp: string): (r: Try)
    ensures r.s.comm.owner == s.comm.owner && r.s.comm.store == s.comm.store
    ensures r.s.dirs == s.dirs && s.comm.log <= r.s.comm.log
    ensures s.cwd == Start ==> ModeStep(b, s, r)
    ensures s.cwd == Start ==> (r.Normal? <==> ModeFinishes(task, env))
    ensures s.cwd == Start && r.Abrupt? ==> r.error == ModeError(task, env)
    ensures s.cwd == Start ==> (r.s.cwd == WorkerDir <==> b == AsWritten && r.Abrupt? && ModeOf(task).GenericMode?)
    ensures s.cwd == WorkerDir ==> r.Abrupt? && r.s.cwd == WorkerDir
  {
    if s.cwd == WorkerDir then EnterFails(b, s, task)
    else
      match ModeOf(task)
      case CommandMode(command) => RunCommandTask(b, s, task, command, env)
      case ScriptMode(source) => RunScriptTask(b, s, task, source, env)
      case GenericMode => RunGenericTask(b, s, task, env, stamp)
  }

  /** Command and script mode are back in the start directory on both paths;
      generic mode is, as written, only on the normal path, and always once
      corrected. */
  lemma ModesRestoreCwd(b: Build, s: SessionWorker, task: Task, env: TaskEnv, stamp: string)
    requires s.cwd == Start
    ensures !ModeOf(task).GenericMode? ==> RunMode(b, s, task, env, stamp).s.cwd == Start
    ensures b == Corrected ==> RunMode(b, s, task, env, stamp).s.cwd == Start
    ensures ModeOf(task).GenericMode? && b == AsWritten && env.artifact.Fails? ==>
              RunMode(b, s, task, env, stamp).s.cwd == WorkerDir
  {
  }

  // ----- one task file ---------------------------------------------------------

  /** The start report of a task. */
  function StartMessage(ts: string, worker: string, name: string): Message
  {
    Message(ts, worker, ManagerName, StartSubject + name, TaskQuote + name + StartedBy + worker, Medium, Some(false))
  }

  /** The completion report of a task. */
  function DoneMessage(ts: string, worker: string, name: string): Message
  {
    Message(ts, worker, ManagerName, DoneSubject + name, TaskQuote + name + CompletedBy + worker, Medium, Some(false))
  }

  /** The error report for the task file `file`. */
  function ErrorMessage(ts: string, worker: string, file: string, e: string): Message
  {
    Message(ts, worker, ManagerName, ErrorSubject + file, ErrorBody + e, High, Some(false))
  }

  /** Whether `complete_task` can move `file`: the move succeeds, the file is
      pending, and the relative path is resolved from the start directory. */
  predicate Moves(s: SessionWorker, file: string, move: Step)
  {
    move.Ok? && file in s.dirs.pending && s.cwd == Start
  }

  /** `complete_task`: move the file under the same name, log 100, report the
      completion. A failing move is logged and swallowed, and nothing is sent. */
  function CompleteTask(b: Build, s: SessionWorker, file: string, task: Task, move: Step, ts: string): (r: SessionWorker)
    ensures r.comm.owner == s.comm.owner && r.cwd == s.cwd && r.files == s.files && s.comm.log <= r.comm.log
    ensures Progresses(r.stray) == Progresses(s.stray)
    ensures Moves(s, file, move) ==>
              && r.dirs == Move(s.dirs, file)
              && Progresses(r.comm.log) == Progresses(s.comm.log) + [100]
              && Contents(r.comm.store) == Contents(s.comm.store) + [DoneMessage(ts, s.Name(), Get(task, NameKey, UnknownTask))]
    ensures !Moves(s, file, move) ==>
              r.dirs == s.dirs && r.comm.store == s.comm.store && Progresses(r.comm.log) == Progresses(s.comm.log)
    ensures ReportsOnly(s, r)
  {
    var name := Get(task, NameKey, UnknownTask);
    if s.cwd == WorkerDir || file !in s.dirs.pending then Note(b, s, CompletionFailed + NoSuchFile)
    else
      match move
      case Fails(e) => Note(b, s, CompletionFailed + e)
      case Ok =>
        var s1 := NoteAt(b, s.(dirs := Move(s.dirs, file)), TaskCompleted + name, 100);
        Send(s1, ts, ManagerName, DoneSubject + name, TaskQuote + name + CompletedBy + s.Name(), Medium).s
  }

  /** The handler of `process_task`: log the error and report it to the
      manager. The report itself raises when the process is inside the worker's
      directory. */
  function ReportError(b: Build, s: SessionWorker, file: string, e: string, ts: string): (r: Try)
    ensures r.Normal? <==> s.cwd == Start
    ensures r.s.comm.owner == s.comm.owner && r.s.dirs == s.dirs && r.s.files == s.files && r.s.cwd == s.cwd
    ensures s.comm.log <= r.s.comm.log
    ensures Progresses(r.s.comm.log) == Progresses(s.comm.log) && Progresses(r.s.stray) == Progresses(s.stray)
    ensures r.Normal? ==> Contents(r.s.comm.store) == Contents(s.comm.store) + [ErrorMessage(ts, s.Name(), file, e)]
    ensures r.Abrupt? ==> r.s.comm.store == s.comm.store
    ensures ReportsOnly(s, r.s)
  {
    var s0 := Note(b, s, ProcessingError + PendingRoot + s.Name() + Slash + file + Colon + e);
    Send(s0, ts, ManagerName, ErrorSubject + file, ErrorBody + e, High)
  }

  /** As written, a failing generic task strands the process inside the
      worker's directory. */
  predicate Strands(b: Build, task: Task, env: TaskEnv)
  {
    b == AsWritten && ModeOf(task).GenericMode? && !ModeFinishes(task, env)
  }

  /** `process_task` from the point where the start report has been sent: run
      the mode, then complete the task or report the error. */
  function ProcessLoaded(b: Build, s: SessionWorker, file: string, task: Task, env: TaskEnv, ts: string): (r: Try)
    requires s.cwd == Start
    ensures r.s.comm.owner == s.comm.owner && s.comm.log <= r.s.comm.log
    ensures r.Abrupt? <==> Strands(b, task, env)
    ensures r.Normal? ==> r.s.cwd == Start
    ensures r.Abrupt? ==> r.s.cwd == WorkerDir && r.s.dirs == s.dirs && r.s.comm.store == s.comm.store
    ensures ModeFinishes(task, env) && Moves(s, file, env.move) ==>
              && r.s.dirs == Move(s.dirs, file)
              && Contents(r.s.comm.store) == Contents(s.comm.store) + [DoneMessage(ts, s.Name(), Get(task, NameKey, UnknownTask))]
              && Progresses(r.s.comm.log) == Progresses(s.comm.log) + MainSteps(b) + [100]
              && Progresses(r.s.stray) == Progresses(s.stray) + StraySteps(b)
    ensures ModeFinishes(task, env) && !Moves(s, file, env.move) ==>
              r.s.dirs == s.dirs && r.s.comm.store == s.comm.store
    ensures !ModeFinishes(task, env) && !Strands(b, task, env) ==>
              && r.s.dirs == s.dirs
              && Contents(r.s.comm.store) == Contents(s.comm.store) + [ErrorMessage(ts, s.Name(), file, ModeError(task, env))]
              && Progresses(r.s.comm.log) == Progresses(s.comm.log) + [25]
  {
    match RunMode(b, s, task, env, ts)
    case Abrupt(s1, e) => ReportError(b, s1, file, e, ts)
    case Normal(s1) =>
      var r := CompleteTask(b, s1, file, task, env.move, ts);
      if Moves(s1, file, env.move) then
        AppendChain(Progresses(s.comm.log), Progresses(s1.comm.log), Progresses(r.comm.log), MainSteps(b), [100]);
        Normal(r)
      else Normal(r)
  }

  /** The progress a task that succeeds logs to the worker's own log. */
  function TaskProgress(b: Build): seq<int>
  {
    [0] + MainSteps(b) + [100]
  }

  lemma ProgressChain(p0: seq<int>, p1: seq<int>, p2: seq<int>, b: Build)
    requires p1 == p0 + [0] && p2 == p1 + MainSteps(b) + [100]
    ensures p2 == p0 + TaskProgress(b)
  {
    AppendChain(p0, p1, p1 + MainSteps(b), [0], MainSteps(b));
    AppendChain(p0, p1 + MainSteps(b), p2, [0] + MainSteps(b), [100]);
  }

  /** `json.load(open(task_file))`: the relative path names the file only from
      the start directory. */
  function LoadFrom(s: SessionWorker, file: string): (r: Loaded)
    ensures r.Loaded? <==> s.cwd == Start && file in s.dirs.pending && s.dirs.pending[file].Parsed?
    ensures r.Loaded? ==> r.task == s.dirs.pending[file].task
  {
    match s.cwd
    case Start => Load(s.dirs.pending, file)
    case WorkerDir => LoadError(NoSuchFile)
  }

  /** A listed file the worker completes: it parses, its mode finishes, and the
      move succeeds. */
  predicate Ready(d: Dir, file: string, world: World)
  {
    file in d && d[file].Parsed? && ModeFinishes(d[file].task, world.outcome(file)) && world.outcome(file).move.Ok?
  }

  /** A listed file whose processing, as written, strands the worker. */
  predicate StrandsOn(b: Build, d: Dir, file: string, world: World)
  {
    file in d && d[file].Parsed? && Strands(b, d[file].task, world.outcome(file))
  }

  /** The start of `process_task` for a task that parses: progress 0, then the
      start report. */
  function Started(b: Build, s: SessionWorker, task: Task, world: World): (r: SessionWorker)
    requires s.cwd == Start
    ensures r.cwd == Start && r.dirs == s.dirs && r.comm.owner == s.comm.owner
    ensures s.comm.log <= r.comm.log && Progresses(r.comm.log) == Progresses(s.comm.log) + [0]
    ensures r.files == s.files && r.stray == s.stray
    ensures Contents(r.comm.store) == Contents(s.comm.store) + [StartMessage(world.stamp, s.Name(), Get(task, NameKey, UnknownTask))]
    ensures ReportsOnly(s, r)
  {
    var name := Get(task, NameKey, UnknownTask);
    Send(NoteAt(b, s, StartingTask + name, 0), world.stamp, ManagerName, StartSubject + name,
         TaskQuote + name + StartedBy + s.Name(), Medium).s
  }

  /** `process_task(task_file)`. */
  function ProcessTask(b: Build, s: SessionWorker, file: string, world: World): (r: Try)
    ensures r.s.comm.owner == s.comm.owner && s.comm.log <= r.s.comm.log
    ensures s.cwd == Start && Ready(s.dirs.pending, file, world) ==> r.s.dirs == Move(s.dirs, file)
    ensures !(s.cwd == Start && Ready(s.dirs.pending, file, world)) ==> r.s.dirs == s.dirs
    ensures s.cwd == Start ==> (r.Abrupt? <==> StrandsOn(b, s.dirs.pending, file, world))
    ensures r.Normal? ==> r.s.cwd == Start
    ensures s.cwd == WorkerDir ==> r.Abrupt? && r.s.cwd == WorkerDir && r.s.comm.store == s.comm.store
    ensures s.cwd == Start && Ready(s.dirs.pending, file, world) ==>
              var name := Get(s.dirs.pending[file].task, NameKey, UnknownTask);
              && Contents(r.s.comm.store) == Contents(s.comm.store) + [StartMessage(world.stamp, s.Name(), name), DoneMessage(world.stamp, s.Name(), name)]
              && Progresses(r.s.comm.log) == Progresses(s.comm.log) + TaskProgress(b)
              && Progresses(r.s.stray) == Progresses(s.stray) + StraySteps(b)
    ensures s.cwd == Start && LoadFrom(s, file).LoadError? ==>
              Contents(r.s.comm.store) == Contents(s.comm.store) + [ErrorMessage(world.stamp, s.Name(), file, LoadFrom(s, file).reason)]
  {
    match LoadFrom(s, file)
    case LoadError(e) => ReportError(b, s, file, e, world.stamp)
    case Loaded(task) =>
      var name := Get(task, NameKey, UnknownTask);
      var s1 := Started(b, s, task, world);
      var r := ProcessLoaded(b, s1, file, task, world.outcome(file), world.stamp);
      if Ready(s.dirs.pending, file, world) then
        ProgressChain(Progresses(s.comm.log), Progresses(s1.comm.log), Progresses(r.s.comm.log), b);
        AppendChain(Contents(s.comm.store), Contents(s1.comm.store), Contents(r.s.comm.store),
                    [StartMessage(world.stamp, s.Name(), name)], [DoneMessage(world.stamp, s.Name(), name)]);
        r
      else r
  }

  /** A processed file is either moved to completed or left where it was. */
  lemma ProcessTaskConserves(b: Build, s: SessionWorker, file: string, world: World)
    ensures Conserves(s.dirs, ProcessTask(b, s, file, world).s.dirs)
  {
    if s.cwd == Start && Ready(s.dirs.pending, file, world) {
      MoveConserves(s.dirs, file);
    }
  }

  /** Everything a task sends goes to the manager. */
  lemma ProcessTaskReportsOnly(b: Build, s: SessionWorker, file: string, world: World)
    ensures ReportsOnly(s, ProcessTask(b, s, file, world).s)
  {
    if LoadFrom(s, file).Loaded? {
      var task := LoadFrom(s, file).task;
      var s1 := Started(b, s, task, world);
      var r := ProcessLoaded(b, s1, file, task, world.outcome(file), world.stamp);
      assert ReportsOnly(s1, r.s);
      ReportsOnlyTransitive(s, s1, r.s);
    }
  }

  // ----- polling the pending directory -----------------------------------------

  /** The loop of `check_pending_tasks`: an exception out of `process_task` ends
      it. */
  function ProcessAll(b: Build, s: SessionWorker, files: seq<string>, world: World): (r: Try)
    ensures r.s.comm.owner == s.comm.owner && s.comm.log <= r.s.comm.log
    ensures Conserves(s.dirs, r.s.dirs)
    ensures s.cwd == Start && r.Normal? ==> r.s.cwd == Start
    ensures b == Corrected && s.cwd == Start ==> r.Normal?
    decreases |files|
  {
    if |files| == 0 then ConservesReflexive(s.dirs); Normal(s)
    else
      ProcessTaskConserves(b, s, files[0], world);
      match ProcessTask(b, s, files[0], world)
      case Abrupt(s1, e) => Abrupt(s1, e)
      case Normal(s1) =>
        var r := ProcessAll(b, s1, files[1..], world);
        ConservesTransitive(s.dirs, s1.dirs, r.s.dirs);
        r
  }

  /** `check_pending_tasks`. The listing is relative, so from inside the
      worker's directory it finds nothing. An exception that escapes a task is
      logged and ends the pass. */
  function CheckPendingTasks(b: Build, s: SessionWorker, world: World): (r: SessionWorker)
    ensures r.comm.owner == s.comm.owner && s.comm.log <= r.comm.log
    ensures Conserves(s.dirs, r.dirs)
    ensures s.cwd == WorkerDir ==> r == s
    ensures b == Corrected && s.cwd == Start ==> r.cwd == Start
    ensures ReportsOnly(s, r)
  {
    var files := match s.cwd case Start => Glob(world.enumerate(s.dirs.pending)) case WorkerDir => [];
    if |files| == 0 then ConservesReflexive(s.dirs); s
    else
      var s1 := Note(b, s, Found + NatToString(|files|) + PendingCount);
      ProcessAllReportsOnly(b, s1, files, world);
      match ProcessAll(b, s1, files, world)
      case Normal(s2) => s2
      case Abrupt(s2, e) => Note(b, s2, CheckFailed + e)
  }

  /** Everything a pass over the listed files sends goes to the manager. */
  lemma {:induction false} ProcessAllReportsOnly(b: Build, s: SessionWorker, files: seq<string>, world: World)
    ensures ReportsOnly(s, ProcessAll(b, s, files, world).s)
    decreases |files|
  {
    if |files| > 0 {
      ProcessTaskReportsOnly(b, s, files[0], world);
      var t := ProcessTask(b, s, files[0], world);
      if t.Normal? {
        ProcessAllReportsOnly(b, t.s, files[1..], world);
        ReportsOnlyTransitive(s, t.s, ProcessAll(b, t.s, files[1..], world).s);
      }
    }
  }

  /** A file that is not listed is left where it is. */
  lemma {:induction false} ProcessAllKeepsOthers(b: Build, s: SessionWorker, files: seq<string>, world: World, f: string)
    requires f !in files
    ensures var r := ProcessAll(b, s, files, world);
      && (f in r.s.dirs.pending <==> f in s.dirs.pending)
      && (f in s.dirs.pending ==> r.s.dirs.pending[f] == s.dirs.pending[f])
      && (f in r.s.dirs.completed <==> f in s.dirs.completed)
      && (f in s.dirs.completed ==> r.s.dirs.completed[f] == s.dirs.completed[f])
    decreases |files|
  {
    if |files| > 0 {
      var p := ProcessTask(b, s, files[0], world);
      if p.Normal? {
        ProcessAllKeepsOthers(b, p.s, files[1..], world, f);
      }
    }
  }

  /** Once corrected, one pass over distinct listed files moves exactly the
      ready ones to completed, unchanged, and leaves the others pending for a
      retry. */
  lemma {:induction false} CorrectedSettlesEachFile(s: SessionWorker, files: seq<string>, world: World)
    requires s.cwd == Start && Distinct(files)
    ensures var r := ProcessAll(Corrected, s, files, world);
      forall f :: f in files && f in s.dirs.pending ==>
        && (f in r.s.dirs.pending <==> !Ready(s.dirs.pending, f, world))
        && (Ready(s.dirs.pending, f, world) ==> f in r.s.dirs.completed && r.s.dirs.completed[f] == s.dirs.pending[f])
    decreases |files|
  {
    if |files| > 0 {
      var f0 := files[0];
      var s1 := ProcessTask(Corrected, s, f0, world).s;
      var rest := files[1..];
      DistinctTail(files);
      CorrectedSettlesEachFile(s1, rest, world);
      ProcessAllKeepsOthers(Corrected, s1, rest, world, f0);
      var r := ProcessAll(Corrected, s1, rest, world);
      assert r == ProcessAll(Corrected, s, files, world);
      forall f | f in rest && f in s.dirs.pending
        ensures f in s1.dirs.pending && s1.dirs.pending[f] == s.dirs.pending[f]
      {
        assert f in files && f != f0;
      }
    }
  }

  /** Once corrected, a pass over a complete listing of the pending directory
      completes every ready `.json` file and leaves every other file pending. */
  lemma CorrectedCheckSettles(s: SessionWorker, world: World)
    requires s.cwd == Start && Enumerates(world.enumerate(s.dirs.pending), s.dirs.pending)
    ensures var r := CheckPendingTasks(Corrected, s, world);
      forall f :: f in s.dirs.pending ==>
        && (f in r.dirs.pending <==> !(IsJsonName(f) && Ready(s.dirs.pending, f, world)))
        && (IsJsonName(f) && Ready(s.dirs.pending, f, world) ==>
              f in r.dirs.completed && r.dirs.completed[f] == s.dirs.pending[f])
  {
    var files := Glob(world.enumerate(s.dirs.pending));
    GlobListsJson(world.enumerate(s.dirs.pending), s.dirs.pending);
    if |files| > 0 {
      var s1 := Note(Corrected, s, Found + NatToString(|files|) + PendingCount);
      CorrectedSettlesEachFile(s1, files, world);
      forall f | f in s.dirs.pending && f !in files
        ensures f in CheckPendingTasks(Corrected, s, world).dirs.pending
      {
        ProcessAllKeepsOthers(Corrected, s1, files, world, f);
      }
    }
  }

  // ----- messages ---------------------------------------------------------------

  /** What a subject asks of the worker. */
  datatype Command = Stop | Retry | Ignore

  /** The stop words are checked first: a subject holding both a stop word and
      the retry word stops the worker. */
  function CommandIn(subject: string): Command
  {
    if Contains(StopWord, subject) || Contains(StopWordLatin, Lower(subject)) then Stop
    else if Contains(RetryWord, subject) then Retry
    else Ignore
  }

  /** The Latin stop word is recognised in any mix of letter case. */
  lemma StopInAnyCase(subject: string)
    ensures CommandIn(subject).Stop? <==>
              Contains(StopWord, subject) || exists i :: OccursAtIgnoringCase(StopWordLatin, subject, i)
  {
    assert Lower(StopWordLatin) == StopWordLatin;
    LowerFindsAnyCase(StopWordLatin, subject);
  }

  /** The state after handling messages, and whether a stop command was seen. */
  datatype Handled = Handled(s: SessionWorker, stop: bool)

  /** What the handling of messages keeps: the owner, the task files, and a
      working directory that was the start one stays so once corrected; from
      inside the worker's directory nothing can be moved. */
  ghost predicate HandlingStep(b: Build, s: SessionWorker, r: SessionWorker)
  {
    && r.comm.owner == s.comm.owner && s.comm.log <= r.comm.log
    && Conserves(s.dirs, r.dirs)
    && (s.cwd == WorkerDir ==> r.cwd == WorkerDir && r.dirs == s.dirs)
    && (b == Corrected && s.cwd == Start ==> r.cwd == Start)
  }

  /** One message in `check_messages`: logged, then a stop command ends the
      loop after this pass and a retry command runs `check_pending_tasks`. */
  function HandleMessage(b: Build, s: SessionWorker, m: Message, world: World): (r: Handled)
    ensures HandlingStep(b, s, r.s)
    ensures r.stop <==> CommandIn(m.subject).Stop?
    ensures !CommandIn(m.subject).Retry? ==> r.s.dirs == s.dirs && r.s.comm.store == s.comm.store && r.s.cwd == s.cwd
    ensures CommandIn(m.subject).Retry? ==>
              r.s == CheckPendingTasks(b, Note(b, Note(b, s, Received + m.sender + Colon + m.subject), RetryReceived), world)
    ensures ReportsOnly(s, r.s)
  {
    var s1 := Note(b, s, Received + m.sender + Colon + m.subject);
    match CommandIn(m.subject)
    case Stop => ConservesReflexive(s.dirs); NoReports(s, Note(b, s1, StopReceived)); Handled(Note(b, s1, StopReceived), true)
    case Retry =>
      var s2 := Note(b, s1, RetryReceived);
      NoReports(s, s2);
      ReportsOnlyTransitive(s, s2, CheckPendingTasks(b, s2, world));
      Handled(CheckPendingTasks(b, s2, world), false)
    case Ignore => ConservesReflexive(s.dirs); NoReports(s, s1); Handled(s1, false)
  }

  /** A retry command rescans the pending directory: once corrected, and from
      the start directory, every pending `.json` file that can complete moves to
      completed with its contents, and every other file stays pending. */
  lemma RetryRescans(s: SessionWorker, m: Message, world: World)
    requires CommandIn(m.subject).Retry? && s.cwd == Start
    requires Enumerates(world.enumerate(s.dirs.pending), s.dirs.pending)
    ensures var h := HandleMessage(Corrected, s, m, world);
      && !h.stop && h.s.cwd == Start
      && forall f :: f in s.dirs.pending ==>
           && (f in h.s.dirs.pending <==> !(IsJsonName(f) && Ready(s.dirs.pending, f, world)))
           && (IsJsonName(f) && Ready(s.dirs.pending, f, world) ==>
                 f in h.s.dirs.completed && h.s.dirs.completed[f] == s.dirs.pending[f])
  {
    var s1 := Note(Corrected, Note(Corrected, s, Received + m.sender + Colon + m.subject), RetryReceived);
    CorrectedCheckSettles(s1, world);
  }

  /** The loop over the messages read: a stop command does not cut it short. */
  function HandleAll(b: Build, s: SessionWorker, ms: seq<Message>, world: World): (r: Handled)
    ensures HandlingStep(b, s, r.s)
    ensures r.stop <==> exists m :: m in ms && CommandIn(m.subject).Stop?
    ensures ReportsOnly(s, r.s)
    decreases |ms|
  {
    if |ms| == 0 then ConservesReflexive(s.dirs); Handled(s, false)
    else
      var h := HandleMessage(b, s, ms[0], world);
      var t := HandleAll(b, h.s, ms[1..], world);
      ConservesTransitive(s.dirs, h.s.dirs, t.s.dirs);
      ReportsOnlyTransitive(s, h.s, t.s);
      assert forall m :: m in ms <==> m == ms[0] || m in ms[1..];
      Handled(t.s, h.stop || t.stop)
  }

  /** Handling a batch is handling its first part, then the rest from there. */
  lemma {:induction false} HandleAllSplit(b: Build, s: SessionWorker, ms1: seq<Message>, ms2: seq<Message>, world: World)
    ensures var h1 := HandleAll(b, s, ms1, world);
      var h2 := HandleAll(b, h1.s, ms2, world);
      HandleAll(b, s, ms1 + ms2, world) == Handled(h2.s, h1.stop || h2.stop)
    decreases |ms1|
  {
    if |ms1| == 0 {
      assert ms1 + ms2 == ms2;
    } else {
      var ms := ms1 + ms2;
      var h := HandleMessage(b, s, ms1[0], world);
      assert ms[0] == ms1[0] && ms[1..] == ms1[1..] + ms2;
      HandleAllSplit(b, h.s, ms1[1..], ms2, world);
      var t := HandleAll(b, h.s, ms[1..], world);
      assert HandleAll(b, s, ms, world) == Handled(t.s, h.stop || t.stop);
    }
  }

  /** The outcome of `check_messages`, or of one tick: the loop goes on (or
      stops), or an exception ends the process. */
  datatype Poll = Polled(s: SessionWorker, stop: bool) | Crashed(s: SessionWorker, error: string)

  /** `check_messages`: read the unread messages addressed to the worker, mark
      them read, handle each. From inside the worker's directory the store
      reads as empty and writing it back raises, and nothing catches that. */
  function CheckMessages(b: Build, s: SessionWorker, world: World): (r: Poll)
    ensures r.Crashed? <==> s.cwd == WorkerDir
    ensures r.Crashed? ==> r.s == s && r.error == NoSuchFile
    ensures r.Polled? ==> HandlingStep(b, s, r.s)
    ensures r.Polled? ==> (r.stop <==> exists m :: m in Unread(Contents(s.comm.store), s.Name()) && CommandIn(m.subject).Stop?)
    ensures r.Polled? && s.Name() != ManagerName ==> Unread(Contents(r.s.comm.store), s.Name()) == []
  {
    match s.cwd
    case WorkerDir => Crashed(s, NoSuchFile)
    case Start =>
      var (ms, c) := s.comm.ReadMine();
      var h := HandleAll(b, s.(comm := c), ms, world);
      NothingUnreadAfterMark(Contents(s.comm.store), s.Name());
      ReportsKeepUnread(s.(comm := c), h.s);
      Polled(h.s, h.stop)
  }

  // ----- the main loop -------------------------------------------------------------

  /** `run`: the pending directory every 30 seconds, then the messages every 20. */
  const Intervals := [30, 20]

  /** The first half of a tick: `check_pending_tasks` when it is due. It sends
      only to the manager, so what is unread for the worker stays as it was. */
  function TasksIfDue(b: Build, s: SessionWorker, due: bool, world: World): (r: SessionWorker)
    ensures r.comm.owner == s.comm.owner && s.comm.log <= r.comm.log
    ensures Conserves(s.dirs, r.dirs)
    ensures b == Corrected && s.cwd == Start ==> r.cwd == Start
    ensures s.Name() != ManagerName ==>
              Unread(Contents(r.comm.store), s.Name()) == Unread(Contents(s.comm.store), s.Name())
  {
    if due then
      ReportsKeepUnread(s, CheckPendingTasks(b, s, world));
      CheckPendingTasks(b, s, world)
    else
      ConservesReflexive(s.dirs);
      s
  }

  /** One iteration of `run` at `world.time`. */
  function Tick(b: Build, s: SessionWorker, lasts: seq<int>, world: World): (r: Poll)
    requires |lasts| == |Intervals|
    ensures r.s.comm.owner == s.comm.owner && s.comm.log <= r.s.comm.log
    ensures Conserves(s.dirs, r.s.dirs)
    ensures r.Polled? && r.stop ==> PlanTick(world.time, lasts, Intervals).runs[1]
    ensures r.Crashed? ==> PlanTick(world.time, lasts, Intervals).runs[1]
    ensures b == Corrected && s.cwd == Start ==> r.Polled? && r.s.cwd == Start
    ensures s.Name() != ManagerName ==>
              (r.Polled? && r.stop <==>
                 && PlanTick(world.time, lasts, Intervals).runs[1] && r.Polled?
                 && exists m :: m in Unread(Contents(s.comm.store), s.Name()) && CommandIn(m.subject).Stop?)
    ensures s.Name() != ManagerName && r.Polled? ==>
              Unread(Contents(r.s.comm.store), s.Name())
                == if PlanTick(world.time, lasts, Intervals).runs[1] then [] else Unread(Contents(s.comm.store), s.Name())
  {
    var plan := PlanTick(world.time, lasts, Intervals);
    var s1 := TasksIfDue(b, s, plan.runs[0], world);
    if plan.runs[1] then
      var r := CheckMessages(b, s1, world);
      if r.Polled? then ConservesTransitive(s.dirs, s1.dirs, r.s.dirs); r else r
    else Polled(s1, false)
  }

  /** Each half of an iteration does its work exactly when it is due. With
      neither check due nothing happens. Once corrected and from the start
      directory, a due task check over a complete listing ends the iteration
      with every ready `.json` file completed with its contents, whatever the
      message check then does; when the message check is not due as well,
      every other file is still pending. */
  lemma TickDoesWhatIsDue(b: Build, s: SessionWorker, lasts: seq<int>, world: World)
    requires |lasts| == |Intervals|
    ensures !Due(world.time, lasts[0], 30) && !Due(world.time, lasts[1], 20) ==>
              Tick(b, s, lasts, world) == Polled(s, false)
    ensures b == Corrected && s.cwd == Start && Due(world.time, lasts[0], 30)
            && Enumerates(world.enumerate(s.dirs.pending), s.dirs.pending) ==>
              var r := Tick(b, s, lasts, world);
              forall f :: f in s.dirs.pending && IsJsonName(f) && Ready(s.dirs.pending, f, world) ==>
                f !in r.s.dirs.pending && f in r.s.dirs.completed && r.s.dirs.completed[f] == s.dirs.pending[f]
    ensures b == Corrected && s.cwd == Start && Due(world.time, lasts[0], 30) && !Due(world.time, lasts[1], 20)
            && Enumerates(world.enumerate(s.dirs.pending), s.dirs.pending) ==>
              var r := Tick(b, s, lasts, world);
              forall f :: f in s.dirs.pending ==> (f in r.s.dirs.pending <==> !(IsJsonName(f) && Ready(s.dirs.pending, f, world)))
  {
    var plan := PlanTick(world.time, lasts, Intervals);
    if b == Corrected && s.cwd == Start && plan.runs[0] && Enumerates(world.enumerate(s.dirs.pending), s.dirs.pending) {
      CorrectedCheckSettles(s, world);
      var s1 := CheckPendingTasks(b, s, world);
      var r := Tick(b, s, lasts, world);
      assert Conserves(s1.dirs, r.s.dirs);
      forall f | f in s.dirs.pending && IsJsonName(f) && Ready(s.dirs.pending, f, world)
        ensures f !in r.s.dirs.pending && f in r.s.dirs.completed && r.s.dirs.completed[f] == s.dirs.pending[f]
      {
        assert f in s1.dirs.completed.Keys;
        assert f in r.s.dirs.pending.Keys + r.s.dirs.completed.Keys;
      }
    }
  }

  /** How a run over a sequence of ticks ended: the state, the number of ticks
      taken, and whether a stop command or an exception ended it. */
  datatype RunEnd = RunEnd(s: SessionWorker, ticks: nat, stopped: bool, crashed: bool)

  /** `while self.running:` over the ticks `worlds`, one second apart or more. */
  function Run(b: Build, s: SessionWorker, lasts: seq<int>, worlds: seq<World>): (r: RunEnd)
    requires |lasts| == |Intervals|
    ensures r.ticks <= |worlds| && !(r.stopped && r.crashed)
    ensures r.ticks < |worlds| ==> r.stopped || r.crashed
    ensures r.s.comm.owner == s.comm.owner && s.comm.log <= r.s.comm.log
    ensures Conserves(s.dirs, r.s.dirs)
    ensures b == Corrected && s.cwd == Start ==> !r.crashed && r.s.cwd == Start
    ensures s.Name() != ManagerName && r.stopped ==>
              exists m :: m in Unread(Contents(s.comm.store), s.Name()) && CommandIn(m.subject).Stop?
    decreases |worlds|
  {
    if |worlds| == 0 then ConservesReflexive(s.dirs); RunEnd(s, 0, false, false)
    else
      var lasts1 := PlanTick(worlds[0].time, lasts, Intervals).lasts;
      match Tick(b, s, lasts, worlds[0])
      case Crashed(s1, _) => RunEnd(s1, 1, false, true)
      case Polled(s1, stop) =>
        if stop then RunEnd(s1, 1, true, false)
        else
          var rest := Run(b, s1, lasts1, worlds[1..]);
          ConservesTransitive(s.dirs, s1.dirs, rest.s.dirs);
          RunEnd(rest.s, rest.ticks + 1, rest.stopped, rest.crashed)
  }

  /** Once corrected and from the start directory, an unread stop command ends
      the run at the first tick whose message check is due. */
  lemma RunStopsOnCommand(s: SessionWorker, lasts: seq<int>, worlds: seq<World>)
    requires |lasts| == |Intervals| && |worlds| > 0
    requires s.cwd == Start && s.Name() != ManagerName
    requires PlanTick(worlds[0].time, lasts, Intervals).runs[1]
    requires exists m :: m in Unread(Contents(s.comm.store), s.Name()) && CommandIn(m.subject).Stop?
    ensures var r := Run(Corrected, s, lasts, worlds);
      r.stopped && r.ticks == 1
  {
  }

  /** The first iteration, at 30 seconds or later, checks the pending directory
      and then the messages. */
  lemma FirstTickRunsBoth(b: Build, s: SessionWorker, world: World)
    requires world.time >= 30
    ensures Tick(b, s, Zeros(2), world) == CheckMessages(b, CheckPendingTasks(b, s, world), world)
  {
    FirstTickRunsEverything(world.time, Intervals);
  }

  // ----- what a single task file leads to ----------------------------------------

  lemma ProcessTaskUnfolds(b: Build, s: SessionWorker, file: string, world: World)
    requires s.cwd == Start && file in s.dirs.pending && s.dirs.pending[file].Parsed?
    ensures var task := s.dirs.pending[file].task;
      ProcessTask(b, s, file, world) == ProcessLoaded(b, Started(b, s, task, world), file, task, world.outcome(file), world.stamp)
  {
  }

  /** A task whose mode fails is reported to the manager with the step's error,
      after its start, and stays pending, unless it strands the worker. */
  lemma FailedTaskIsReported(b: Build, s: SessionWorker, file: string, world: World)
    requires s.cwd == Start && file in s.dirs.pending && s.dirs.pending[file].Parsed?
    requires !ModeFinishes(s.dirs.pending[file].task, world.outcome(file))
    requires !Strands(b, s.dirs.pending[file].task, world.outcome(file))
    ensures var task := s.dirs.pending[file].task;
      var r := ProcessTask(b, s, file, world);
      && r.Normal? && r.s.cwd == Start && r.s.dirs == s.dirs
      && Contents(r.s.comm.store) == Contents(s.comm.store) +
           [StartMessage(world.stamp, s.Name(), Get(task, NameKey, UnknownTask)),
            ErrorMessage(world.stamp, s.Name(), file, ModeError(task, world.outcome(file)))]
  {
    var task := s.dirs.pending[file].task;
    var s1 := Started(b, s, task, world);
    ProcessTaskUnfolds(b, s, file, world);
    var r := ProcessLoaded(b, s1, file, task, world.outcome(file), world.stamp);
    AppendChain(Contents(s.comm.store), Contents(s1.comm.store), Contents(r.s.comm.store),
                [StartMessage(world.stamp, s.Name(), Get(task, NameKey, UnknownTask))],
                [ErrorMessage(world.stamp, s.Name(), file, ModeError(task, world.outcome(file)))]);
  }

  /** A task whose mode finishes but whose file cannot be moved stays pending,
      and the manager hears of its start only. */
  lemma FailedMoveKeepsPending(b: Build, s: SessionWorker, file: string, world: World)
    requires s.cwd == Start && file in s.dirs.pending && s.dirs.pending[file].Parsed?
    requires ModeFinishes(s.dirs.pending[file].task, world.outcome(file)) && world.outcome(file).move.Fails?
    ensures var r := ProcessTask(b, s, file, world);
      && r.Normal? && r.s.cwd == Start && r.s.dirs == s.dirs
      && Contents(r.s.comm.store) == Contents(s.comm.store) +
           [StartMessage(world.stamp, s.Name(), Get(s.dirs.pending[file].task, NameKey, UnknownTask))]
  {
    ProcessTaskUnfolds(b, s, file, world);
  }

  // ----- the two corrections --------------------------------------------------------

  /** As written, the progress 75 of a task that succeeds lands in the nested
      log: the worker's own log shows 0, 25, 100. */
  lemma SeventyFiveStrays(s: SessionWorker, file: string, world: World)
    requires s.cwd == Start && Ready(s.dirs.pending, file, world)
    ensures var r := ProcessTask(AsWritten, s, file, world).s;
      && Progresses(r.comm.log) == Progresses(s.comm.log) + [0, 25, 100]
      && Progresses(r.stray) == Progresses(s.stray) + [75]
  {
    assert TaskProgress(AsWritten) == [0, 25, 100];
  }

  /** Corrected, the worker's own log shows 0, 25, 75, 100 for a task that
      succeeds, and nothing goes to the nested log. */
  lemma SeventyFiveReachesLog(s: SessionWorker, file: string, world: World)
    requires s.cwd == Start && Ready(s.dirs.pending, file, world)
    ensures var r := ProcessTask(Corrected, s, file, world).s;
      && Progresses(r.comm.log) == Progresses(s.comm.log) + [0, 25, 75, 100]
      && Progresses(r.stray) == Progresses(s.stray)
  {
    assert TaskProgress(Corrected) == [0, 25, 75, 100];
  }

  /** As written, a generic task whose output file cannot be written leaves the
      process inside the worker's directory: the error report raises, so the
      manager hears of the start only; the file stays pending but is never
      listed again, and the next `check_messages` ends the process. */
  lemma GenericFailureStrands(s: SessionWorker, file: string, world: World, later: World)
    requires s.cwd == Start && file in s.dirs.pending && s.dirs.pending[file].Parsed?
    requires ModeOf(s.dirs.pending[file].task).GenericMode? && world.outcome(file).artifact.Fails?
    ensures var r := ProcessTask(AsWritten, s, file, world);
      && r.Abrupt? && r.s.cwd == WorkerDir && r.s.dirs == s.dirs
      && Contents(r.s.comm.store) == Contents(s.comm.store) +
           [StartMessage(world.stamp, s.Name(), Get(s.dirs.pending[file].task, NameKey, UnknownTask))]
      && CheckPendingTasks(AsWritten, r.s, later) == r.s
      && CheckMessages(AsWritten, r.s, later).Crashed?
  {
    ProcessTaskUnfolds(AsWritten, s, file, world);
  }

  /** Corrected, the same failure is reported to the manager like any other, and
      the worker stays in the start directory. */
  lemma GenericFailureReported(s: SessionWorker, file: string, world: World)
    requires s.cwd == Start && file in s.dirs.pending && s.dirs.pending[file].Parsed?
    requires ModeOf(s.dirs.pending[file].task).GenericMode? && world.outcome(file).artifact.Fails?
    ensures var r := ProcessTask(Corrected, s, file, world);
      && r.Normal? && r.s.cwd == Start && r.s.dirs == s.dirs
      && Contents(r.s.comm.store) == Contents(s.comm.store) +
           [StartMessage(world.stamp, s.Name(), Get(s.dirs.pending[file].task, NameKey, UnknownTask)),
            ErrorMessage(world.stamp, s.Name(), file, world.outcome(file).artifact.error)]
  {
    FailedTaskIsReported(Corrected, s, file, world);
  }

  /** As written, a worker stranded in its own directory ends at the first tick
      that checks messages. */
  lemma StrandedRunCrashes(s: SessionWorker, lasts: seq<int>, worlds: seq<World>)
    requires s.cwd == WorkerDir && |lasts| == |Intervals| && |worlds| > 0
    requires Due(worlds[0].time, lasts[1], Intervals[1])
    ensures var r := Run(AsWritten, s, lasts, worlds);
      r.crashed && r.ticks == 1 && r.s.dirs == s.dirs
  {
    var plan := PlanTick(worlds[0].time, lasts, Intervals);
    assert plan.runs[1];
  }
}
