/** worker_automation.py: a worker of the fixed three-stage relay
    (worker1 -> worker2 -> worker3 -> manager). It polls its pending directory,
    executes each task file, moves it to completed, and passes a high-priority
    message to the next stage; worker2 and worker3 also react to the upstream
    stage's message with a built-in routine. */
module Relay {
  import opened Strings
  import opened Communication
  import opened Tasks
  import opened Schedule

  const DataReady := "データ準備完了"
  const Processed := "処理完了"
  const ReportDone := "レポート生成完了"

  /** The temporary file a script task is written to, inside the worker's directory. */
  const TempScript := "temp_script.py"

  /** Participant names. */
  const Worker1 := "worker1"
  const Worker2 := "worker2"
  const Worker3 := "worker3"
  const ManagerName := "manager"

  /** The generic mode's progress steps, `range(0, 101, 20)`. */
  const GenericSteps := Range(0, 101, 20)

  // Log and message phrases.
  const NameKey := "name"
  const NoneText := "None"
  const Newline := "\n"
  const TaskLine := "Task: "
  const CommandLine := "Command: "
  const OutputLine := "Output:\n"
  const ErrorLine := "Error:\n"
  const TaskQuote := "Task '"
  const DataReadyTail := "' completed. Data ready for processing."
  const ProcessedTail := "' completed. Results ready for reporting."
  const ReportTail := "' completed. Report saved to output folder."
  const ReportPrefix := "output/report_"
  const TextSuffix := ".txt"
  const ReportSaved := "Report saved to "
  const SaveError := "Error saving to output: "
  const TaskPrefix := "task_"
  const OutputSuffix := "_output.txt"
  const ExecutingCommand := "Executing command: "
  const CommandFailed := "Command execution error: "
  const CommandOutput := "Command output: "
  const CommandError := "Command error: "
  const ScriptOutput := "Script output: "
  const ScriptError := "Script error: "
  const TaskProgress := "Task progress: "
  const TaskFailed := "Error executing task: "
  const TaskCompleted := "Task completed: "
  const Unnamed := "unnamed"
  const ExecutingTask := "Executing task: "
  const FoundTask := "Found pending task: "
  const ProcessedBody := "Data processing completed. Ready for report generation."
  const ProcessingStart := "Processing data from worker1"
  const ProcessingStep := "Data processing progress"
  const ProcessingDone := "Data processing completed"
  const ReportBody := "Final report has been generated and saved to output folder."
  const ReportStart := "Generating report from worker2 results"
  const ReportStep := "Report generation progress"
  const ReportGenDone := "Report generation completed"
  const Received := "Received message from "
  const Colon := ": "
  const ProcessingMessage := "Processing message: "
  const ProcessingUrgent := "Processing high priority message: "
  const StartingProcessing := "Starting data processing based on worker1's data"
  const StartingReport := "Starting report generation based on worker2's results"
  const Alive := " is alive and monitoring"

  /** One `WorkerAutomation` process: its store/log handle, its task directories,
      the files in its own directory, and the names of the report files it put
      in the shared output directory (a name written twice is one file). */
  datatype Worker = Worker(comm: Channel, dirs: TaskDirs, files: map<string, string>, outputs: set<string>)
  {
    function Name(): string
    {
      comm.owner
    }

    function Log(activity: string): (r: Worker)
      ensures r.comm.owner == comm.owner && r.comm.store == comm.store
      ensures r.dirs == dirs && r.files == files && r.outputs == outputs
      ensures comm.log <= r.comm.log && Progresses(r.comm.log) == Progresses(comm.log)
    {
      this.(comm := comm.Log(activity))
    }

    function LogAt(activity: string, progress: int): (r: Worker)
      ensures r.comm.owner == comm.owner && r.comm.store == comm.store
      ensures r.dirs == dirs && r.files == files && r.outputs == outputs
      ensures comm.log <= r.comm.log && Progresses(r.comm.log) == Progresses(comm.log) + [progress]
    {
      this.(comm := comm.LogAt(activity, progress))
    }

    function Send(ts: string, to: string, subject: string, body: string, priority: string): Worker
    {
      this.(comm := comm.Send(ts, to, subject, body, priority))
    }
  }

  /** `f"{task.get('name')}"`: a missing name prints as `None`. */
  function NameText(t: Task): string
  {
    Get(t, NameKey, NoneText)
  }

  /** The message `notify_next_worker` sends, as recipient, subject and body. */
  datatype Hop = Hop(to: string, subject: string, body: string)

  /** The relay table: worker1 -> worker2 -> worker3 -> manager; any other
      participant sends nothing. */
  function NextHop(name: string, t: Task): (h: Option<Hop>)
    ensures h.Some? <==> name in {Worker1, Worker2, Worker3}
  {
    if name == Worker1 then
      Some(Hop(Worker2, DataReady, TaskQuote + NameText(t) + DataReadyTail))
    else if name == Worker2 then
      Some(Hop(Worker3, Processed, TaskQuote + NameText(t) + ProcessedTail))
    else if name == Worker3 then
      Some(Hop(ManagerName, ReportDone, TaskQuote + NameText(t) + ReportTail))
    else None
  }

  /** The report file `save_to_output` writes at the time `world.compact`. */
  function ReportName(world: World): string
  {
    ReportPrefix + world.compact + TextSuffix
  }

  lemma AddOneName(names: set<string>, name: string)
    ensures |names + {name}| == if name in names then |names| else |names| + 1
  {
    if name in names {
      assert names + {name} == names;
    }
  }

  /** `save_to_output`: a report file named after the time, opened with `'w'`,
      so a report of the same second replaces the earlier one; a failing write
      is logged and swallowed. */
  function SaveToOutput(w: Worker, world: World): (r: Worker)
    ensures r.comm.store == w.comm.store && r.dirs == w.dirs && r.files == w.files
    ensures world.output.Ok? ==> ReportName(world) in r.outputs && r.outputs - {ReportName(world)} == w.outputs - {ReportName(world)}
    ensures world.output.Ok? ==> |r.outputs| == if ReportName(world) in w.outputs then |w.outputs| else |w.outputs| + 1
    ensures world.output.Fails? ==> r.outputs == w.outputs
    ensures Progresses(r.comm.log) == Progresses(w.comm.log)
  {
    var file := ReportName(world);
    AddOneName(w.outputs, file);
    var r := match world.output
      case Ok => w.(outputs := w.outputs + {file}).Log(ReportSaved + file)
      case Fails(e) => w.Log(SaveError + e);
    r
  }

  /** Two reports saved within the same second leave one report file. */
  lemma SameSecondReportReplaces(w: Worker, world: World)
    requires world.output.Ok?
    ensures SaveToOutput(SaveToOutput(w, world), world).outputs == SaveToOutput(w, world).outputs
  {
  }

  /** The relay messages a completed task produces at `name`. */
  function HopMessages(name: string, t: Task, ts: string): seq<Message>
  {
    match NextHop(name, t)
    case None => []
    case Some(h) => [Message(ts, name, h.to, h.subject, h.body, High, Some(false))]
  }

  /** `notify_next_worker`: the stage's relay message, and for worker3 a report
      in the output directory as well. */
  function Notify(w: Worker, t: Task, world: World): (r: Worker)
    ensures r.comm.owner == w.comm.owner && r.dirs == w.dirs && r.files == w.files
    ensures Contents(r.comm.store) == Contents(w.comm.store) + HopMessages(w.Name(), t, world.stamp)
    ensures Progresses(r.comm.log) == Progresses(w.comm.log)
    ensures w.comm.log <= r.comm.log
    ensures w.Name() == Worker3 && world.output.Ok? ==> r.outputs == w.outputs + {ReportName(world)}
    ensures !(w.Name() == Worker3 && world.output.Ok?) ==> r.outputs == w.outputs
  {
    match NextHop(w.Name(), t)
    case None => w
    case Some(h) =>
      var sent := w.Send(world.stamp, h.to, h.subject, h.body, High);
      if w.Name() == Worker3 then SaveToOutput(sent, world) else sent
  }

  // ----- executing one task file ---------------------------------------------

  /** `task_<name>_output.txt`, in the worker's directory. */
  function OutputName(taskName: string): string
  {
    TaskPrefix + taskName + OutputSuffix
  }

  /** The output file of a command task. */
  function CommandReport(taskName: string, command: string, stdout: string, stderr: string): string
  {
    TaskLine + taskName + Newline + CommandLine + command + Newline + OutputLine + stdout + Newline
    + (if stderr != "" then ErrorLine + stderr + Newline else "")
  }

  /** A mode either finishes or raises into `execute_task`'s handler. */
  datatype Attempt = Finished(w: Worker) | Threw(w: Worker, error: string)

  /** Command mode. Every failure inside it (the subprocess, the output file) is
      caught by its own handler, so it always finishes. */
  function RunCommand(w: Worker, taskName: string, command: string, env: TaskEnv): (r: Worker)
    ensures r.comm.owner == w.comm.owner && r.comm.store == w.comm.store
    ensures r.dirs == w.dirs && r.outputs == w.outputs
    ensures Progresses(r.comm.log) == Progresses(w.comm.log)
    ensures w.comm.log <= r.comm.log
    ensures env.run.Exited? && env.artifact.Ok? ==>
              r.files == w.files[OutputName(taskName) := CommandReport(taskName, command, env.run.stdout, env.run.stderr)]
    ensures !(env.run.Exited? && env.artifact.Ok?) ==> r.files == w.files
  {
    var w0 := w.Log(ExecutingCommand + command);
    var r := match env.run
      case Raised(e) => w0.Log(CommandFailed + e)
      case Exited(code, out, err) =>
        var w1 := w0.Log(CommandOutput + out);
        var w2 := if err != "" then w1.Log(CommandError + err) else w1;
        match env.artifact
        case Ok => w2.(files := w2.files[OutputName(taskName) := CommandReport(taskName, command, out, err)])
        case Fails(e) => w2.Log(CommandFailed + e);
    r
  }

  /** Script mode raises when its temporary file cannot be written or its
      subprocess cannot be started. */
  predicate ScriptRaises(env: TaskEnv)
  {
    env.script.Fails? || env.run.Raised?
  }

  /** Script mode: the source goes to `temp_script.py`, which is removed after a
      normal run; a failing run raises past the removal and leaves it behind. */
  function RunScript(w: Worker, source: string, env: TaskEnv): (r: Attempt)
    ensures r.w.comm.owner == w.comm.owner && r.w.comm.store == w.comm.store
    ensures r.w.dirs == w.dirs && r.w.outputs == w.outputs
    ensures Progresses(r.w.comm.log) == Progresses(w.comm.log)
    ensures w.comm.log <= r.w.comm.log
    ensures r.Threw? <==> ScriptRaises(env)
    ensures env.script.Fails? ==> r.w.files == w.files
    ensures env.script.Ok? && r.Threw? ==> r.w.files == w.files[TempScript := source]
    ensures r.Finished? ==> r.w.files == w.files - {TempScript}
  {
    match env.script
    case Fails(e) => Threw(w, e)
    case Ok =>
      var w0 := w.(files := w.files[TempScript := source]);
      match env.run
      case Raised(e) => Threw(w0, e)
      case Exited(code, out, err) =>
        var w1 := w0.Log(ScriptOutput + out);
        var w2 := if err != "" then w1.Log(ScriptError + err) else w1;
        Finished(w2.(files := w2.files - {TempScript}))
  }

  // ----- where the interpreter looks for the script ---------------------------

  /** The file a relative `path` names when opened from the working directory
      `cwd`, with `""` for the directory the worker was started in. */
  function Resolve(cwd: string, path: string): string
  {
    if cwd == "" then path else cwd + "/" + path
  }

  /** The path script mode writes the script to, from the start directory. */
  function ScriptWritePath(name: string): string
  {
    name + "/" + TempScript
  }

  /** As written, the interpreter is handed the same path as the write, but it
      runs with the worker's directory as its working directory. */
  function ScriptRunPathAsWritten(name: string): string
  {
    ScriptWritePath(name)
  }

  /** Corrected, the interpreter is handed the script's name within the
      worker's directory. */
  function ScriptRunPath(name: string): string
  {
    TempScript
  }

  /** As written, the interpreter opens `<w>/<w>/temp_script.py`, a file other
      than the one just written, so it never runs the task's script. */
  lemma InterpreterMissesScript(name: string)
    requires name != ""
    ensures Resolve(name, ScriptRunPathAsWritten(name)) == name + "/" + name + "/" + TempScript
    ensures Resolve(name, ScriptRunPathAsWritten(name)) != Resolve("", ScriptWritePath(name))
  {
  }

  /** Corrected, the interpreter opens the very file that was written: the
      `temp_script.py` that `RunScript` keeps in the worker's files. */
  lemma InterpreterFindsScript(name: string)
    requires name != ""
    ensures Resolve(name, ScriptRunPath(name)) == Resolve("", ScriptWritePath(name))
  {
  }

  /** Generic mode: progress 0, 20, ..., 100, one second apart. */
  function RunGeneric(w: Worker, taskName: string): (r: Worker)
    ensures r.comm.owner == w.comm.owner && r.comm.store == w.comm.store
    ensures r.dirs == w.dirs && r.files == w.files && r.outputs == w.outputs
    ensures w.comm.log <= r.comm.log
    ensures Progresses(r.comm.log) == Progresses(w.comm.log) + GenericSteps
  {
    w.(comm := LogEach(w.comm, TaskProgress + taskName, GenericSteps))
  }

  /** The mode `execute_task` picks for `task`, run to its end or to the
      exception that escapes it. */
  function RunMode(w: Worker, task: Task, taskName: string, env: TaskEnv): (r: Attempt)
    ensures r.w.comm.owner == w.comm.owner && r.w.comm.store == w.comm.store
    ensures r.w.dirs == w.dirs && r.w.outputs == w.outputs
    ensures w.comm.log <= r.w.comm.log
    ensures r.Threw? <==> ModeOf(task).ScriptMode? && ScriptRaises(env)
    ensures Progresses(r.w.comm.log)
            == Progresses(w.comm.log) + ModeSteps(ModeOf(task))
    ensures ModeOf(task).ScriptMode? && env.script.Ok? ==> (TempScript in r.w.files <==> env.run.Raised?)
  {
    match ModeOf(task)
    case CommandMode(command) => Finished(RunCommand(w, taskName, command, env))
    case ScriptMode(source) => RunScript(w, source, env)
    case GenericMode => Finished(RunGeneric(w, taskName))
  }

  /** The steps a mode logs between progress 0 and 100. */
  function ModeSteps(m: Mode): seq<int>
  {
    if m.GenericMode? then GenericSteps else []
  }

  /** The progress values a task that completes logs, by mode: 0 at the start,
      the generic mode's steps, and 100 once the file has moved. */
  function SuccessProgress(m: Mode): seq<int>
  {
    [0] + ModeSteps(m) + [100]
  }

  /** Progress 0, then the mode's steps, then 100 make up `SuccessProgress`. */
  lemma SuccessChain(p0: seq<int>, p1: seq<int>, p2: seq<int>, m: Mode)
    requires p1 == p0 + [0]
    requires p2 == p1 + ModeSteps(m) + [100]
    ensures p2 == p0 + SuccessProgress(m)
  {
    AppendChain(p0, p1, p2, [0], ModeSteps(m) + [100]);
  }

  /** A task file that will complete: pending, parsable, and with outcomes
      under which its mode finishes and its move succeeds. */
  ghost predicate Ready(d: Dir, file: string, world: World)
  {
    file in d && d[file].Parsed? && Succeeds(d[file].task, world.outcome(file))
  }

  /** The end of a task whose mode finished: move the file to completed under
      the same name, log progress 100 and notify the next stage. A failing move
      is logged and nothing is sent. */
  function Complete(w: Worker, file: string, task: Task, name: string, move: Step, world: World): (r: Worker)
    requires move.Ok? ==> file in w.dirs.pending
    ensures r.comm.owner == w.comm.owner && r.files == w.files
    ensures w.comm.log <= r.comm.log
    ensures move.Ok? ==> r.dirs == Move(w.dirs, file)
    ensures move.Ok? ==> Contents(r.comm.store) == Contents(w.comm.store) + HopMessages(w.Name(), task, world.stamp)
    ensures move.Ok? ==> Progresses(r.comm.log) == Progresses(w.comm.log) + [100]
    ensures move.Fails? ==> r.dirs == w.dirs && r.comm.store == w.comm.store
  {
    match move
    case Fails(e) => w.Log(TaskFailed + e)
    case Ok =>
      var moved := w.(dirs := Move(w.dirs, file)).LogAt(TaskCompleted + name, 100);
      Notify(moved, task, world)
  }

  /** A loaded task's mode will not raise and its file will move. */
  predicate Succeeds(task: Task, env: TaskEnv)
  {
    !(ModeOf(task).ScriptMode? && ScriptRaises(env)) && env.move.Ok?
  }

  /** The part of `execute_task` after progress 0: run the mode, then complete
      the task; an exception from the mode is logged. */
  function RunThenComplete(w: Worker, file: string, task: Task, name: string, env: TaskEnv, world: World): (r: Worker)
    requires file in w.dirs.pending
    ensures r.comm.owner == w.comm.owner
    ensures w.comm.log <= r.comm.log
    ensures Succeeds(task, env) ==>
              && r.dirs == Move(w.dirs, file)
              && Contents(r.comm.store) == Contents(w.comm.store) + HopMessages(w.Name(), task, world.stamp)
              && Progresses(r.comm.log) == Progresses(w.comm.log) + ModeSteps(ModeOf(task)) + [100]
    ensures !Succeeds(task, env) ==> r.dirs == w.dirs && r.comm.store == w.comm.store
    ensures ModeOf(task).ScriptMode? && env.script.Ok? ==> (TempScript in r.files <==> env.run.Raised?)
  {
    match RunMode(w, task, name, env)
    case Threw(w1, e) => w1.Log(TaskFailed + e)
    case Finished(w1) => Complete(w1, file, task, name, env.move, world)
  }

  /** `execute_task` once the file has loaded as `task`. */
  function ExecuteLoaded(w: Worker, file: string, task: Task, env: TaskEnv, world: World): (r: Worker)
    requires file in w.dirs.pending
    ensures r.comm.owner == w.comm.owner
    ensures w.comm.log <= r.comm.log
    ensures Succeeds(task, env) ==>
              && r.dirs == Move(w.dirs, file)
              && Contents(r.comm.store) == Contents(w.comm.store) + HopMessages(w.Name(), task, world.stamp)
              && Progresses(r.comm.log) == Progresses(w.comm.log) + SuccessProgress(ModeOf(task))
    ensures !Succeeds(task, env) ==> r.dirs == w.dirs && r.comm.store == w.comm.store
    ensures ModeOf(task).ScriptMode? && env.script.Ok? ==> (TempScript in r.files <==> env.run.Raised?)
  {
    var name := Get(task, NameKey, Unnamed);
    var started := w.LogAt(ExecutingTask + name, 0);
    assert started.comm.store == w.comm.store && started.Name() == w.Name() && started.dirs == w.dirs;
    var r := RunThenComplete(started, file, task, name, env, world);
    if Succeeds(task, env) then
      SuccessChain(Progresses(w.comm.log), Progresses(started.comm.log), Progresses(r.comm.log), ModeOf(task));
      r
    else r
  }

  /** `execute_task`: load, log progress 0, run the mode, move the file to
      completed under the same name, log progress 100, notify the next stage.
      An exception anywhere before the move leaves the file pending and sends
      nothing. */
  function ExecuteTask(w: Worker, file: string, world: World): (r: Worker)
    ensures r.comm.owner == w.comm.owner
    ensures w.comm.log <= r.comm.log
    ensures Ready(w.dirs.pending, file, world) ==> file in w.dirs.pending && r.dirs == Move(w.dirs, file)
    ensures !Ready(w.dirs.pending, file, world) ==> r.dirs == w.dirs
    ensures Contents(r.comm.store) == Contents(w.comm.store)
              + (if Ready(w.dirs.pending, file, world)
                 then HopMessages(w.Name(), Load(w.dirs.pending, file).task, world.stamp) else [])
    ensures Ready(w.dirs.pending, file, world) ==>
              Progresses(r.comm.log) == Progresses(w.comm.log) + SuccessProgress(ModeOf(Load(w.dirs.pending, file).task))
    ensures Load(w.dirs.pending, file).Loaded? && ModeOf(Load(w.dirs.pending, file).task).ScriptMode?
            && world.outcome(file).script.Ok? ==>
              (TempScript in r.files <==> world.outcome(file).run.Raised?)
  {
    match Load(w.dirs.pending, file)
    case LoadError(reason) => w.Log(TaskFailed + reason)
    case Loaded(task) => ExecuteLoaded(w, file, task, world.outcome(file), world)
  }

  lemma ExecuteTaskConserves(w: Worker, file: string, world: World)
    ensures Conserves(w.dirs, ExecuteTask(w, file, world).dirs)
  {
    if Ready(w.dirs.pending, file, world) {
      MoveConserves(w.dirs, file);
    }
  }

  /** The progress a completed task logs starts at 0, never decreases, stays
      within 0..100 and ends at 100, whatever its mode. */
  lemma SuccessProgressShape(m: Mode)
    ensures var p := SuccessProgress(m);
      |p| >= 2 && p[0] == 0 && p[|p| - 1] == 100 && NonDecreasing(p)
      && forall i :: 0 <= i < |p| ==> 0 <= p[i] <= 100
  {
    if m.GenericMode? {
      assert GenericSteps == [0, 20, 40, 60, 80, 100];
    }
  }

  // ----- polling the pending directory ---------------------------------------

  /** The loop of `check_pending_tasks` over the listed `.json` files. */
  function ExecuteAll(w: Worker, files: seq<string>, world: World): (r: Worker)
    ensures r.comm.owner == w.comm.owner
    ensures w.comm.log <= r.comm.log
    ensures Conserves(w.dirs, r.dirs)
    decreases |files|
  {
    if |files| == 0 then ConservesReflexive(w.dirs); w
    else
      var w0 := w.Log(FoundTask + files[0]);
      var w1 := ExecuteTask(w0, files[0], world);
      ExecuteTaskConserves(w0, files[0], world);
      var r := ExecuteAll(w1, files[1..], world);
      ConservesTransitive(w.dirs, w1.dirs, r.dirs);
      r
  }

  /** `check_pending_tasks`: every `.json` file the directory listing yields. */
  function CheckPendingTasks(w: Worker, world: World): (r: Worker)
    ensures r.comm.owner == w.comm.owner
    ensures Conserves(w.dirs, r.dirs)
  {
    ExecuteAll(w, Glob(world.enumerate(w.dirs.pending)), world)
  }

  /** One pass over distinct listed files settles each of them: a file that can
      complete ends in completed with its original contents, and a pending file
      that cannot stays pending, unchanged, since `execute_task` swallows its
      failure and the loop goes on to the next file. */
  lemma {:induction false} ScanSettlesEachFile(w: Worker, files: seq<string>, world: World)
    requires forall i, j :: 0 <= i < j < |files| ==> files[i] != files[j]
    ensures var r := ExecuteAll(w, files, world);
      forall f :: f in files ==>
        && (Ready(w.dirs.pending, f, world) ==>
              f !in r.dirs.pending && f in r.dirs.completed && r.dirs.completed[f] == w.dirs.pending[f])
        && (!Ready(w.dirs.pending, f, world) && f in w.dirs.pending ==>
              f in r.dirs.pending && r.dirs.pending[f] == w.dirs.pending[f])
    decreases |files|
  {
    if |files| > 0 {
      var f0 := files[0];
      var w0 := w.Log(FoundTask + f0);
      var w1 := ExecuteTask(w0, f0, world);
      forall f | f in files[1..]
        ensures (Ready(w1.dirs.pending, f, world) <==> Ready(w.dirs.pending, f, world))
        ensures (f in w1.dirs.pending <==> f in w.dirs.pending)
        ensures f in w.dirs.pending ==> w1.dirs.pending[f] == w.dirs.pending[f]
      {
        assert f in files && f != f0;
        TaskLeavesOthers(w0, f0, f, world);
      }
      ScanSettlesEachFile(w1, files[1..], world);
      var r := ExecuteAll(w1, files[1..], world);
      assert r == ExecuteAll(w, files, world);
      assert f0 !in files[1..];
      KeepsOthers(w1, files[1..], world, f0);
    }
  }

  /** A pass over a complete listing of the pending directory completes every
      ready `.json` file with its contents and leaves every other file pending,
      unchanged. */
  lemma CheckSettles(w: Worker, world: World)
    requires Enumerates(world.enumerate(w.dirs.pending), w.dirs.pending)
    ensures var r := CheckPendingTasks(w, world);
      forall f :: f in w.dirs.pending ==>
        && (f in r.dirs.pending <==> !(IsJsonName(f) && Ready(w.dirs.pending, f, world)))
        && (IsJsonName(f) && Ready(w.dirs.pending, f, world) ==>
              f in r.dirs.completed && r.dirs.completed[f] == w.dirs.pending[f])
        && (f in r.dirs.pending ==> r.dirs.pending[f] == w.dirs.pending[f])
  {
    var files := Glob(world.enumerate(w.dirs.pending));
    GlobListsJson(world.enumerate(w.dirs.pending), w.dirs.pending);
    ScanSettlesEachFile(w, files, world);
    forall f | f in w.dirs.pending && f !in files
      ensures var r := CheckPendingTasks(w, world);
        f in r.dirs.pending && r.dirs.pending[f] == w.dirs.pending[f]
    {
      KeepsOthers(w, files, world, f);
    }
  }

  /** Executing one task leaves every other pending file as it was, and as
      ready as it was. */
  lemma TaskLeavesOthers(w: Worker, file: string, f: string, world: World)
    requires f != file
    ensures var r := ExecuteTask(w, file, world);
      && (Ready(r.dirs.pending, f, world) <==> Ready(w.dirs.pending, f, world))
      && (f in r.dirs.pending <==> f in w.dirs.pending)
      && (f in w.dirs.pending ==> r.dirs.pending[f] == w.dirs.pending[f])
  {
  }

  /** A file that is not listed is left where it is. */
  lemma {:induction false} KeepsOthers(w: Worker, files: seq<string>, world: World, f: string)
    requires f !in files
    ensures var r := ExecuteAll(w, files, world);
      (f in r.dirs.pending <==> f in w.dirs.pending)
      && (f in w.dirs.pending ==> r.dirs.pending[f] == w.dirs.pending[f])
      && (f in r.dirs.completed <==> f in w.dirs.completed)
      && (f in w.dirs.completed ==> r.dirs.completed[f] == w.dirs.completed[f])
    decreases |files|
  {
    if |files| > 0 {
      var w1 := ExecuteTask(w.Log(FoundTask + files[0]), files[0], world);
      KeepsOthers(w1, files[1..], world, f);
    }
  }

  // ----- messages -------------------------------------------------------------

  /** What `check_messages` does with one message at worker `name`. */
  datatype Reaction = Normal | LogOnly | StartProcessing | StartReport

  /** Non-high messages get normal handling; among high-priority ones only
      worker1's data-ready notice at worker2 and worker2's processing-done notice
      at worker3 start a routine, and the rest are only logged. */
  function ReactionTo(name: string, m: Message): Reaction
  {
    if m.priority != High then Normal
    else if name == Worker2 && m.sender == Worker1 && Contains(DataReady, m.subject) then StartProcessing
    else if name == Worker3 && m.sender == Worker2 && Contains(Processed, m.subject) then StartReport
    else LogOnly
  }

  /** The steps of the two built-in routines. */
  const ProcessingSteps := Range(0, 101, 25)
  const ReportSteps := Range(0, 101, 33)

  /** The notice worker2 sends worker3 when its processing is done. */
  function ProcessedNotice(ts: string, sender: string): Message
  {
    Message(ts, sender, Worker3, Processed, ProcessedBody, High, Some(false))
  }

  /** The notice worker3 sends the manager when its report is done. */
  function ReportNotice(ts: string, sender: string): Message
  {
    Message(ts, sender, ManagerName, ReportDone, ReportBody, High, Some(false))
  }

  /** `process_data_from_worker1`: progress 0, then 0, 25, ..., 100, then 100, and
      a high-priority processing-done message to worker3. */
  function ProcessDataFromWorker1(w: Worker, world: World): (r: Worker)
    ensures r.dirs == w.dirs && r.comm.owner == w.comm.owner
    ensures Progresses(r.comm.log) == Progresses(w.comm.log) + ([0] + ProcessingSteps + [100])
    ensures Contents(r.comm.store) == Contents(w.comm.store) + [ProcessedNotice(world.stamp, w.Name())]
  {
    var w1 := w.(comm := LogRoutine(w.comm, ProcessingStart, ProcessingStep,
                                    ProcessingSteps, ProcessingDone));
    w1.Send(world.stamp, Worker3, Processed, ProcessedBody, High)
  }

  /** `generate_report_from_worker2`: progress 0, then 0, 33, 66, 99, then 100, a
      report in the output directory, and a high-priority report-done message to
      the manager. */
  function GenerateReportFromWorker2(w: Worker, world: World): (r: Worker)
    ensures r.dirs == w.dirs && r.comm.owner == w.comm.owner
    ensures Progresses(r.comm.log) == Progresses(w.comm.log) + ([0] + ReportSteps + [100])
    ensures Contents(r.comm.store) == Contents(w.comm.store) + [ReportNotice(world.stamp, w.Name())]
    ensures world.output.Ok? ==> r.outputs == w.outputs + {ReportName(world)}
    ensures world.output.Fails? ==> r.outputs == w.outputs
  {
    var w1 := w.(comm := LogRoutine(w.comm, ReportStart, ReportStep,
                                    ReportSteps, ReportGenDone));
    var w3 := SaveToOutput(w1, world);
    w3.Send(world.stamp, ManagerName, ReportDone, ReportBody, High)
  }

  /** Both built-in routines log progress that starts at 0, never decreases and
      ends at 100. */
  lemma RoutineProgressShape()
    ensures var p := [0] + ProcessingSteps + [100];
      p == [0, 0, 25, 50, 75, 100, 100] && NonDecreasing(p)
    ensures var p := [0] + ReportSteps + [100];
      p == [0, 0, 33, 66, 99, 100] && NonDecreasing(p)
  {
    assert Range(100, 101, 25) == [100];
    assert Range(75, 101, 25) == [75, 100];
    assert Range(50, 101, 25) == [50, 75, 100];
    assert Range(25, 101, 25) == [25, 50, 75, 100];
    assert Range(0, 101, 25) == [0, 25, 50, 75, 100];
    assert Range(99, 101, 33) == [99];
    assert Range(66, 101, 33) == [66, 99];
    assert Range(33, 101, 33) == [33, 66, 99];
    assert Range(0, 101, 33) == [0, 33, 66, 99];
  }

  /** The follow-up messages handling `m` at worker `name` sends. */
  function FollowUps(name: string, m: Message, ts: string): seq<Message>
  {
    match ReactionTo(name, m)
    case StartProcessing => [ProcessedNotice(ts, name)]
    case StartReport => [ReportNotice(ts, name)]
    case _ => []
  }

  /** The lines logged about a message before anything is done about it. */
  function Acknowledge(w: Worker, m: Message, reaction: Reaction): (r: Worker)
    ensures r.comm.owner == w.comm.owner && r.comm.store == w.comm.store && r.dirs == w.dirs
  {
    var w1 := w.Log(Received + m.sender + Colon + m.subject);
    var w2 := if reaction.Normal? then w1.Log(ProcessingMessage + m.body) else w1.Log(ProcessingUrgent + m.subject);
    match reaction
    case StartProcessing => w2.Log(StartingProcessing)
    case StartReport => w2.Log(StartingReport)
    case _ => w2
  }

  /** One iteration of `check_messages`' loop. */
  function HandleMessage(w: Worker, m: Message, world: World): (r: Worker)
    ensures r.dirs == w.dirs && r.comm.owner == w.comm.owner
    ensures Contents(r.comm.store) == Contents(w.comm.store) + FollowUps(w.Name(), m, world.stamp)
  {
    var reaction := ReactionTo(w.Name(), m);
    var w2 := Acknowledge(w, m, reaction);
    match reaction
    case StartProcessing => ProcessDataFromWorker1(w2, world)
    case StartReport => GenerateReportFromWorker2(w2, world)
    case _ => w2
  }

  function AllFollowUps(name: string, ms: seq<Message>, ts: string): seq<Message>
  {
    if |ms| == 0 then [] else FollowUps(name, ms[0], ts) + AllFollowUps(name, ms[1..], ts)
  }

  function HandleAll(w: Worker, ms: seq<Message>, world: World): (r: Worker)
    ensures r.dirs == w.dirs && r.comm.owner == w.comm.owner
    ensures Contents(r.comm.store) == Contents(w.comm.store) + AllFollowUps(w.Name(), ms, world.stamp)
    decreases |ms|
  {
    if |ms| == 0 then w
    else
      var w1 := HandleMessage(w, ms[0], world);
      var r := HandleAll(w1, ms[1..], world);
      AppendChain(Contents(w.comm.store), Contents(w1.comm.store), Contents(r.comm.store),
                  FollowUps(w.Name(), ms[0], world.stamp), AllFollowUps(w.Name(), ms[1..], world.stamp));
      r
  }

  /** `check_messages`: read this worker's unread messages, marking them read,
      and handle them in store order. Task directories are untouched. */
  function CheckMessages(w: Worker, world: World): (r: Worker)
    ensures r.dirs == w.dirs && r.comm.owner == w.comm.owner
    ensures Contents(r.comm.store) ==
              MarkRead(Contents(w.comm.store), w.Name())
              + AllFollowUps(w.Name(), Unread(Contents(w.comm.store), w.Name()), world.stamp)
  {
    var (mine, c) := w.comm.ReadMine();
    HandleAll(w.(comm := c), mine, world)
  }

  // ----- the main loop -------------------------------------------------------

  /** Messages every 30 s, tasks every 10 s, heartbeat every 60 s, in that order. */
  const Intervals: seq<int> := [30, 10, 60]

  /** One iteration of `run`: the due activities, then the new last-run times. */
  function Tick(w: Worker, lasts: seq<int>, world: World): (r: (Worker, seq<int>))
    requires |lasts| == 3
    ensures r.0.comm.owner == w.comm.owner
    ensures r.1 == PlanTick(world.time, lasts, Intervals).lasts
    ensures Conserves(w.dirs, r.0.dirs)
    ensures !Due(world.time, lasts[1], 10) ==> r.0.dirs == w.dirs
  {
    var p := PlanTick(world.time, lasts, Intervals);
    var w1 := if p.runs[0] then CheckMessages(w, world) else w;
    ConservesReflexive(w1.dirs);
    var w2 := if p.runs[1] then CheckPendingTasks(w1, world) else w1;
    var w3 := if p.runs[2] then w2.Log(w.Name() + Alive) else w2;
    (w3, p.lasts)
  }

  /** The first iteration (all last-run times 0, clock past 60) runs all three
      activities: messages, then tasks, then the heartbeat. */
  lemma FirstTickRunsAllInOrder(w: Worker, world: World)
    requires world.time >= 60
    ensures Tick(w, Zeros(3), world).0
            == CheckPendingTasks(CheckMessages(w, world), world).Log(w.Name() + Alive)
  {
    FirstTickRunsEverything(world.time, Intervals);
  }

  /** No relay message is addressed to the stage that sends it. */
  lemma HopsLeaveSender(name: string, t: Task, ts: string)
    ensures Unread(HopMessages(name, t, ts), name) == []
  {
  }

  /** No follow-up of a routine is addressed to the worker that ran it. */
  lemma {:induction false} FollowUpsLeaveReceiver(name: string, ms: seq<Message>, ts: string)
    ensures Unread(AllFollowUps(name, ms, ts), name) == []
    decreases |ms|
  {
    if |ms| > 0 {
      FollowUpsLeaveReceiver(name, ms[1..], ts);
      UnreadConcat(FollowUps(name, ms[0], ts), AllFollowUps(name, ms[1..], ts), name);
    }
  }

  /** A pass over the pending directory sends only to other participants, so
      what is unread for the worker stays as it was. */
  lemma {:induction false} ScanKeepsOwnUnread(w: Worker, files: seq<string>, world: World)
    ensures Unread(Contents(ExecuteAll(w, files, world).comm.store), w.Name())
            == Unread(Contents(w.comm.store), w.Name())
    decreases |files|
  {
    if |files| > 0 {
      var w0 := w.Log(FoundTask + files[0]);
      var w1 := ExecuteTask(w0, files[0], world);
      var sent := if Ready(w0.dirs.pending, files[0], world)
                  then HopMessages(w.Name(), Load(w0.dirs.pending, files[0]).task, world.stamp) else [];
      if Ready(w0.dirs.pending, files[0], world) {
        HopsLeaveSender(w.Name(), Load(w0.dirs.pending, files[0]).task, world.stamp);
      }
      UnreadConcat(Contents(w0.comm.store), sent, w.Name());
      ScanKeepsOwnUnread(w1, files[1..], world);
    }
  }

  /** Each activity of an iteration does its work exactly when it is due:
      - a due message check leaves nothing unread for the worker, and otherwise
        what was unread stays unread;
      - a due task check over a complete listing completes every ready `.json`
        file with its contents and leaves every other file pending;
      - a due heartbeat is the iteration's last log line;
      - with neither check due, the heartbeat is all that can happen. */
  lemma TickDoesWhatIsDue(w: Worker, lasts: seq<int>, world: World)
    requires |lasts| == 3
    ensures var r := Tick(w, lasts, world).0;
      && (Due(world.time, lasts[0], 30) ==> Unread(Contents(r.comm.store), w.Name()) == [])
      && (!Due(world.time, lasts[0], 30) ==>
            Unread(Contents(r.comm.store), w.Name()) == Unread(Contents(w.comm.store), w.Name()))
      && (Due(world.time, lasts[1], 10) && Enumerates(world.enumerate(w.dirs.pending), w.dirs.pending) ==>
            forall f :: f in w.dirs.pending ==>
              && (f in r.dirs.pending <==> !(IsJsonName(f) && Ready(w.dirs.pending, f, world)))
              && (IsJsonName(f) && Ready(w.dirs.pending, f, world) ==>
                    f in r.dirs.completed && r.dirs.completed[f] == w.dirs.pending[f]))
      && (Due(world.time, lasts[2], 60) ==>
            0 < |r.comm.log| && r.comm.log[|r.comm.log| - 1] == LogEntry(w.Name() + Alive, None))
      && (!Due(world.time, lasts[0], 30) && !Due(world.time, lasts[1], 10) ==>
            r == if Due(world.time, lasts[2], 60) then w.Log(w.Name() + Alive) else w)
  {
    var p := PlanTick(world.time, lasts, Intervals);
    var w1 := if p.runs[0] then CheckMessages(w, world) else w;
    if p.runs[0] {
      NothingUnreadAfterMark(Contents(w.comm.store), w.Name());
      FollowUpsLeaveReceiver(w.Name(), Unread(Contents(w.comm.store), w.Name()), world.stamp);
      UnreadConcat(MarkRead(Contents(w.comm.store), w.Name()),
                   AllFollowUps(w.Name(), Unread(Contents(w.comm.store), w.Name()), world.stamp), w.Name());
    }
    if p.runs[1] {
      ScanKeepsOwnUnread(w1, Glob(world.enumerate(w1.dirs.pending)), world);
      if Enumerates(world.enumerate(w.dirs.pending), w.dirs.pending) {
        CheckSettles(w1, world);
      }
    }
  }
}
