/** manager_automation.py: the manager process. It seeds one sample task per
    worker, classifies the messages it receives (completions, errors), answers
    errors that look transient with a retry instruction, warns about workers
    whose logs have gone quiet, and periodically writes a status report that
    counts every worker's pending and completed task files. */
module Manager {
  import opened Strings
  import opened Communication
  import opened Tasks
  import opened Schedule

  const ManagerName := "manager"
  const Worker1 := "worker1"
  const Worker2 := "worker2"
  const Worker3 := "worker3"

  /** `self.workers`, in report order. */
  const Workers := [Worker1, Worker2, Worker3]

  /** Every worker has its pending and completed directories. */
  predicate Staffed(workers: set<string>)
  {
    forall w :: w in Workers ==> w in workers
  }

  // Words looked for in subjects and bodies.
  const CompletionWord := "完了"
  const ReportWord := "レポート生成"
  const FinalReportWord := "レポート生成完了"
  const ErrorWord := "エラー"
  const ErrorWordLatin := "error"
  const TimeoutWord := "timeout"
  const ConnectionWord := "connection"

  // Subjects and bodies of the messages the manager sends.
  const RetrySubject := "リトライ指示"
  const RetryBody := "エラーを検知しました。タスクを再実行してください。"
  const NewTaskSubject := "新規タスク"
  const NewTaskBody := "New task available: "

  // Log phrases.
  const Received := "Received message from "
  const Colon := ": "
  const ProcessingCompletion := "Processing completion report from "
  const FinalReceived := "Final report received. Checking output folder..."
  const FoundPrefix := "Found "
  const FilesInOutput := " files in output folder:"
  const ErrorReported := "ERROR reported by "
  const SuggestingRetry := "Suggesting retry for "
  const WarningPrefix := "WARNING: "
  const NotUpdatedFor := " has not updated for "
  const MinutesWord := " minutes"
  const TaskQuote := "Task '"
  const DistributedTo := "' distributed to "
  const StatusReportLog := "Status Report:\n"

  // The status report.
  const ReportHeader := "=== Manager Status Report ==="
  const TimePrefix := "Time: "
  const PendingEq := ": Pending="
  const CompletedEq := ", Completed="

  // Task keys, `str(None)`, and file names.
  const NameKey := "name"
  const WorkerKey := "worker"
  const NoneText := "None"
  const MissingWorker := "'worker'"
  const TaskPrefix := "task_"
  const JsonSuffix := ".json"
  const ReportFilePrefix := "status_report_"
  const TextSuffix := ".txt"

  /** A worker whose log has not changed for more than this many seconds is
      reported. */
  const StaleAfter := 300
  const MinuteLength := 60

  /** The sample tasks are created on the first iteration after this second. */
  const SampleAfter := 5

  /** `run`: messages every 20 seconds, worker status every 60, the status
      report every 180. */
  const Intervals := [20, 60, 180]

  /** The manager process: its store and log handle (its log is
      `manager_log.txt`, see `LogPath`), the pending and completed directories
      of every participant under `pending_tasks/` and `completed_tasks/`, and
      the shared output directory. */
  datatype State = State(comm: Channel, dirs: map<string, TaskDirs>, output: map<string, string>)
  {
    function Name(): string
    {
      comm.owner
    }

    /** `log_activity(activity)`. */
    function Log(activity: string): (r: State)
      ensures r.comm.owner == comm.owner && r.comm.store == comm.store
      ensures r.dirs == dirs && r.output == output
      ensures comm.log <= r.comm.log
    {
      this.(comm := comm.Log(activity))
    }

    /** `send_message`: one new record from the manager at the end of the store. */
    function Send(ts: string, to: string, subject: string, body: string, priority: string): (r: State)
      ensures r.comm.owner == comm.owner && r.comm.log == comm.log
      ensures r.dirs == dirs && r.output == output
      ensures Contents(r.comm.store) == Contents(comm.store) + [Message(ts, comm.owner, to, subject, body, priority, Some(false))]
    {
      this.(comm := comm.Send(ts, to, subject, body, priority))
    }
  }

  /** The manager's own copy of `log_activity` writes `manager_log.txt`, a file
      no participant using the shared copy writes. */
  lemma ManagerLogIsSeparate(worker: string)
    ensures LogPath(ManagerName, true) != LogPath(worker, false)
  {
    var path := LogPath(worker, false);
    assert path[|worker|] == '/';
    assert '/' !in LogPath(ManagerName, true);
  }

  // ----- classifying messages -------------------------------------------------

  /** What `check_messages` makes of a subject. */
  datatype Category = Completion | ErrorReport | Unclassified

  /** A completion word takes precedence over the error words. */
  function Classify(subject: string): Category
  {
    if Contains(CompletionWord, subject) then Completion
    else if Contains(ErrorWord, subject) || Contains(ErrorWordLatin, Lower(subject)) then ErrorReport
    else Unclassified
  }

  /** The Latin error word is recognised in any mix of letter case, and only
      when no completion word is present. */
  lemma ClassifyInAnyCase(subject: string)
    ensures Classify(subject).Completion? <==> Contains(CompletionWord, subject)
    ensures Classify(subject).ErrorReport? <==>
              !Contains(CompletionWord, subject)
              && (Contains(ErrorWord, subject) || exists i :: OccursAtIgnoringCase(ErrorWordLatin, subject, i))
  {
    assert Lower(ErrorWordLatin) == ErrorWordLatin;
    LowerFindsAnyCase(ErrorWordLatin, subject);
  }

  /** `handle_completion_report` checks the output folder for a completion from
      worker3 that names the final report. */
  predicate ChecksOutput(m: Message)
  {
    Classify(m.subject).Completion? && m.sender == Worker3 && Contains(FinalReportWord, m.subject)
  }

  /** The final-report subject is itself a completion, so exactly worker3's
      messages naming the final report lead to the output check. */
  lemma OnlyFinalReportChecksOutput(m: Message)
    ensures ChecksOutput(m) <==> m.sender == Worker3 && Contains(FinalReportWord, m.subject)
  {
    if Contains(FinalReportWord, m.subject) {
      assert FinalReportWord == ReportWord + CompletionWord + "";
      ContainsPart(ReportWord, CompletionWord, "", m.subject);
    }
  }

  /** `analyze_and_respond_to_error`: the body mentions a timeout or a
      connection, in lower case after folding. */
  predicate Retryable(body: string)
  {
    Contains(TimeoutWord, Lower(body)) || Contains(ConnectionWord, Lower(body))
  }

  /** Both words are recognised in any mix of letter case. */
  lemma RetryableInAnyCase(body: string)
    ensures Retryable(body) <==>
              (exists i :: OccursAtIgnoringCase(TimeoutWord, body, i))
              || (exists i :: OccursAtIgnoringCase(ConnectionWord, body, i))
  {
    assert Lower(TimeoutWord) == TimeoutWord;
    assert Lower(ConnectionWord) == ConnectionWord;
    LowerFindsAnyCase(TimeoutWord, body);
    LowerFindsAnyCase(ConnectionWord, body);
  }

  /** The retry instruction the manager sends back to `to`. */
  function RetryInstruction(ts: string, me: string, to: string): Message
  {
    Message(ts, me, to, RetrySubject, RetryBody, High, Some(false))
  }

  /** What handling `m` sends: one retry instruction to the sender of an error
      report that looks transient, and nothing otherwise. */
  function Replies(m: Message, ts: string, me: string): (r: seq<Message>)
    ensures |r| <= 1
    ensures |r| == 1 <==> Classify(m.subject).ErrorReport? && Retryable(m.body)
    ensures |r| == 1 ==> r[0].to == m.sender && r[0].subject == RetrySubject && r[0].priority == High
  {
    if Classify(m.subject).ErrorReport? && Retryable(m.body) then [RetryInstruction(ts, me, m.sender)] else []
  }

  /** The replies to a batch, in order. */
  function AllReplies(ms: seq<Message>, ts: string, me: string): (r: seq<Message>)
    ensures forall x :: x in r ==>
              exists m :: m in ms && Classify(m.subject).ErrorReport? && Retryable(m.body) && x == RetryInstruction(ts, me, m.sender)
    ensures forall m :: m in ms && Classify(m.subject).ErrorReport? && Retryable(m.body) ==>
              RetryInstruction(ts, me, m.sender) in r
    ensures |r| <= |ms|
    ensures |ms| == 1 ==> r == Replies(ms[0], ts, me)
    decreases |ms|
  {
    if |ms| == 0 then []
    else
      var rest := AllReplies(ms[1..], ts, me);
      assert forall m :: m in ms[1..] ==> m in ms;
      assert forall m :: m in ms ==> m == ms[0] || m in ms[1..];
      Replies(ms[0], ts, me) + rest
  }

  /** Replying to a batch is replying to its first part, then to the rest: with
      the single-message case, this fixes the replies' number and order. */
  lemma {:induction false} AllRepliesConcat(a: seq<Message>, b: seq<Message>, ts: string, me: string)
    ensures AllReplies(a + b, ts, me) == AllReplies(a, ts, me) + AllReplies(b, ts, me)
    decreases |a|
  {
    if |a| == 0 {
      assert a + b == b;
    } else {
      assert (a + b)[0] == a[0] && (a + b)[1..] == a[1..] + b;
      AllRepliesConcat(a[1..], b, ts, me);
    }
  }

  /** The number of output checks a batch leads to. */
  function OutputChecks(ms: seq<Message>): nat
  {
    if |ms| == 0 then 0 else (if ChecksOutput(ms[0]) then 1 else 0) + OutputChecks(ms[1..])
  }

  // ----- handling messages ------------------------------------------------------

  /** The state after handling messages, and how many times the output folder
      was checked. */
  datatype Handled = Handled(s: State, outputChecks: nat)

  /** `check_output_folder`: the number of files in the output directory is
      logged when there are any. */
  function CheckOutputFolder(s: State): (r: State)
    ensures r.comm.owner == s.comm.owner && r.comm.store == s.comm.store
    ensures r.dirs == s.dirs && r.output == s.output && s.comm.log <= r.comm.log
    ensures |s.output| == 0 <==> r == s
  {
    if |s.output| == 0 then s else s.Log(FoundPrefix + NatToString(|s.output|) + FilesInOutput)
  }

  /** `handle_completion_report`. */
  function HandleCompletion(s: State, m: Message): (r: Handled)
    requires Classify(m.subject).Completion?
    ensures r.s.comm.owner == s.comm.owner && r.s.comm.store == s.comm.store
    ensures r.s.dirs == s.dirs && r.s.output == s.output && s.comm.log <= r.s.comm.log
    ensures r.outputChecks == 1 <==> ChecksOutput(m)
    ensures r.outputChecks <= 1
  {
    var s1 := s.Log(ProcessingCompletion + m.sender);
    if m.sender == Worker3 && Contains(FinalReportWord, m.subject) then
      Handled(CheckOutputFolder(s1.Log(FinalReceived)), 1)
    else Handled(s1, 0)
  }

  /** `handle_error_report`, with `analyze_and_respond_to_error`. */
  function HandleError(s: State, m: Message, ts: string): (r: State)
    requires Classify(m.subject).ErrorReport?
    ensures r.comm.owner == s.comm.owner && r.dirs == s.dirs && r.output == s.output
    ensures s.comm.log <= r.comm.log
    ensures Contents(r.comm.store) == Contents(s.comm.store) + Replies(m, ts, s.Name())
  {
    var s1 := s.Log(ErrorReported + m.sender + Colon + m.body);
    if Retryable(m.body) then
      s1.Log(SuggestingRetry + m.sender).Send(ts, m.sender, RetrySubject, RetryBody, High)
    else s1
  }

  /** One iteration of `check_messages`' loop. */
  function HandleMessage(s: State, m: Message, ts: string): (r: Handled)
    ensures r.s.comm.owner == s.comm.owner && r.s.dirs == s.dirs && r.s.output == s.output
    ensures s.comm.log <= r.s.comm.log
    ensures Contents(r.s.comm.store) == Contents(s.comm.store) + Replies(m, ts, s.Name())
    ensures r.outputChecks == (if ChecksOutput(m) then 1 else 0)
  {
    var s1 := s.Log(Received + m.sender + Colon + m.subject);
    match Classify(m.subject)
    case Completion => HandleCompletion(s1, m)
    case ErrorReport => Handled(HandleError(s1, m, ts), 0)
    case Unclassified => Handled(s1, 0)
  }

  /** The loop over the messages read. */
  function HandleAll(s: State, ms: seq<Message>, ts: string): (r: Handled)
    ensures r.s.comm.owner == s.comm.owner && r.s.dirs == s.dirs && r.s.output == s.output
    ensures s.comm.log <= r.s.comm.log
    ensures Contents(r.s.comm.store) == Contents(s.comm.store) + AllReplies(ms, ts, s.Name())
    ensures r.outputChecks == OutputChecks(ms)
    decreases |ms|
  {
    if |ms| == 0 then Handled(s, 0)
    else
      var h := HandleMessage(s, ms[0], ts);
      var t := HandleAll(h.s, ms[1..], ts);
      AppendChain(Contents(s.comm.store), Contents(h.s.comm.store), Contents(t.s.comm.store),
                  Replies(ms[0], ts, s.Name()), AllReplies(ms[1..], ts, s.Name()));
      Handled(t.s, h.outputChecks + t.outputChecks)
  }

  /** `check_messages`: read the unread messages addressed to the manager, mark
      them read, and handle each; the store ends with the replies. */
  function CheckMessages(s: State, world: World): (r: Handled)
    ensures r.s.comm.owner == s.comm.owner && r.s.dirs == s.dirs && r.s.output == s.output
    ensures s.comm.log <= r.s.comm.log
    ensures Contents(r.s.comm.store) ==
              MarkRead(Contents(s.comm.store), s.Name()) + AllReplies(Unread(Contents(s.comm.store), s.Name()), world.stamp, s.Name())
    ensures r.outputChecks == OutputChecks(Unread(Contents(s.comm.store), s.Name()))
  {
    var (ms, c) := s.comm.ReadMine();
    HandleAll(s.(comm := c), ms, world.stamp)
  }

  // ----- worker status ----------------------------------------------------------

  /** The whole minutes since `worker`'s log last changed, when its log exists
      and that was more than five minutes ago: `int(elapsed / 60)`. */
  function Staleness(now: int, logTimes: map<string, int>, worker: string): (r: Option<int>)
    ensures var path := LogPath(worker, false);
      r.Some? <==> path in logTimes && now - logTimes[path] > StaleAfter
    ensures var path := LogPath(worker, false);
      r.Some? ==> MinuteLength * r.value <= now - logTimes[path] < MinuteLength * (r.value + 1) && r.value >= 5
  {
    var path := LogPath(worker, false);
    if path in logTimes && now - logTimes[path] > StaleAfter then Some((now - logTimes[path]) / MinuteLength) else None
  }

  function WarningLine(worker: string, minutes: int): string
  {
    WarningPrefix + worker + NotUpdatedFor + IntToString(minutes) + MinutesWord
  }

  /** The warnings for `workers`, in order: one per stale worker. */
  function Warnings(now: int, logTimes: map<string, int>, workers: seq<string>): (r: seq<LogEntry>)
    ensures forall e :: e in r ==>
              exists w :: w in workers && Staleness(now, logTimes, w).Some?
                          && e == LogEntry(WarningLine(w, Staleness(now, logTimes, w).value), None)
    ensures forall w :: w in workers && Staleness(now, logTimes, w).Some? ==>
              LogEntry(WarningLine(w, Staleness(now, logTimes, w).value), None) in r
    ensures |r| <= |workers|
    ensures |workers| == 1 ==>
              r == (if Staleness(now, logTimes, workers[0]).Some?
                    then [LogEntry(WarningLine(workers[0], Staleness(now, logTimes, workers[0]).value), None)]
                    else [])
    decreases |workers|
  {
    if |workers| == 0 then []
    else
      var rest := Warnings(now, logTimes, workers[1..]);
      assert forall w :: w in workers[1..] ==> w in workers;
      assert forall w :: w in workers ==> w == workers[0] || w in workers[1..];
      match Staleness(now, logTimes, workers[0])
      case None => rest
      case Some(minutes) => [LogEntry(WarningLine(workers[0], minutes), None)] + rest
  }

  /** Warning about a list of workers is warning about its first part, then
      about the rest: with the single-worker case, this fixes one line per stale
      worker, in worker order. */
  lemma {:induction false} WarningsConcat(now: int, logTimes: map<string, int>, a: seq<string>, b: seq<string>)
    ensures Warnings(now, logTimes, a + b) == Warnings(now, logTimes, a) + Warnings(now, logTimes, b)
    decreases |a|
  {
    if |a| == 0 {
      assert a + b == b;
    } else {
      assert (a + b)[0] == a[0] && (a + b)[1..] == a[1..] + b;
      WarningsConcat(now, logTimes, a[1..], b);
    }
  }

  /** `check_worker_status` at time `now`, given the last-modified times of the
      log files that exist. */
  function CheckWorkerStatus(s: State, now: int, logTimes: map<string, int>): (r: State)
    ensures r.comm.owner == s.comm.owner && r.comm.store == s.comm.store
    ensures r.dirs == s.dirs && r.output == s.output
    ensures s.comm.log <= r.comm.log && r.comm.log[|s.comm.log|..] == Warnings(now, logTimes, Workers)
  {
    s.(comm := s.comm.(log := s.comm.log + Warnings(now, logTimes, Workers)))
  }

  // ----- distributing tasks -------------------------------------------------------

  /** The name `distribute_task` gives a task file, from the compact clock
      rendering `%Y%m%d_%H%M%S`. */
  function TaskFileName(compact: string): string
  {
    TaskPrefix + compact + JsonSuffix
  }

  lemma TaskFileNameIsJson(compact: string)
    ensures IsJsonName(TaskFileName(compact))
  {
    var n := TaskFileName(compact);
    assert n[|n| - |JsonSuffix|..] == JsonSuffix;
  }

  /** `task_data.get('name')`, rendered: `None` for a task without a name. */
  function ShownName(task: Task): string
  {
    Get(task, NameKey, NoneText)
  }

  /** The notice that a new task is waiting for `to`. */
  function NewTaskNotice(ts: string, me: string, to: string, task: Task): Message
  {
    Message(ts, me, to, NewTaskSubject, NewTaskBody + ShownName(task), High, Some(false))
  }

  /** An operation that returns, or raises and so ends the manager's process. */
  datatype Outcome = Done(s: State) | Aborted(s: State, error: string)

  /** `distribute_task(task, target)`: write the task into the target's pending
      directory, log it, and notify the target. Writing into a directory that
      does not exist raises before anything else happens. */
  function Distribute(s: State, task: Task, target: string, world: World): (r: Outcome)
    ensures r.Done? <==> target in s.dirs
    ensures r.Aborted? ==> r.s == s
    ensures r.s.comm.owner == s.comm.owner && r.s.output == s.output && s.comm.log <= r.s.comm.log
    ensures r.s.dirs.Keys == s.dirs.Keys
    ensures forall w :: w in s.dirs && w != target ==> r.s.dirs[w] == s.dirs[w]
    ensures r.Done? ==>
              var file := TaskFileName(world.compact);
              && r.s.dirs[target].completed == s.dirs[target].completed
              && file in r.s.dirs[target].pending && r.s.dirs[target].pending[file] == Parsed(task)
              && (forall n :: n != file ==> (n in r.s.dirs[target].pending <==> n in s.dirs[target].pending))
              && (forall n :: n != file && n in s.dirs[target].pending ==> r.s.dirs[target].pending[n] == s.dirs[target].pending[n])
              && Contents(r.s.comm.store) == Contents(s.comm.store) + [NewTaskNotice(world.stamp, s.Name(), target, task)]
  {
    if target !in s.dirs then Aborted(s, NoSuchFile)
    else
      var d := s.dirs[target];
      var written := d.(pending := d.pending[TaskFileName(world.compact) := Parsed(task)]);
      var s1 := s.(dirs := s.dirs[target := written]).Log(TaskQuote + ShownName(task) + DistributedTo + target);
      Done(s1.Send(world.stamp, target, NewTaskSubject, NewTaskBody + ShownName(task), High))
  }

  /** A distribution adds one to the target's pending count, unless a task file
      of the same name (same second) is already there, which it replaces. */
  lemma DistributeCounts(s: State, task: Task, target: string, world: World)
    requires target in s.dirs
    ensures var d := Distribute(s, task, target, world).s.dirs[target];
      var file := TaskFileName(world.compact);
      && (file !in s.dirs[target].pending ==> JsonCount(d.pending) == JsonCount(s.dirs[target].pending) + 1)
      && (file in s.dirs[target].pending ==> JsonCount(d.pending) == JsonCount(s.dirs[target].pending))
      && JsonCount(d.completed) == JsonCount(s.dirs[target].completed)
  {
    TaskFileNameIsJson(world.compact);
    WriteCounts(s.dirs[target].pending, TaskFileName(world.compact), Parsed(task));
    assert Distribute(s, task, target, world).s.dirs[target].pending
        == s.dirs[target].pending[TaskFileName(world.compact) := Parsed(task)];
  }

  /** Two distributions to one worker within the same second share one file:
      the second task replaces the first. */
  lemma SameSecondSameFile(s: State, first: Task, second: Task, target: string, world: World)
    requires target in s.dirs
    ensures var s1 := Distribute(s, first, target, world).s;
      var s2 := Distribute(s1, second, target, world).s;
      var file := TaskFileName(world.compact);
      && s2.dirs[target].pending[file] == Parsed(second)
      && JsonCount(s2.dirs[target].pending) <= JsonCount(s.dirs[target].pending) + 1
  {
    DistributeCounts(s, first, target, world);
    DistributeCounts(Distribute(s, first, target, world).s, second, target, world);
  }

  // ----- the sample tasks ---------------------------------------------------------

  const SampleCollection: Task := map[
    "name" := "data_collection",
    "description" := "収集データの準備",
    "command" := "echo 'Collecting data...' && ls -la",
    "worker" := "worker1"]

  const SampleProcessing: Task := map[
    "name" := "data_processing",
    "description" := "データの処理",
    "script" := "print('Processing data...')\nfor i in range(5):\n    print(f'Step {i+1}/5')",
    "worker" := "worker2"]

  const SampleReport: Task := map[
    "name" := "report_generation",
    "description" := "レポートの生成",
    "command" := "echo 'Generating report...'",
    "worker" := "worker3"]

  /** The tasks of `create_sample_tasks`, each naming its worker. */
  const SampleTasks := [SampleCollection, SampleProcessing, SampleReport]

  /** One pass of `create_sample_tasks`' loop: `task.pop('worker')`, which
      raises `KeyError` for a task without a worker, then `distribute_task`. */
  function Deliver(s: State, task: Task, world: World): (r: Outcome)
    ensures r.s.comm.owner == s.comm.owner && r.s.output == s.output && s.comm.log <= r.s.comm.log
    ensures r.s.dirs.Keys == s.dirs.Keys
    ensures r.Done? <==> WorkerKey in task && task[WorkerKey] in s.dirs
    ensures r.Aborted? && WorkerKey in task ==> r.error == NoSuchFile
    ensures forall w :: w in s.dirs && (WorkerKey in task ==> task[WorkerKey] != w) ==> r.s.dirs[w] == s.dirs[w]
    ensures r.Done? ==>
              var file := TaskFileName(world.compact);
              file in r.s.dirs[task[WorkerKey]].pending && r.s.dirs[task[WorkerKey]].pending[file] == Parsed(task - {WorkerKey})
  {
    if WorkerKey !in task then Aborted(s, MissingWorker)
    else Distribute(s, task - {WorkerKey}, task[WorkerKey], world)
  }

  /** Every task names a worker, and every worker named has directories. */
  predicate Deliverable(tasks: seq<Task>, workers: set<string>)
  {
    forall i :: 0 <= i < |tasks| ==> WorkerKey in tasks[i] && tasks[i][WorkerKey] in workers
  }

  predicate Addressed(tasks: seq<Task>)
  {
    forall i :: 0 <= i < |tasks| ==> WorkerKey in tasks[i]
  }

  /** No task names `worker`. */
  predicate Spares(tasks: seq<Task>, worker: string)
  {
    forall i :: 0 <= i < |tasks| && WorkerKey in tasks[i] ==> tasks[i][WorkerKey] != worker
  }

  /** The loop of `create_sample_tasks`, which stops at the first exception. */
  function DistributeEach(s: State, tasks: seq<Task>, world: World): (r: Outcome)
    ensures r.s.comm.owner == s.comm.owner && r.s.output == s.output && s.comm.log <= r.s.comm.log
    ensures r.s.dirs.Keys == s.dirs.Keys
    ensures r.Done? <==> Deliverable(tasks, s.dirs.Keys)
    ensures r.Aborted? && Addressed(tasks) ==> r.error == NoSuchFile
    ensures forall w :: w in s.dirs && Spares(tasks, w) ==> r.s.dirs[w] == s.dirs[w]
    decreases |tasks|
  {
    if |tasks| == 0 then Done(s)
    else
      var rest := tasks[1..];
      assert Deliverable(tasks, s.dirs.Keys) <==>
             WorkerKey in tasks[0] && tasks[0][WorkerKey] in s.dirs && Deliverable(rest, s.dirs.Keys) by {
        assert forall i :: 0 < i < |tasks| ==> tasks[i] == rest[i - 1];
      }
      assert Addressed(tasks) ==> Addressed(rest);
      assert forall w :: Spares(tasks, w) ==> Spares(rest, w);
      match Deliver(s, tasks[0], world)
      case Aborted(s1, e) => Aborted(s1, e)
      case Done(s1) => DistributeEach(s1, rest, world)
  }

  /** Each task ends up, without its `worker` field, in the pending directory of
      the worker it named, provided the workers named are distinct. */
  lemma {:induction false} EachTaskReachesItsWorker(s: State, tasks: seq<Task>, targets: seq<string>, world: World)
    requires |tasks| == |targets| && Distinct(targets)
    requires forall i :: 0 <= i < |tasks| ==> WorkerKey in tasks[i] && tasks[i][WorkerKey] == targets[i]
    requires forall t :: t in targets ==> t in s.dirs
    ensures var r := DistributeEach(s, tasks, world);
      var file := TaskFileName(world.compact);
      && r.Done?
      && forall i :: 0 <= i < |tasks| ==>
           file in r.s.dirs[targets[i]].pending && r.s.dirs[targets[i]].pending[file] == Parsed(tasks[i] - {WorkerKey})
    decreases |tasks|
  {
    if |tasks| > 0 {
      var file := TaskFileName(world.compact);
      var t0 := tasks[0];
      var s1 := Deliver(s, t0, world).s;
      var rest := tasks[1..];
      DistinctTail(targets);
      EachTaskReachesItsWorker(s1, rest, targets[1..], world);
      var r := DistributeEach(s1, rest, world);
      assert r == DistributeEach(s, tasks, world);
      forall i | 0 <= i < |rest| && WorkerKey in rest[i]
        ensures rest[i][WorkerKey] != targets[0]
      {
        assert rest[i] == tasks[i + 1];
      }
      assert file in r.s.dirs[targets[0]].pending && r.s.dirs[targets[0]].pending[file] == Parsed(t0 - {WorkerKey});
      forall i | 0 < i < |tasks|
        ensures file in r.s.dirs[targets[i]].pending && r.s.dirs[targets[i]].pending[file] == Parsed(tasks[i] - {WorkerKey})
      {
        assert tasks[i] == rest[i - 1] && targets[i] == targets[1..][i - 1];
      }
    }
  }

  /** The sample tasks name worker1, worker2 and worker3, in that order. */
  lemma SampleWorkers()
    ensures forall i :: 0 <= i < |SampleTasks| ==> WorkerKey in SampleTasks[i] && SampleTasks[i][WorkerKey] == Workers[i]
  {
    assert SampleCollection[WorkerKey] == Worker1;
    assert SampleProcessing[WorkerKey] == Worker2;
    assert SampleReport[WorkerKey] == Worker3;
  }

  /** Once its `worker` field is gone, the first and third sample tasks run a
      command and the second a script. */
  lemma SampleModes()
    ensures ModeOf(SampleTasks[0] - {WorkerKey}).CommandMode?
    ensures ModeOf(SampleTasks[1] - {WorkerKey}).ScriptMode?
    ensures ModeOf(SampleTasks[2] - {WorkerKey}).CommandMode?
  {
    assert "command" in SampleCollection;
    assert "command" !in SampleProcessing && "script" in SampleProcessing;
    assert "command" in SampleReport;
  }

  /** `create_sample_tasks`. */
  function CreateSampleTasks(s: State, world: World): (r: Outcome)
    ensures r.s.comm.owner == s.comm.owner && r.s.output == s.output && s.comm.log <= r.s.comm.log
    ensures r.s.dirs.Keys == s.dirs.Keys
    ensures r.Done? <==> Staffed(s.dirs.Keys)
    ensures r.Aborted? ==> r.error == NoSuchFile
  {
    SampleWorkers();
    DistributeEach(s, SampleTasks, world)
  }

  /** With every worker's directories in place, each worker finds its sample
      task, without the `worker` field, under the one file name of that second. */
  lemma SampleTasksReachTheirWorkers(s: State, world: World)
    requires Staffed(s.dirs.Keys)
    ensures var r := CreateSampleTasks(s, world);
      var file := TaskFileName(world.compact);
      && r.Done?
      && forall i :: 0 <= i < |Workers| ==>
           file in r.s.dirs[Workers[i]].pending && r.s.dirs[Workers[i]].pending[file] == Parsed(SampleTasks[i] - {WorkerKey})
  {
    SampleWorkers();
    assert Worker1[6] == '1' && Worker2[6] == '2' && Worker3[6] == '3';
    EachTaskReachesItsWorker(s, SampleTasks, Workers, world);
  }

  /** `ensure_directories`: every worker gets its pending and completed
      directories; those already there are kept as they are. */
  function EnsureDirectories(s: State): (r: State)
    ensures r.comm == s.comm && r.output == s.output
    ensures Staffed(r.dirs.Keys)
    ensures forall w :: w in s.dirs ==> w in r.dirs && r.dirs[w] == s.dirs[w]
    ensures forall w :: w in r.dirs ==> w in s.dirs || w in Workers
    ensures forall w :: w in r.dirs && w !in s.dirs ==> r.dirs[w] == TaskDirs(map[], map[])
  {
    s.(dirs := EnsureEach(s.dirs, Workers))
  }

  function EnsureEach(dirs: map<string, TaskDirs>, names: seq<string>): (r: map<string, TaskDirs>)
    ensures forall w :: w in names ==> w in r
    ensures forall w :: w in dirs ==> w in r && r[w] == dirs[w]
    ensures forall w :: w in r ==> w in dirs || w in names
    ensures forall w :: w in r && w !in dirs ==> r[w] == TaskDirs(map[], map[])
    decreases |names|
  {
    if |names| == 0 then dirs
    else
      var dirs1 := if names[0] in dirs then dirs else dirs[names[0] := TaskDirs(map[], map[])];
      assert forall w :: w in names ==> w == names[0] || w in names[1..];
      EnsureEach(dirs1, names[1..])
  }

  // ----- the status report --------------------------------------------------------

  /** `len(list(Path(f"pending_tasks/{worker}").glob("*.json")))`: a directory that
      does not exist has no entries. */
  function PendingCount(s: State, worker: string): nat
  {
    if worker in s.dirs then JsonCount(s.dirs[worker].pending) else 0
  }

  function CompletedCount(s: State, worker: string): nat
  {
    if worker in s.dirs then JsonCount(s.dirs[worker].completed) else 0
  }

  function StatusLine(worker: string, pending: nat, completed: nat): string
  {
    worker + PendingEq + NatToString(pending) + CompletedEq + NatToString(completed)
  }

  /** The report's lines: the header, the time, a blank line, and one line per
      worker in `self.workers` order. */
  function ReportLines(s: State, stamp: string): (r: seq<string>)
    ensures |r| == 3 + |Workers|
    ensures r[0] == ReportHeader && r[1] == TimePrefix + stamp && r[2] == ""
    ensures forall i :: 0 <= i < |Workers| ==>
              r[3 + i] == StatusLine(Workers[i], PendingCount(s, Workers[i]), CompletedCount(s, Workers[i]))
  {
    [ReportHeader, TimePrefix + stamp, ""]
      + seq(|Workers|, i requires 0 <= i < |Workers| =>
              StatusLine(Workers[i], PendingCount(s, Workers[i]), CompletedCount(s, Workers[i])))
  }

  /** `"\n".join(report)`. */
  function ReportText(s: State, stamp: string): string
  {
    Join(ReportLines(s, stamp), "\n")
  }

  function ReportFileName(compact: string): string
  {
    ReportFilePrefix + compact + TextSuffix
  }

  /** `generate_status_report`: log the report, then write it to the output
      directory, which raises when the write fails. */
  function StatusReport(s: State, world: World): (r: Outcome)
    ensures r.s.comm.owner == s.comm.owner && r.s.comm.store == s.comm.store && r.s.dirs == s.dirs
    ensures r.s.comm.log == s.comm.log + [LogEntry(StatusReportLog + ReportText(s, world.stamp), None)]
    ensures r.Done? <==> world.output.Ok?
    ensures r.Aborted? ==> r.s.output == s.output && r.error == world.output.error
    ensures r.Done? ==> r.s.output == s.output[ReportFileName(world.compact) := ReportText(s, world.stamp)]
  {
    var s1 := s.Log(StatusReportLog + ReportText(s, world.stamp));
    match world.output
    case Fails(e) => Aborted(s1, e)
    case Ok => Done(s1.(output := s1.output[ReportFileName(world.compact) := ReportText(s, world.stamp)]))
  }

  lemma NoNewlineInDigits(n: nat)
    ensures '\n' !in NatToString(n)
  {
    NatToStringDigits(n);
  }

  /** Reading a written report back and splitting it into lines gives the
      report's lines, when the time stamp is a single line. */
  lemma ReportReadsBack(s: State, world: World)
    requires world.output.Ok? && '\n' !in world.stamp
    ensures var r := StatusReport(s, world);
      var name := ReportFileName(world.compact);
      && r.Done? && name in r.s.output
      && Split(r.s.output[name], '\n') == ReportLines(s, world.stamp)
  {
    var lines := ReportLines(s, world.stamp);
    forall k | 0 <= k < |lines|
      ensures '\n' !in lines[k]
    {
      if k >= 3 {
        var w := Workers[k - 3];
        NoNewlineInDigits(PendingCount(s, w));
        NoNewlineInDigits(CompletedCount(s, w));
      }
    }
    SplitJoin(lines, '\n');
  }

  /** The counts a report shows follow the task files: after a worker moves a
      pending `.json` file whose name is free in its completed directory, the
      next report shows one fewer pending and one more completed. */
  lemma ReportCountsFollowMove(s: State, worker: string, name: string)
    requires worker in s.dirs && name in s.dirs[worker].pending && IsJsonName(name)
    requires name !in s.dirs[worker].completed
    ensures var moved := s.(dirs := s.dirs[worker := Move(s.dirs[worker], name)]);
      && PendingCount(moved, worker) == PendingCount(s, worker) - 1
      && CompletedCount(moved, worker) == CompletedCount(s, worker) + 1
      && forall w :: w != worker ==> PendingCount(moved, w) == PendingCount(s, w) && CompletedCount(moved, w) == CompletedCount(s, w)
  {
    MoveCounts(s.dirs[worker], name);
  }

  // ----- the run loop -----------------------------------------------------------

  /** One iteration's outcome, and whether the sample tasks have been created. */
  datatype Ticked = Ticked(out: Outcome, created: bool)

  /** The periodic part of an iteration: messages, worker status and the
      status report, each when `runs` says it is due. Only the report's write
      can raise. */
  function Periodic(s: State, runs: seq<bool>, world: World): (r: Outcome)
    requires |runs| == |Intervals|
    ensures r.s.comm.owner == s.comm.owner && r.s.dirs == s.dirs && s.comm.log <= r.s.comm.log
    ensures r.Aborted? <==> runs[2] && world.output.Fails?
  {
    var s1 := if runs[0] then CheckMessages(s, world).s else s;
    var s2 := if runs[1] then CheckWorkerStatus(s1, world.time, world.logTimes) else s1;
    if runs[2] then StatusReport(s2, world) else Done(s2)
  }

  /** A due message check marks the manager's records read and appends the
      replies; otherwise the periodic part leaves the store untouched. */
  lemma PeriodicStore(s: State, runs: seq<bool>, world: World)
    requires |runs| == |Intervals|
    ensures var r := Periodic(s, runs, world);
      && (runs[0] ==>
            Contents(r.s.comm.store) == MarkRead(Contents(s.comm.store), s.Name())
                                        + AllReplies(Unread(Contents(s.comm.store), s.Name()), world.stamp, s.Name()))
      && (!runs[0] ==> r.s.comm.store == s.comm.store)
  {
    var s1 := if runs[0] then CheckMessages(s, world).s else s;
    var s2 := if runs[1] then CheckWorkerStatus(s1, world.time, world.logTimes) else s1;
    assert s2.comm.store == s1.comm.store;
  }

  /** A due status check logs the staleness warnings, followed only by the
      report's line when the report is due too; a due report's line is the
      last one. */
  lemma PeriodicLog(s: State, runs: seq<bool>, world: World)
    requires |runs| == |Intervals|
    ensures var r := Periodic(s, runs, world);
      && (runs[1] ==> EndsWith(r.s.comm.log, Warnings(world.time, world.logTimes, Workers) + ReportEntries(s, runs[2], world)))
      && (runs[2] ==> EndsWith(r.s.comm.log, ReportEntries(s, true, world)))
  {
    var s1 := if runs[0] then CheckMessages(s, world).s else s;
    var s2 := if runs[1] then CheckWorkerStatus(s1, world.time, world.logTimes) else s1;
    var log := Periodic(s, runs, world).s.comm.log;
    var tail := ReportEntries(s, runs[2], world);
    ReportSeesOnlyDirs(s, s2, world.stamp);
    assert log == s2.comm.log + tail;
    EndsWithSuffix(s2.comm.log, tail);
    if runs[1] {
      EndsWithExtend(s2.comm.log, Warnings(world.time, world.logTimes, Workers), tail);
    }
  }

  lemma EndsWithSuffix(log: seq<LogEntry>, tail: seq<LogEntry>)
    ensures EndsWith(log + tail, tail)
  {
  }

  lemma EndsWithExtend(log: seq<LogEntry>, tail: seq<LogEntry>, more: seq<LogEntry>)
    requires EndsWith(log, tail)
    ensures EndsWith(log + more, tail + more)
  {
    assert (log + more)[|log + more| - |tail + more|..] == log[|log| - |tail|..] + more;
  }

  /** A due report that can be written is put in the output folder, whose
      other files are kept; a report that is not due leaves the folder alone,
      and with nothing due nothing changes. */
  lemma PeriodicOutput(s: State, runs: seq<bool>, world: World)
    requires |runs| == |Intervals|
    ensures var r := Periodic(s, runs, world);
      && (runs[2] && world.output.Ok? ==>
            r.s.output == s.output[ReportFileName(world.compact) := ReportText(s, world.stamp)])
      && (!runs[2] ==> r.s.output == s.output)
      && (!runs[0] && !runs[1] && !runs[2] ==> r == Done(s))
  {
    var s1 := if runs[0] then CheckMessages(s, world).s else s;
    var s2 := if runs[1] then CheckWorkerStatus(s1, world.time, world.logTimes) else s1;
    if runs[2] {
      ReportSeesOnlyDirs(s, s2, world.stamp);
    }
  }

  /** `tail` is the last part of `log`. */
  predicate EndsWith(log: seq<LogEntry>, tail: seq<LogEntry>)
  {
    |tail| <= |log| && log[|log| - |tail|..] == tail
  }

  /** The log line the status report adds, when it is due. */
  function ReportEntries(s: State, due: bool, world: World): seq<LogEntry>
  {
    if due then [LogEntry(StatusReportLog + ReportText(s, world.stamp), None)] else []
  }

  /** The report reads nothing but the task directories. */
  lemma ReportSeesOnlyDirs(a: State, b: State, stamp: string)
    requires a.dirs == b.dirs
    ensures ReportText(a, stamp) == ReportText(b, stamp)
  {
    assert ReportLines(a, stamp) == ReportLines(b, stamp);
  }

  /** One iteration of `run`: the sample tasks once, after the fifth second, then
      the periodic activities as they fall due. An exception from the sample
      tasks ends the iteration there. */
  function Tick(s: State, created: bool, lasts: seq<int>, world: World): (r: Ticked)
    requires |lasts| == |Intervals|
    ensures r.out.s.comm.owner == s.comm.owner && r.out.s.dirs.Keys == s.dirs.Keys
    ensures s.comm.log <= r.out.s.comm.log
    ensures r.created <==> created || world.time > SampleAfter
    ensures Staffed(s.dirs.Keys) ==>
              (r.out.Aborted? <==> PlanTick(world.time, lasts, Intervals).runs[2] && world.output.Fails?)
    ensures Staffed(s.dirs.Keys) && world.output.Ok? ==> r.out.Done?
    ensures !created && world.time > SampleAfter && !Staffed(s.dirs.Keys) ==>
              r.out.Aborted? && r.out.error == NoSuchFile
  {
    var runs := PlanTick(world.time, lasts, Intervals).runs;
    if !created && world.time > SampleAfter then
      match CreateSampleTasks(s, world)
      case Aborted(s0, e) => Ticked(Aborted(s0, e), true)
      case Done(s0) => Ticked(Periodic(s0, runs, world), true)
    else Ticked(Periodic(s, runs, world), created)
  }

  /** The periodic activities an iteration runs are exactly the due ones, on
      the state the sample tasks left when they were seeded this iteration. */
  lemma TickRunsWhatIsDue(s: State, created: bool, lasts: seq<int>, world: World)
    requires |lasts| == |Intervals|
    ensures var due := [Due(world.time, lasts[0], 20), Due(world.time, lasts[1], 60), Due(world.time, lasts[2], 180)];
      && (created || world.time <= SampleAfter ==> Tick(s, created, lasts, world).out == Periodic(s, due, world))
      && (!created && world.time > SampleAfter && Staffed(s.dirs.Keys) ==>
            Tick(s, created, lasts, world).out == Periodic(CreateSampleTasks(s, world).s, due, world))
  {
    var due := [Due(world.time, lasts[0], 20), Due(world.time, lasts[1], 60), Due(world.time, lasts[2], 180)];
    assert PlanTick(world.time, lasts, Intervals).runs == due;
  }

  /** The output directory accepts every write in `worlds`. */
  predicate Writable(worlds: seq<World>)
  {
    forall i :: 0 <= i < |worlds| ==> worlds[i].output.Ok?
  }

  /** The end of `run` over a sequence of ticks: the state, how many iterations
      ran, how many times the sample tasks were created, and whether an
      exception ended the process. */
  datatype RunEnd = RunEnd(s: State, ticks: nat, seeded: nat, crashed: bool)

  /** `while self.running:` over the ticks `worlds`. Nothing sets `running` to
      false while the loop runs, so only an exception ends it early. */
  function Run(s: State, created: bool, lasts: seq<int>, worlds: seq<World>): (r: RunEnd)
    requires |lasts| == |Intervals|
    ensures r.ticks <= |worlds| && (r.ticks < |worlds| ==> r.crashed)
    ensures r.s.comm.owner == s.comm.owner && r.s.dirs.Keys == s.dirs.Keys && s.comm.log <= r.s.comm.log
    ensures r.seeded <= 1 && (created ==> r.seeded == 0)
    ensures !created && |worlds| > 0 && worlds[0].time > SampleAfter ==> r.seeded == 1
    ensures Staffed(s.dirs.Keys) && Writable(worlds) ==>
              !r.crashed && r.ticks == |worlds|
    decreases |worlds|
  {
    if |worlds| == 0 then RunEnd(s, 0, 0, false)
    else
      var t := Tick(s, created, lasts, worlds[0]);
      var seeded := if !created && t.created then 1 else 0;
      match t.out
      case Aborted(s1, _) => RunEnd(s1, 1, seeded, true)
      case Done(s1) =>
        assert Writable(worlds) ==> Writable(worlds[1..]);
        var rest := Run(s1, t.created, PlanTick(worlds[0].time, lasts, Intervals).lasts, worlds[1..]);
        RunEnd(rest.s, rest.ticks + 1, seeded + rest.seeded, rest.crashed)
  }

  /** The first iteration, three minutes or more into the epoch, seeds the
      tasks and then runs every periodic activity, in order. */
  lemma FirstTickRunsEverything(s: State, world: World)
    requires world.time >= 180
    requires Staffed(s.dirs.Keys)
    ensures var seeded := CreateSampleTasks(s, world).s;
      var handled := CheckMessages(seeded, world).s;
      Tick(s, false, Zeros(3), world).out
        == StatusReport(CheckWorkerStatus(handled, world.time, world.logTimes), world)
  {
    Schedule.FirstTickRunsEverything(world.time, Intervals);
  }
}
