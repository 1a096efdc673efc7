# worker-manager-system, modelled in Dafny

The system is four polling Python scripts. They coordinate through a shared
JSON message store (`communication/messages.json`) and through per-participant
task directories (`pending_tasks/<name>`, `completed_tasks/<name>`):

- `worker_communication.py` is the message store client and its command line.
- `worker_automation.py` is a relay worker. worker1 hands over to worker2, then
  to worker3, then to the manager.
- `worker_session_automation.py` is a session worker. It reports the start,
  completion or failure of each task to the manager.
- `manager_automation.py` is the manager. It seeds sample tasks, classifies
  reports, answers retryable errors, watches the workers' logs and writes a
  status report.

The model is functional. Each process state is an immutable datatype and each
method of the scripts is a function from state to state. Everything the scripts
take from the outside comes in as a parameter:

- the clock (whole seconds, plus the two `strftime` renderings);
- subprocess results;
- whether each file write, rename or move succeeds;
- the order in which a directory is listed;
- log-file modification times.

| file | module | what it holds |
|---|---|---|
| strings.dfy | `Strings` | substring search (`in` on `str`), ASCII `lower()`, `str(int)`/`int(str)`, `join`/`split` |
| communication.dfy | `Communication` | the message record, the store file, `send_message`, `read_messages_for_me`, `log_activity`'s line format and path, progress sequences |
| cli.dfy | `Cli` | the `__main__` client of `worker_communication.py` |
| tasks.dfy | `Tasks` | task records, mode precedence, pending/completed directories, `glob("*.json")`, rename, and the outside world a tick observes |
| schedule.dfy | `Schedule` | the `now - last >= interval` tick plan shared by the three loops |
| relay.dfy | `Relay` | `WorkerAutomation` |
| session.dfy | `Session` | `WorkerSessionAutomation`, both as written and corrected (see Findings) |
| manager.dfy | `Manager` | `ManagerAutomation` |
| pipeline.dfy | `Pipeline` | how one script's subjects meet another script's routing tables |

A session worker's state records its working directory, `Start` or `WorkerDir`.
Every relative path it uses is resolved against that directory. This is how the
model exposes the session worker's two defects listed under Findings. `Session.Build` chooses
between the code as written (`AsWritten`) and the corrected code (`Corrected`).

## Model

| member | source | states |
|---|---|---|
| Communication.Ensure | worker_communication.py:14-18 | creating the store keeps whatever it already held; a missing store becomes an empty one |
| Communication.Append | worker_communication.py:20-33 | sending appends exactly one record at the end and keeps every earlier record in order; an unreadable store is replaced by a store holding only the new record |
| Communication.Channel.Send | worker_communication.py:20-33 | the appended record is read=false, from the owner, with the given recipient, subject, body and priority (medium by default); the log is untouched |
| Communication.Unread | worker_communication.py:38 | a record is returned iff it is addressed to the reader and its read flag is present and false; a record without the flag counts as read |
| Communication.UnreadConcat | worker_communication.py:38 | the unread filter keeps store order: filtering a concatenation concatenates the filtered parts |
| Communication.UnreadOfLater | worker_communication.py:38 | among fresh (unread) records, the unread ones for a reader are exactly those addressed to it |
| Communication.MarkRead | worker_communication.py:40-44 | the store length is kept, every record to the reader becomes read=true, and every record to someone else is unchanged |
| Communication.NothingUnreadAfterMark | worker_communication.py:38-44 | after marking, nothing in the store is unread for that reader |
| Communication.Channel.ReadMine | worker_communication.py:36-46 | a read returns the unread records for the owner and writes back the marked store; an unreadable store reads as empty and is written back empty |
| Communication.ReadTwiceYieldsNothing | worker_communication.py:36-46 | a second read with no send in between returns nothing |
| Communication.NextReadReturnsOnlyLaterSends | worker_communication.py:36-46 | after a read, the next read returns exactly the records sent to the owner since then |
| Communication.SentMessageIsRead | worker_communication.py:20-46 | a record sent to a participant is among the records that participant's next read returns |
| Communication.LogLineRoundTrip | worker_communication.py:63-66 | a log line is `[ts] activity` followed by a suffix from which the progress value, or its absence, reads back exactly |
| Communication.LogPathsDistinct | worker_communication.py:60 | distinct participants write distinct log files |
| Communication.ProgressesConcat | worker_communication.py:59-66 | the progress values of a log are those of its parts, in order |
| Communication.Range | worker_automation.py:135 | `range(lo, hi, step)` yields values in [lo, hi), is empty iff lo >= hi, starts at lo and ends within one step of hi |
| Communication.RangeValues | worker_automation.py:135 | the i-th value of `range(lo, hi, step)` is lo + i*step |
| Communication.LogEach | worker_automation.py:135-137 | logging once per value appends one entry per value, carrying that value as its progress |
| Communication.LogRoutine | worker_automation.py:179-183 | a routine logs 0, then its steps, then 100, and touches nothing but the log |
| Cli.Invoke | worker_communication.py:74-125 | exit 0 iff the arguments are complete and the command known (a progress operand must parse); every failure exits 1 with no records shown and nothing logged; send appends one record with priority medium by default; read prints the unread records and stores them marked; log appends the activity with its parsed progress |
| Strings.ContainsIffOccurs | worker_automation.py:55-61 | Python's `in` on a subject, used by every routing table (relay, session worker, manager), finds a word iff it occurs at some index |
| Strings.LowerFindsAnyCase | manager_automation.py:52 | searching `subject.lower()` for a lower-case word finds the word written in any case |
| Strings.MissingFirstChar | worker_session_automation.py:214 | a word whose first character is absent from a subject does not occur in it |
| Strings.ParseIntRoundTrip | worker_communication.py:120 | `int(str(n)) == n` for every integer |
| Strings.NatToStringDigits | manager_automation.py:147 | a count renders as a non-empty string of decimal digits with that value |
| Strings.SplitJoin | manager_automation.py:149 | splitting a newline-joined list of lines with no newline inside gives back the lines |
| Tasks.ModeOf | worker_automation.py:88-134 | exactly one mode is chosen: command if the key is present, else script if present, else generic |
| Tasks.Glob | worker_automation.py:72 | `glob("*.json")` keeps exactly the listed names that end in `.json` |
| Tasks.GlobKeepsDistinct | worker_session_automation.py:50 | filtering a listing with no repetitions lists no file twice |
| Tasks.GlobListsJson | worker_session_automation.py:50 | over a complete listing of a directory, `glob("*.json")` names exactly its `.json` files, each once |
| Tasks.Load | worker_automation.py:82-83 | loading succeeds iff the file exists and parses, and yields its contents |
| Tasks.Move | worker_automation.py:140-141 | the file leaves pending and appears in completed under the same name with the same contents; an existing completed file of that name is replaced; nothing else changes |
| Tasks.ConservesTransitive | worker_automation.py:69-77 | the no-file-invented-or-lost relation composes over a sequence of steps |
| Tasks.MoveConserves | worker_automation.py:140-141 | a move neither invents nor loses a task file |
| Tasks.MoveCounts | manager_automation.py:145-146 | a move takes one from the pending `.json` count and adds one to the completed count, unless it replaces a completed file of the same name |
| Tasks.WriteCounts | manager_automation.py:101-103 | writing a new `.json` name adds one to the count; overwriting an existing one does not |
| Schedule.PlanTick | worker_automation.py:208-224 | an activity runs iff `now - last >= interval`; a run sets its `last` to now and every other `last` is kept |
| Schedule.FirstTickRunsEverything | worker_automation.py:202-224 | since every `last` starts at 0, the first tick runs every activity |
| Schedule.NextRunAfterInterval | worker_automation.py:212-214 | after a run at `now`, the activity runs again iff at least one interval has passed |
| Relay.NextHop | worker_automation.py:151-163 | worker1, worker2 and worker3 each have a next hop; any other participant sends nothing |
| Relay.Notify | worker_automation.py:151-163 | the notice of a completed task is appended to the store (worker1 to worker2, worker2 to worker3, worker3 to the manager); worker3 also puts `report_<stamp>.txt` in the output folder when the write succeeds, and no other case touches the folder |
| Relay.SaveToOutput | worker_automation.py:165-175 | after a successful write `report_<stamp>.txt` is in the output folder and no other file changed; the folder gains one file unless a report of the same second was already there, which is replaced; a failing write is logged and swallowed |
| Relay.SameSecondReportReplaces | worker_automation.py:165-170 | a second report within the same second leaves the output folder as the first one did |
| Relay.RunCommand | worker_automation.py:88-112 | command mode always finishes: when the command ran and the write succeeded, the output file holds its name, command and captured output; otherwise no file is written |
| Relay.RunScript | worker_automation.py:115-131 | script mode raises iff the temporary file cannot be written or the interpreter cannot start; the temporary file is removed only on the normal path |
| Relay.InterpreterMissesScript | worker_automation.py:116-126 | as written, the interpreter, run from the worker's directory with the write's path, opens `<w>/<w>/temp_script.py`, not the file just written |
| Relay.InterpreterFindsScript | worker_automation.py:116-126 | corrected, handing the interpreter the bare `temp_script.py` opens the file that was written |
| Relay.RunGeneric | worker_automation.py:134-137 | generic mode logs 0, 20, 40, 60, 80, 100 and writes no file |
| Relay.RunMode | worker_automation.py:87-137 | the chosen mode raises only in script mode, and logs exactly that mode's progress steps |
| Relay.Complete | worker_automation.py:139-146 | after a successful rename the file is in completed, progress 100 is logged and the hop's notice is sent; a failed rename leaves the directories and the store alone |
| Relay.RunThenComplete | worker_automation.py:87-149 | the task moves and its notice goes out iff the mode finishes and the rename succeeds; otherwise the directories and the store are unchanged |
| Relay.ExecuteLoaded | worker_automation.py:85-149 | on success the logged progress is 0, the mode's steps, then 100 |
| Relay.ExecuteTask | worker_automation.py:79-149 | a listed file moves to completed, and its notice is sent, iff it parses, its mode finishes and its rename succeeds; otherwise it stays pending and nothing is sent |
| Relay.ExecuteTaskConserves | worker_automation.py:79-149 | executing a task neither invents nor loses a task file |
| Relay.SuccessProgressShape | worker_automation.py:85-143 | a successful task's progress starts at 0, ends at 100, stays within [0, 100] and never decreases, in every mode |
| Relay.ExecuteAll | worker_automation.py:73-75 | a scan neither invents nor loses a task file |
| Relay.CheckPendingTasks | worker_automation.py:69-77 | a pending-task check neither invents nor loses a task file |
| Relay.CheckSettles | worker_automation.py:69-77 | over a complete listing, every ready `.json` pending file ends in completed with its contents, and every other pending file stays pending, unchanged |
| Relay.ScanSettlesEachFile | worker_automation.py:69-77 | over distinct listed files, ready or not, each file that can complete ends in completed with its original contents, and each pending file that cannot stays pending and unchanged, because a failure is swallowed and the loop goes on |
| Relay.KeepsOthers | worker_automation.py:73-75 | a file not in the scanned list is left exactly where it was |
| Relay.ProcessDataFromWorker1 | worker_automation.py:177-184 | the routine logs 0, 0, 25, 50, 75, 100, 100 and sends one notice to worker3 |
| Relay.GenerateReportFromWorker2 | worker_automation.py:186-194 | the routine logs 0, 0, 33, 66, 99, 100, saves `report_<stamp>.txt` to the output folder when it can be written (a failed write changes nothing there), and sends one notice to the manager |
| Relay.RoutineProgressShape | worker_automation.py:179-192 | both routines' progress sequences never decrease and end at 100 |
| Relay.HandleMessage | worker_automation.py:42-67 | a message's only effect on the store is the follow-up its routing table prescribes, and it never touches the task directories |
| Relay.HandleAll | worker_automation.py:42-49 | handling a batch appends the follow-ups of each message in order |
| Relay.CheckMessages | worker_automation.py:39-49 | the store ends as: the own messages marked read, followed by the follow-ups of the unread ones |
| Relay.Tick | worker_automation.py:208-226 | one loop iteration advances the tick plan, neither invents nor loses a task file, and leaves the directories alone when the task check is not due |
| Relay.FirstTickRunsAllInOrder | worker_automation.py:198-224 | the first iteration checks messages, then tasks, then logs the heartbeat |
| Relay.TickDoesWhatIsDue | worker_automation.py:209-224 | on any iteration, not only the first: a due message check leaves nothing unread for the worker and otherwise the unread messages are kept; a due task check over a complete listing completes every ready `.json` file with its contents and keeps every other file pending; a due heartbeat is the last log line; with neither check due the heartbeat is the only change |
| Relay.ScanKeepsOwnUnread | worker_automation.py:153-163 | a pass over the pending files sends only to other stages, so what is unread for the worker is kept |
| Relay.FollowUpsLeaveReceiver | worker_automation.py:177-194 | the routines' follow-up notices never go to the worker that ran them |
| Session.Note | worker_session_automation.py:303-315 | a line without progress changes no progress sequence and nothing but the log it lands in |
| Session.NoteAt | worker_session_automation.py:303-315 | a progress line lands in `<w>/<w>_log.txt` from the start directory, and as written in `<w>/<w>/<w>_log.txt` from inside the worker's directory |
| Session.Send | worker_session_automation.py:265-278 | a send succeeds iff the process is in its start directory, and then appends exactly the record; from inside the worker's directory it raises and the store is untouched |
| Session.CommandReportRecords | worker_session_automation.py:103-109 | the command artifact records the task name, command, exit code (readable back), stdout and stderr |
| Session.ScriptReportRecords | worker_session_automation.py:143-149 | the script artifact records the temporary script name, exit code, stdout and stderr |
| Session.Recover | worker_session_automation.py:116-119 | a mode's handler re-raises the same error after returning to the start directory |
| Session.Finish | worker_session_automation.py:111-114 | a finished mode returns to the start directory; as written its 75 line goes to the nested log, corrected it goes to the worker's log |
| Session.RunCommandTask | worker_session_automation.py:87-119 | command mode finishes iff the command ran and its output was written; it raises that step's error otherwise, and ends in the start directory either way |
| Session.RunScriptTask | worker_session_automation.py:121-162 | script mode finishes iff the script write, the run and the output write succeed; the temporary file is removed on success and left behind on failure; it ends in the start directory either way |
| Session.RunGenericTask | worker_session_automation.py:164-187 | generic mode finishes iff its output write succeeds; as written a failure leaves the process inside the worker's directory, corrected it never does |
| Session.EnterFails | worker_session_automation.py:96-97 | a mode entered from inside the worker's directory raises at the relative `chdir` |
| Session.RunMode | worker_session_automation.py:72-77 | from the start directory the chosen mode finishes iff its steps succeed and otherwise raises its first error; only the as-written generic mode can leave the start directory |
| Session.ModesRestoreCwd | worker_session_automation.py:96-187 | command and script modes always return to the start directory; generic mode does so only on success as written, and always once corrected |
| Session.CompleteTask | worker_session_automation.py:189-205 | a successful move puts the file in completed, logs 100 and reports completion; a failed move is swallowed and changes neither the directories nor the store |
| Session.ReportError | worker_session_automation.py:82-85 | the error report is sent iff the process is in its start directory |
| Session.ProcessLoaded | worker_session_automation.py:71-85 | a finishing mode with a successful move completes the task; a failing mode that does not strand the process sends one error report and leaves the file pending |
| Session.ProgressChain | worker_session_automation.py:65-80 | the task's progress is 0, the mode's lines, then 100, in that order |
| Session.LoadFrom | worker_session_automation.py:60-62 | a task loads iff the process is in its start directory and the file exists and parses |
| Session.Started | worker_session_automation.py:64-69 | starting logs progress 0 and sends the start report before any mode runs |
| Session.ProcessTask | worker_session_automation.py:58-85 | a file that parses, finishes and moves yields start report, completion report, and progress 0, 25, 75, 100 split between the two logs; every other file stays pending; an unloadable file draws one error report |
| Session.ProcessTaskConserves | worker_session_automation.py:58-85 | processing a task neither invents nor loses a task file |
| Session.FailedTaskIsReported | worker_session_automation.py:82-85 | a task whose mode fails without stranding the process gets a start report then an error report carrying the mode's error, and stays pending |
| Session.FailedMoveKeepsPending | worker_session_automation.py:193-205 | a task whose move fails gets only its start report and stays pending |
| Session.ProcessAll | worker_session_automation.py:53-54 | a scan neither invents nor loses a task file, and once corrected it never raises when started from the start directory |
| Session.CheckPendingTasks | worker_session_automation.py:47-56 | a pending-task check neither invents nor loses a task file; from inside the worker's directory it finds nothing and changes nothing |
| Session.ProcessAllKeepsOthers | worker_session_automation.py:53-54 | a file not in the scanned list is left exactly where it was |
| Session.CorrectedSettlesEachFile | worker_session_automation.py:53-54 | once corrected, each scanned file leaves pending iff it can complete, and then sits in completed with its contents |
| Session.CorrectedCheckSettles | worker_session_automation.py:47-56 | once corrected, a check completes every pending `.json` file that can complete and leaves every other file pending |
| Session.StopInAnyCase | worker_session_automation.py:214-217 | a subject stops the worker iff it contains `停止` or `stop` in any case; stop takes precedence over retry |
| Session.HandleMessage | worker_session_automation.py:210-220 | a message asks for a stop iff its subject is a stop command; a retry runs the pending-task check after logging; anything else changes neither the directories nor the store; anything it sends goes to the manager |
| Session.RetryRescans | worker_session_automation.py:217-220 | once corrected and from the start directory, a retry command completes every pending `.json` file that can complete and keeps every other file pending |
| Session.HandleAll | worker_session_automation.py:210-220 | a batch asks for a stop iff some message in it does; later messages are still handled; anything it sends goes to the manager |
| Session.HandleAllSplit | worker_session_automation.py:210-220 | handling a batch in two parts is handling it at once |
| Session.CheckMessages | worker_session_automation.py:207-220 | from inside the worker's directory the check raises; otherwise it stops iff an unread message for the worker is a stop command, and afterwards nothing is unread for the worker |
| Session.Tick | worker_session_automation.py:232-245 | an iteration neither invents nor loses a task file; it stops iff the message check is due, it does not raise, and an unread stop command for the worker was in the store; a due check leaves nothing unread for the worker, and otherwise the unread messages are kept; a crash comes only from a due message check; once corrected it never crashes |
| Session.Run | worker_session_automation.py:222-245 | the loop runs every tick unless a stop or a crash ends it first; it stops only when the store held an unread stop command for the worker; once corrected it never crashes |
| Session.RunStopsOnCommand | worker_session_automation.py:214-216 | once corrected and from the start directory, an unread stop command ends the run at the first tick, when that tick's message check is due |
| Session.ProcessAllReportsOnly | worker_session_automation.py:47-56 | a pass over the pending files only adds records addressed to the manager to the store |
| Session.ReportsKeepUnread | worker_communication.py:36-38 | records sent to the manager leave unchanged what is unread for the worker, since a read keeps only records addressed to the reader |
| Session.FirstTickRunsBoth | worker_session_automation.py:227-243 | the first iteration checks tasks, then messages |
| Session.TickDoesWhatIsDue | worker_session_automation.py:235-243 | on any iteration: with neither check due nothing happens; once corrected and from the start directory, a due task check over a complete listing ends the iteration with every ready `.json` file completed with its contents, and, when the message check is not due too, with every other file still pending |
| Session.SeventyFiveStrays | worker_session_automation.py:111 | as written, a completed task's worker log shows 0, 25, 100 and its 75 line lands in the nested log |
| Session.SeventyFiveReachesLog | worker_session_automation.py:111 | corrected, a completed task's worker log shows 0, 25, 75, 100 |
| Session.GenericFailureStrands | worker_session_automation.py:171-187 | as written, a failed generic output write leaves the process in the worker's directory with only the start report sent; later task checks find nothing and the next message check raises |
| Session.GenericFailureReported | worker_session_automation.py:171-187 | corrected, the same task draws an error report, stays pending, and the process stays in its start directory |
| Session.StrandedRunCrashes | worker_session_automation.py:232-243 | a stranded process ends its loop at the first due message check, with nothing moved |
| Manager.ManagerLogIsSeparate | manager_automation.py:251 | the manager's log file is not any worker's log file |
| Manager.ClassifyInAnyCase | manager_automation.py:48-53 | a subject is a completion iff it contains `完了`; it is an error report iff it does not and it contains `エラー` or `error` in any case |
| Manager.OnlyFinalReportChecksOutput | manager_automation.py:60-62 | the output folder is checked iff the sender is worker3 and the subject contains `レポート生成完了` |
| Manager.RetryableInAnyCase | manager_automation.py:73 | a body is retryable iff it contains `timeout` or `connection` in any case |
| Manager.Replies | manager_automation.py:64-76 | a message draws exactly one high-priority `リトライ指示` back to its sender iff it is an error report with a retryable body, and nothing otherwise |
| Manager.AllReplies | manager_automation.py:44-53 | a batch draws only retry instructions, each for a retryable error report, and one for every such report; a single message draws exactly its own replies |
| Manager.AllRepliesConcat | manager_automation.py:44-53 | the replies to a batch are the replies to its parts, in message order, so each retryable error report draws exactly one instruction |
| Manager.CheckOutputFolder | manager_automation.py:91-97 | checking the output folder logs something iff the folder holds a file |
| Manager.HandleCompletion | manager_automation.py:55-62 | a completion checks the output folder iff it is worker3's final report, and sends nothing |
| Manager.HandleError | manager_automation.py:64-68 | an error report's only effect on the store is its reply |
| Manager.HandleMessage | manager_automation.py:44-53 | a message's effect on the store is its reply, and it checks the output folder iff it is the final report |
| Manager.HandleAll | manager_automation.py:44-53 | a batch's effect on the store is its replies in order, and it checks the folder once per final report |
| Manager.CheckMessages | manager_automation.py:41-53 | the store ends as the manager's messages marked read followed by the replies to the unread ones |
| Manager.Staleness | manager_automation.py:80-89 | a worker is stale iff its log exists and more than 300 s have elapsed; the reported minutes are whole minutes elapsed, at least 5 |
| Manager.Warnings | manager_automation.py:80-89 | a warning is logged exactly for each stale worker, with its minutes; a single worker draws exactly its own warning or none |
| Manager.WarningsConcat | manager_automation.py:80-89 | warnings distribute over concatenation of the worker list, so there is one line per stale worker, in worker order |
| Manager.CheckWorkerStatus | manager_automation.py:78-89 | a status check appends exactly the warnings for worker1 to worker3 and changes nothing else |
| Manager.TaskFileNameIsJson | manager_automation.py:101 | the task file name ends in `.json`, so the receiving worker's scan will list it |
| Manager.Distribute | manager_automation.py:99-107 | distribution succeeds iff the target's pending directory exists; then the task is written under `task_<stamp>.json`, every other file and worker is untouched, and one high-priority `新規タスク` goes to the target; otherwise nothing changes |
| Manager.DistributeCounts | manager_automation.py:101-103 | a distribution adds one pending `.json` file unless a file of the same name exists, and leaves completed alone |
| Manager.SameSecondSameFile | manager_automation.py:101-103 | two distributions to one worker in the same second share one file, and the second task wins |
| Manager.Deliver | manager_automation.py:132-134 | a sample task is delivered iff it names a worker whose directory exists; it is written without its `worker` key and no other worker is touched |
| Manager.DistributeEach | manager_automation.py:132-134 | the loop completes iff every task names an existing worker; when every task names one, a failure is the missing-directory error; a worker no task names is untouched |
| Manager.EachTaskReachesItsWorker | manager_automation.py:132-134 | when each task names a distinct existing worker, each lands in its worker's pending directory without the `worker` key |
| Manager.SampleWorkers | manager_automation.py:111-130 | the sample tasks name worker1, worker2 and worker3 in that order |
| Manager.SampleModes | manager_automation.py:111-130 | the samples are a command task, a script task and a command task |
| Manager.CreateSampleTasks | manager_automation.py:109-134 | seeding succeeds iff all three workers' directories exist, and otherwise raises a missing-file error |
| Manager.SampleTasksReachTheirWorkers | manager_automation.py:109-134 | with all directories present, each worker gets its own sample task without the `worker` key |
| Manager.EnsureDirectories | manager_automation.py:23-27 | afterwards every worker has directories; existing ones are kept as they were and new ones are empty |
| Manager.EnsureEach | manager_automation.py:25-27 | every listed worker has directories, existing ones are kept, new ones are empty, and no other worker is added |
| Manager.ReportLines | manager_automation.py:138-147 | the report is the header, the time line, an empty line, then one `Pending=p, Completed=c` line per worker in order |
| Manager.StatusReport | manager_automation.py:136-154 | the report is logged first; the file `status_report_<stamp>.txt` is written iff the output folder accepts it, and otherwise the write's error is raised |
| Manager.NoNewlineInDigits | manager_automation.py:147 | a rendered count holds no newline |
| Manager.ReportReadsBack | manager_automation.py:149-154 | splitting the written report at newlines gives back its lines |
| Manager.ReportCountsFollowMove | manager_automation.py:145-146 | when a worker completes a task, its pending count drops by one and its completed count rises by one; other workers' counts are unchanged |
| Manager.Periodic | manager_automation.py:177-190 | the periodic part of an iteration raises iff the report is due and the output folder rejects it |
| Manager.PeriodicStore | manager_automation.py:178-180 | a due message check marks the manager's records read and appends the replies; otherwise the store is untouched |
| Manager.PeriodicLog | manager_automation.py:183-190 | a due status check logs the staleness warnings, followed only by the report line when the report is due too; a due report line is the last log line |
| Manager.PeriodicOutput | manager_automation.py:188-190 | a due, writable report is put in the output folder with its other files kept; a report that is not due leaves the folder alone; with nothing due nothing changes |
| Manager.Tick | manager_automation.py:169-192 | samples are seeded once, on the first iteration after time 5; with all directories present an iteration raises iff the report is due and cannot be written |
| Manager.TickRunsWhatIsDue | manager_automation.py:172-190 | the periodic activities an iteration runs are exactly those with `now - last >= interval` for 20, 60 and 180 s, after the seeding when it happens |
| Manager.Run | manager_automation.py:156-192 | only an exception ends the loop early; samples are seeded at most once; with all directories present and a writable output folder every tick runs |
| Manager.FirstTickRunsEverything | manager_automation.py:162-190 | the first iteration seeds the samples, then checks messages, then worker status, then writes the report |
| Pipeline.FinalHopChecksOutput | worker_automation.py:159-161 | worker3's hop is one message to the manager, and it makes the manager check the output folder |
| Pipeline.EarlierHopsAreCompletions | worker_automation.py:153-158 | the earlier hops classify as completions but do not trigger the output check |
| Pipeline.SessionReportsClassified | worker_session_automation.py:84 | a session worker's completion report is a completion for the manager; its error report is an error report unless the file name contains `完了` |
| Pipeline.RetryInstructionIsRetryCommand | manager_automation.py:75 | the manager's `リトライ指示` is a retry command, not a stop, for a session worker |
| Pipeline.TransientFailureIsRetried | manager_automation.py:73-76 | a session task failing with a timeout or connection error draws exactly one retry instruction, and its subject is a retry command for the worker |
| Pipeline.TransientFailureIsRescanned | worker_session_automation.py:217-220 | once corrected, a worker in its start directory that handles the manager's reply to a transient failure completes every pending `.json` file that can now complete and keeps every other file pending |
| Pipeline.NewTaskNoticeIsOnlyLogged | manager_automation.py:106-107 | a `新規タスク` notice makes a relay worker only log it and a session worker ignore it |

## Left out

- Subprocesses (`subprocess.run`, the shell, `sys.executable`): their exit code, captured output, or the exception they raise are inputs (`Tasks.Run`).
- File contents and JSON encoding: a task is a map from string keys to string values, and a store or task file is parsed or unparsable. Non-string JSON values are not modelled.
- Clocks and sleeps: `time.time()` is whole seconds, each `strftime` rendering is a string input, and `time.sleep` is omitted.
- Directory listings: their order is an input (`World.enumerate`). Lemmas that need each file listed once take that as a precondition.
- Concurrent writers: two processes that rewrite the shared store at once can lose an update. The model has one writer at a time.
- Startup and shutdown: the workers' constructors' initial log lines and `makedirs` calls (the model starts with the workers' directories in place; the manager's `ensure_directories` is modelled), `read_instructions`, console printing, `stop()`, and each script's `__main__` launcher.
- Message records always carry every field. A record missing `to` or `subject` raises `KeyError` in the scripts; the model does not represent one.
- Output folder: the listing in `check_output_folder` is reduced to whether the folder is empty. The bodies of relay reports are not modelled.
- Strings.Lower: ASCII case folding only. Python's `lower()` is full Unicode, so a non-ASCII character that lowers to an ASCII letter (the Kelvin sign, for one) is not matched.
- Cli.Invoke: the progress operand accepts only an optional sign and ASCII digits. The surrounding blanks and `_` separators that Python's `int()` also accepts are treated as rejected.
- Session.EnterFails: assumes that from inside the worker's directory the relative `chdir` fails. That holds while `<w>/<w>` is absent; once a stray log line has created it, the `chdir` would succeed. The path is never reached from `process_task`, because the relative task-file open fails first.
- Session.Run: the run functions take no store input between iterations, so no other participant writes to the store during a run. "Stops only on an unread stop command in the store" refers to the store at the start of the run.
- Manager.Run: like `Session.Run` and `Relay.Tick`, it sees no store writes by other participants between iterations.
- Manager.Tick: assumes the manager's own store and log writes succeed. The only failures it models are a missing worker directory when seeding and the status report's write.
- Manager.Staleness: elapsed time is in whole seconds. `int(elapsed/60)` equals floor division for the non-negative elapsed times that reach it.

## Behaviour worth knowing


- Script mode removes the temporary script only on the normal path, in both workers: a run that raises leaves the file behind.
- On POSIX, `Path.rename` and `shutil.move` replace a completed file of the same name without error (`Tasks.Move`).
- The relay worker's modes never change directory; they pass `cwd=` to the subprocess. The session worker's generic mode has no handler to restore the directory (see Findings).
- The relay worker's generic mode writes no acknowledgement file. Only the session worker's does.
- None of the four scripts creates `output/`; the relay worker and the manager both write into it without `makedirs`, so the folder must be created from outside these scripts. `Manager.StatusReport` and `Manager.Tick` carry that as the output folder's write outcome.
- `Path.glob` over a missing directory yields nothing. A missing worker directory therefore counts 0 in the status report.
- `current_time > 5` holds on the first iteration of any real run, so the samples are seeded then.

## Findings

| source | as written | input that shows it | evidently intended | confidence | as-written member | corrected member |
|---|---|---|---|---|---|---|
| worker_session_automation.py:111 | The 75 progress line (also at :154 and :184) is logged before the `chdir` back. The relative log path therefore resolves to `<w>/<w>/<w>_log.txt`, and the worker's log shows 0, 25, 100. | any task file that parses, whose mode finishes and whose move succeeds, processed from the start directory | every progress line in `<w>/<w>_log.txt`: 0, 25, 75, 100 | high; not executed | Session.SeventyFiveStrays | Session.SeventyFiveReachesLog |
| worker_session_automation.py:171-187 | Generic mode changes into the worker's directory with no handler. A failed output write leaves the process there: the error report's send raises, later task scans find nothing, and the next message check raises out of `run`. | a task with neither `command` nor `script` whose output file cannot be written | restore the directory on the exception path, as the other two modes do, then report the error and keep polling | high; not executed | Session.GenericFailureStrands | Session.GenericFailureReported |
| worker_automation.py:116-126 | Script mode writes `<w>/temp_script.py` from the start directory, then runs the interpreter on that same relative path with `cwd=<w>`. The interpreter looks for `<w>/<w>/temp_script.py` and exits non-zero without running the script. | any task with a `script` field at any relay worker | hand the interpreter `temp_script.py`, the path relative to its working directory, as the session worker does | high; not executed | Relay.InterpreterMissesScript | Relay.InterpreterFindsScript |
