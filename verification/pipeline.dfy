/** How the participants' messages meet: the subjects one script sends are the
    ones another script's routing tables look for. Each lemma follows one kind of
    message from the sender's model to the receiver's. */
module Pipeline {
  import opened Strings
  import opened Communication
  import opened Tasks
  import Relay
  import Session
  import Manager

  /** The relay's last hop is the one the manager waits for: worker3's notice
      reaches the manager and makes it check the output folder. */
  lemma FinalHopChecksOutput(t: Task, ts: string)
    ensures var ms := Relay.HopMessages(Relay.Worker3, t, ts);
      |ms| == 1 && ms[0].to == Manager.ManagerName && Manager.ChecksOutput(ms[0])
  {
    var m := Relay.HopMessages(Relay.Worker3, t, ts)[0];
    assert m.subject == Manager.FinalReportWord + "" + "";
    ContainsInfix("", Manager.FinalReportWord, "");
    Manager.OnlyFinalReportChecksOutput(m);
  }

  /** The earlier hops are completions too, but not from worker3, so a manager
      that received one would log it and not check the output folder. */
  lemma EarlierHopsAreCompletions(t: Task, ts: string)
    ensures var ms := Relay.HopMessages(Relay.Worker1, t, ts) + Relay.HopMessages(Relay.Worker2, t, ts);
      |ms| == 2
      && forall k :: 0 <= k < 2 ==> Manager.Classify(ms[k].subject).Completion? && !Manager.ChecksOutput(ms[k])
  {
    assert Relay.DataReady == "データ準備" + Manager.CompletionWord + "";
    ContainsInfix("データ準備", Manager.CompletionWord, "");
    assert Relay.Processed == "処理" + Manager.CompletionWord + "";
    ContainsInfix("処理", Manager.CompletionWord, "");
  }

  /** A session worker's completion report is a completion for the manager; its
      error report is an error report unless the file name itself contains the
      completion word, which takes precedence. */
  lemma SessionReportsClassified(ts: string, worker: string, name: string, file: string, e: string)
    ensures Manager.Classify(Session.DoneMessage(ts, worker, name).subject).Completion?
    ensures var subject := Session.ErrorMessage(ts, worker, file, e).subject;
      Manager.Classify(subject).ErrorReport? <==> !Contains(Manager.CompletionWord, subject)
  {
    assert Session.DoneSubject + name == "タスク" + Manager.CompletionWord + (": " + name);
    ContainsInfix("タスク", Manager.CompletionWord, ": " + name);
    assert Session.ErrorSubject + file == "タスク" + Manager.ErrorWord + (": " + file);
    ContainsInfix("タスク", Manager.ErrorWord, ": " + file);
  }

  /** The manager's retry instruction is a retry command for a session worker:
      it holds the retry word and neither stop word. */
  lemma RetryInstructionIsRetryCommand()
    ensures Session.CommandIn(Manager.RetrySubject) == Session.Retry
  {
    var subject := Manager.RetrySubject;
    MissingFirstChar(Session.StopWord, subject);
    assert forall i :: 0 <= i < |subject| ==> Lower(subject)[i] == subject[i];
    MissingFirstChar(Session.StopWordLatin, Lower(subject));
    assert subject == "" + Session.RetryWord + "指示";
    ContainsInfix("", Session.RetryWord, "指示");
  }

  /** The exception text of a failed session task ends its error report's body,
      so a timeout or connection failure there draws a retry instruction, which
      in turn makes the worker scan its pending tasks again. */
  lemma TransientFailureIsRetried(ts: string, worker: string, file: string, e: string, later: string)
    requires Contains(Manager.TimeoutWord, Lower(e)) || Contains(Manager.ConnectionWord, Lower(e))
    requires !Contains(Manager.CompletionWord, Session.ErrorSubject + file)
    ensures var m := Session.ErrorMessage(ts, worker, file, e);
      var replies := Manager.Replies(m, later, Manager.ManagerName);
      && replies == [Manager.RetryInstruction(later, Manager.ManagerName, worker)]
      && Session.CommandIn(replies[0].subject) == Session.Retry
  {
    var body := Session.ErrorBody + e;
    var low := Lower(body);
    var k := |Session.ErrorBody|;
    LowerSlice(body, 0, k);
    LowerSlice(body, k, |body|);
    assert body[k..] == e;
    assert low == low[..k] + Lower(e) + "";
    if Contains(Manager.TimeoutWord, Lower(e)) {
      ContainsWidened(Manager.TimeoutWord, low[..k], Lower(e), "");
    } else {
      ContainsWidened(Manager.ConnectionWord, low[..k], Lower(e), "");
    }
    SessionReportsClassified(ts, worker, "", file, e);
    RetryInstructionIsRetryCommand();
  }

  /** The retry closes the loop: a session worker in its start directory that
      receives the manager's reply to a transient failure rescans its pending
      directory, and once corrected every pending `.json` file that can now
      complete moves to completed, while every other file stays pending. */
  lemma TransientFailureIsRescanned(ts: string, file: string, e: string, later: string, s: Session.SessionWorker, world: World)
    requires Contains(Manager.TimeoutWord, Lower(e)) || Contains(Manager.ConnectionWord, Lower(e))
    requires !Contains(Manager.CompletionWord, Session.ErrorSubject + file)
    requires s.cwd == Session.Start && Enumerates(world.enumerate(s.dirs.pending), s.dirs.pending)
    ensures var replies := Manager.Replies(Session.ErrorMessage(ts, s.Name(), file, e), later, Manager.ManagerName);
      && |replies| == 1
      && var h := Session.HandleMessage(Session.Corrected, s, replies[0], world);
         forall f :: f in s.dirs.pending ==>
           && (f in h.s.dirs.pending <==> !(IsJsonName(f) && Session.Ready(s.dirs.pending, f, world)))
           && (IsJsonName(f) && Session.Ready(s.dirs.pending, f, world) ==>
                 f in h.s.dirs.completed && h.s.dirs.completed[f] == s.dirs.pending[f])
  {
    TransientFailureIsRetried(ts, s.Name(), file, e, later);
    var reply := Manager.RetryInstruction(later, Manager.ManagerName, s.Name());
    Session.RetryRescans(s, reply, world);
  }

  /** A new-task notice asks nothing of its receiver: a relay worker only logs
      it, and a session worker ignores it, so either picks the task up on its
      next scan of the pending directory. */
  lemma NewTaskNoticeIsOnlyLogged(ts: string, to: string, task: Task)
    ensures Relay.ReactionTo(to, Manager.NewTaskNotice(ts, Manager.ManagerName, to, task)) == Relay.LogOnly
    ensures Session.CommandIn(Manager.NewTaskSubject) == Session.Ignore
  {
    var subject := Manager.NewTaskSubject;
    MissingFirstChar(Session.StopWord, subject);
    assert forall i :: 0 <= i < |subject| ==> Lower(subject)[i] == subject[i];
    MissingFirstChar(Session.StopWordLatin, Lower(subject));
    MissingFirstChar(Session.RetryWord, subject);
  }
}
