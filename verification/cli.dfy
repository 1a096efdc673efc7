/** The command-line client of worker_communication.py:
    `<worker_name> send <to> <subject> <message> [priority]`, `<worker_name> read`
    and `<worker_name> log <activity> [progress]`. `args` is the argument vector
    without the program name (`sys.argv[1:]`). */
module Cli {
  import opened Strings
  import opened Communication

  /** What one invocation leaves behind: its exit status, the store file, the
      records it printed, and the log entry it appended. */
  datatype Outcome = Outcome(exitCode: int, store: StoreFile, shown: seq<Message>, logged: Option<LogEntry>)

  /** The invocations that run to completion, stated independently of the order
      in which the client checks its arguments. */
  predicate Accepted(args: seq<string>)
  {
    && |args| >= 2
    && match args[1]
       case "send" => |args| >= 5
       case "read" => true
       case "log" => |args| >= 3 && (|args| == 3 || ParseInt(args[3]).Some?)
       case _ => false
  }

  function Usage(store: StoreFile): Outcome
  {
    Outcome(1, store, [], None)
  }

  /** One run of the client on the store `store` at time `ts`. A progress operand
      that `int()` rejects raises an uncaught `ValueError`, which also ends the
      process with status 1. */
  function Invoke(args: seq<string>, store: StoreFile, ts: string): (r: Outcome)
    ensures r.exitCode == 0 <==> Accepted(args)
    ensures r.exitCode != 0 ==> r.exitCode == 1 && r.shown == [] && r.logged == None
    ensures |args| == 0 ==> r.store == store
    ensures |args| > 0 && !Accepted(args) ==> r.store == Ensure(store)
    ensures Accepted(args) && args[1] == "send" ==>
              Contents(r.store) == Contents(store) + [Message(ts, args[0], args[2], args[3], args[4],
                                                              if |args| > 5 then args[5] else Medium, Some(false))]
    ensures Accepted(args) && args[1] == "read" ==>
              r.shown == Unread(Contents(store), args[0]) && r.store == Stored(MarkRead(Contents(store), args[0]))
    ensures Accepted(args) && args[1] == "log" ==>
              r.store == Ensure(store)
              && r.logged == Some(LogEntry(args[2], if |args| > 3 then ParseInt(args[3]) else None))
  {
    if |args| < 1 then Usage(store)
    else
      var comm := Channel(args[0], Ensure(store), []);
      if |args| < 2 then Usage(comm.store)
      else if args[1] == "send" then
        if |args| < 5 then Usage(comm.store)
        else
          var priority := if |args| > 5 then args[5] else Medium;
          var sent := comm.Send(ts, args[2], args[3], args[4], priority);
          Outcome(0, sent.store, [], None)
      else if args[1] == "read" then
        var (mine, after) := comm.ReadMine();
        Outcome(0, after.store, mine, None)
      else if args[1] == "log" then
        if |args| < 3 then Usage(comm.store)
        else if |args| > 3 then
          match ParseInt(args[3])
          case None => Usage(comm.store)
          case Some(p) => Outcome(0, comm.store, [], Some(LogEntry(args[2], Some(p))))
        else Outcome(0, comm.store, [], Some(LogEntry(args[2], None)))
      else Usage(comm.store)
  }
}
