/** The `WorkerCommunication` class that all four programs carry a copy of: one
    shared message store (a sequence of message records, read and rewritten as a
    whole) and one append-only activity log per participant. */
module Communication {
  import opened Strings

  const Low := "low"
  const Medium := "medium"
  const High := "high"

  /** One record of the store. `read` is `None` for a record that has no "read"
      key at all, which `msg.get("read", True)` treats as already read. */
  datatype Message = Message(
    timestamp: string,
    sender: string,
    to: string,
    subject: string,
    body: string,
    priority: string,
    read: Option<bool>)
  {
    /** The filter of `read_messages_for_me`: `to == me and not msg.get("read", True)`. */
    predicate IsUnreadFor(name: string)
    {
      to == name && read == Some(false)
    }

    /** The marking loop of `read_messages_for_me`: every record addressed to
        `name` gets `read = True`, whatever it held before. */
    function MarkedBy(name: string): Message
    {
      if to == name then this.(read := Some(true)) else this
    }
  }

  /** The store file: absent, present but not parsable as JSON, or a list of records. */
  datatype StoreFile = Missing | Unparsable | Stored(messages: seq<Message>)

  /** `read_all_messages`: a missing or unparsable store reads as empty. */
  function Contents(f: StoreFile): seq<Message>
  {
    if f.Stored? then f.messages else []
  }

  /** `ensure_communication_dir`: creates an empty store when none exists and
      leaves an existing file, parsable or not, alone. */
  function Ensure(f: StoreFile): (r: StoreFile)
    ensures Contents(r) == Contents(f)
    ensures !r.Missing?
    ensures f.Missing? || r == f
  {
    if f.Missing? then Stored([]) else f
  }

  /** Read the whole store, append one record, write the whole store back. */
  function Append(f: StoreFile, m: Message): (r: StoreFile)
    ensures r.Stored?
    ensures |Contents(r)| == |Contents(f)| + 1
    ensures Contents(r)[..|Contents(f)|] == Contents(f)
    ensures Contents(r)[|Contents(f)|] == m
    ensures !f.Stored? ==> r == Stored([m])
  {
    Stored(Contents(f) + [m])
  }

  /** The records `read_messages_for_me` returns: unread and addressed to `name`,
      in store order. */
  function Unread(ms: seq<Message>, name: string): (r: seq<Message>)
    ensures forall m :: m in r <==> m in ms && m.IsUnreadFor(name)
    ensures |r| <= |ms|
  {
    if |ms| == 0 then []
    else if ms[0].IsUnreadFor(name) then [ms[0]] + Unread(ms[1..], name)
    else Unread(ms[1..], name)
  }

  /** The records of `ms` addressed to `name`, in order, whatever their flag. */
  function AddressedTo(ms: seq<Message>, name: string): (r: seq<Message>)
    ensures forall m :: m in r <==> m in ms && m.to == name
  {
    if |ms| == 0 then []
    else if ms[0].to == name then [ms[0]] + AddressedTo(ms[1..], name)
    else AddressedTo(ms[1..], name)
  }

  lemma {:induction false} UnreadConcat(a: seq<Message>, b: seq<Message>, name: string)
    ensures Unread(a + b, name) == Unread(a, name) + Unread(b, name)
    decreases |a|
  {
    if |a| > 0 {
      assert (a + b)[0] == a[0];
      assert (a + b)[1..] == a[1..] + b;
      UnreadConcat(a[1..], b, name);
      if a[0].IsUnreadFor(name) {
        calc {
          Unread(a + b, name);
          [a[0]] + Unread(a[1..] + b, name);
          [a[0]] + (Unread(a[1..], name) + Unread(b, name));
          ([a[0]] + Unread(a[1..], name)) + Unread(b, name);
        }
      }
    } else {
      assert a + b == b;
    }
  }

  /** Among freshly sent records (all unread) the unread ones for `name` are
      exactly the ones addressed to `name`. */
  lemma {:induction false} UnreadOfLater(later: seq<Message>, name: string)
    requires forall m :: m in later ==> m.read == Some(false)
    ensures Unread(later, name) == AddressedTo(later, name)
    decreases |later|
  {
    if |later| > 0 {
      assert later[0] in later;
      assert forall m :: m in later[1..] ==> m in later;
      UnreadOfLater(later[1..], name);
    }
  }

  /** The store after `read_messages_for_me`: same length, same order, every
      record addressed to `name` flagged read and every other record untouched. */
  function MarkRead(ms: seq<Message>, name: string): (r: seq<Message>)
    ensures |r| == |ms|
    ensures forall i :: 0 <= i < |ms| && ms[i].to != name ==> r[i] == ms[i]
    ensures forall i :: 0 <= i < |ms| && ms[i].to == name ==>
              r[i] == ms[i].(read := Some(true))
  {
    seq(|ms|, i requires 0 <= i < |ms| => ms[i].MarkedBy(name))
  }

  /** After marking, nothing is left unread for `name`. */
  lemma {:induction false} NothingUnreadAfterMark(ms: seq<Message>, name: string)
    ensures Unread(MarkRead(ms, name), name) == []
    decreases |ms|
  {
    if |ms| > 0 {
      var marked := MarkRead(ms, name);
      assert !marked[0].IsUnreadFor(name);
      assert marked[1..] == MarkRead(ms[1..], name);
      NothingUnreadAfterMark(ms[1..], name);
    }
  }

  /** One entry of a participant's activity log; the timestamp is added when the
      line is formatted. */
  datatype LogEntry = LogEntry(activity: string, progress: Option<int>)

  /** A participant's handle on the shared store and on its own log: the state
      a `WorkerCommunication(owner)` object reads and writes. */
  datatype Channel = Channel(owner: string, store: StoreFile, log: seq<LogEntry>)
  {
    /** `send_message`: one new unread record from `owner`, appended at the end;
        the priority defaults to "medium". */
    function Send(ts: string, to: string, subject: string, body: string, priority: string := Medium): (c: Channel)
      ensures c.owner == owner && c.log == log
      ensures c.store.Stored?
      ensures |Contents(c.store)| == |Contents(store)| + 1
      ensures Contents(c.store)[..|Contents(store)|] == Contents(store)
      ensures Contents(c.store)[|Contents(store)|] == Message(ts, owner, to, subject, body, priority, Some(false))
      ensures Contents(c.store) == Contents(store) + [Message(ts, owner, to, subject, body, priority, Some(false))]
    {
      this.(store := Append(store, Message(ts, owner, to, subject, body, priority, Some(false))))
    }

    /** `log_activity(activity)`. */
    function Log(activity: string): (c: Channel)
      ensures c.owner == owner && c.store == store
      ensures log <= c.log && c.log[|log|..] == [LogEntry(activity, None)]
      ensures Progresses(c.log) == Progresses(log)
    {
      ProgressesConcat(log, [LogEntry(activity, None)]);
      this.(log := log + [LogEntry(activity, None)])
    }

    /** `log_activity(activity, progress)`. */
    function LogAt(activity: string, progress: int): (c: Channel)
      ensures c.owner == owner && c.store == store
      ensures log <= c.log && c.log[|log|..] == [LogEntry(activity, Some(progress))]
      ensures Progresses(c.log) == Progresses(log) + [progress]
    {
      ProgressesConcat(log, [LogEntry(activity, Some(progress))]);
      this.(log := log + [LogEntry(activity, Some(progress))])
    }

    /** `read_messages_for_me`: returns the unread records addressed to `owner`
        and writes the store back with every record addressed to `owner` flagged
        read. An unreadable store yields nothing and is overwritten with `[]`. */
    function ReadMine(): (r: (seq<Message>, Channel))
      ensures r.0 == Unread(Contents(store), owner)
      ensures r.1 == this.(store := Stored(MarkRead(Contents(store), owner)))
      ensures !store.Stored? ==> r.0 == [] && r.1.store == Stored([])
    {
      var ms := Contents(store);
      (Unread(ms, owner), this.(store := Stored(MarkRead(ms, owner))))
    }
  }

  /** A second read with no send in between returns nothing. */
  lemma ReadTwiceYieldsNothing(c: Channel)
    ensures c.ReadMine().1.ReadMine().0 == []
  {
    NothingUnreadAfterMark(Contents(c.store), c.owner);
  }

  /** Delivery happens once: if records `later` are appended after a read, the
      next read returns exactly those of them addressed to the reader, in the
      order they were sent, and none of the records seen by the first read. */
  lemma NextReadReturnsOnlyLaterSends(c: Channel, later: seq<Message>)
    requires forall m :: m in later ==> m.read == Some(false)
    ensures
      var after := c.ReadMine().1;
      after.(store := Stored(Contents(after.store) + later)).ReadMine().0 == AddressedTo(later, c.owner)
  {
    var marked := MarkRead(Contents(c.store), c.owner);
    UnreadConcat(marked, later, c.owner);
    NothingUnreadAfterMark(Contents(c.store), c.owner);
    UnreadOfLater(later, c.owner);
  }

  /** A message sent to `to` is in the very next read `to` makes. */
  lemma SentMessageIsRead(c: Channel, ts: string, to: string, subject: string, body: string, priority: string)
    ensures
      var sent := c.Send(ts, to, subject, body, priority);
      Message(ts, c.owner, to, subject, body, priority, Some(false)) in
        sent.(owner := to).ReadMine().0
  {
    var m := Message(ts, c.owner, to, subject, body, priority, Some(false));
    var sent := c.Send(ts, to, subject, body, priority);
    assert Contents(sent.store) == Contents(c.store) + [m];
    assert m in Contents(sent.store);
  }

  // ----- log lines -----------------------------------------------------------

  const ProgressOpen := " (Progress: "
  const ProgressClose := "%)"

  function ProgressSuffix(p: Option<int>): string
  {
    match p
    case None => ""
    case Some(n) => ProgressOpen + IntToString(n) + ProgressClose
  }

  /** The text `log_activity` appends: `[ts] activity`, followed by
      ` (Progress: n%)` only when a progress value is given. */
  function LogLine(ts: string, e: LogEntry): string
  {
    "[" + ts + "] " + e.activity + ProgressSuffix(e.progress)
  }

  /** Reads back what follows the activity text of a log line: `Some(None)` for
      nothing, `Some(Some(n))` for a progress suffix, `None` for anything else. */
  function ReadProgressSuffix(t: string): Option<Option<int>>
  {
    if t == "" then Some(None)
    else if |t| >= |ProgressOpen| + |ProgressClose|
         && t[..|ProgressOpen|] == ProgressOpen
         && t[|t| - |ProgressClose|..] == ProgressClose then
      match ParseInt(t[|ProgressOpen|..|t| - |ProgressClose|])
      case Some(n) => Some(Some(n))
      case None => None
    else None
  }

  /** A formatted log line starts with the bracketed timestamp and the activity,
      and what follows reads back as exactly the progress value given. */
  lemma LogLineRoundTrip(ts: string, e: LogEntry)
    ensures
      var head := "[" + ts + "] " + e.activity;
      var line := LogLine(ts, e);
      |head| <= |line| && line[..|head|] == head
      && ReadProgressSuffix(line[|head|..]) == Some(e.progress)
  {
    var head := "[" + ts + "] " + e.activity;
    var line := LogLine(ts, e);
    assert line[|head|..] == ProgressSuffix(e.progress);
    match e.progress
    case None =>
    case Some(n) =>
      var t := ProgressSuffix(e.progress);
      assert t[|ProgressOpen|..|t| - |ProgressClose|] == IntToString(n);
      ParseIntRoundTrip(n);
  }

  /** The log file of a participant: `<name>/<name>_log.txt` in the shared copy
      and the workers' copies, `manager_log.txt` in the manager's copy. */
  function LogPath(owner: string, managerCopy: bool): string
  {
    if managerCopy then "manager_log.txt" else owner + "/" + owner + "_log.txt"
  }

  /** Two participants using the shared copy never write the same log file. */
  lemma LogPathsDistinct(a: string, b: string)
    requires a != b
    ensures LogPath(a, false) != LogPath(b, false)
  {
    var pa, pb := LogPath(a, false), LogPath(b, false);
    if |a| == |b| {
      assert pa[..|a|] == a;
      assert pb[..|b|] == b;
    } else {
      assert |pa| != |pb|;
    }
  }

  // ----- progress values -----------------------------------------------------

  /** The progress values of a log, in order. */
  function Progresses(log: seq<LogEntry>): seq<int>
  {
    if |log| == 0 then []
    else (if log[0].progress.Some? then [log[0].progress.value] else []) + Progresses(log[1..])
  }

  lemma {:induction false} ProgressesConcat(a: seq<LogEntry>, b: seq<LogEntry>)
    ensures Progresses(a + b) == Progresses(a) + Progresses(b)
    decreases |a|
  {
    if |a| > 0 {
      assert (a + b)[0] == a[0];
      assert (a + b)[1..] == a[1..] + b;
      ProgressesConcat(a[1..], b);
      var head := if a[0].progress.Some? then [a[0].progress.value] else [];
      calc {
        Progresses(a + b);
        head + Progresses(a[1..] + b);
        head + (Progresses(a[1..]) + Progresses(b));
        (head + Progresses(a[1..])) + Progresses(b);
      }
    } else {
      assert a + b == b;
    }
  }

  predicate NonDecreasing(s: seq<int>)
  {
    forall i, j :: 0 <= i <= j < |s| ==> s[i] <= s[j]
  }

  /** Python's `range(lo, hi, step)` for a positive step. */
  function Range(lo: int, hi: int, step: int): (r: seq<int>)
    requires step > 0
    ensures forall i :: 0 <= i < |r| ==> lo <= r[i] < hi
    ensures |r| > 0 <==> lo < hi
    ensures |r| > 0 ==> r[0] == lo && hi - step <= r[|r| - 1]
    decreases hi - lo
  {
    if lo >= hi then [] else [lo] + Range(lo + step, hi, step)
  }

  /** The `i`-th value of `range(lo, hi, step)` is `lo + i * step`, and the
      values climb by `step`. */
  lemma {:induction false} RangeValues(lo: int, hi: int, step: int)
    requires step > 0
    ensures var r := Range(lo, hi, step);
      forall i :: 0 <= i < |r| ==> r[i] == lo + i * step
    decreases hi - lo
  {
    if lo < hi {
      RangeValues(lo + step, hi, step);
      var r := Range(lo, hi, step);
      forall i | 0 <= i < |r|
        ensures r[i] == lo + i * step
      {
        if i > 0 {
          assert r[i] == Range(lo + step, hi, step)[i - 1];
        }
      }
    }
  }

  /** A log that records the same activity once per value of `values`; its
      progress values are exactly `values`. */
  function LogEach(c: Channel, activity: string, values: seq<int>): (r: Channel)
    ensures r.owner == c.owner && r.store == c.store
    ensures c.log <= r.log && |r.log| == |c.log| + |values|
    ensures forall i :: 0 <= i < |values| ==> r.log[|c.log| + i] == LogEntry(activity, Some(values[i]))
    ensures Progresses(r.log) == Progresses(c.log) + values
    decreases |values|
  {
    if |values| == 0 then c
    else
      var c0 := c.LogAt(activity, values[0]);
      var r := LogEach(c0, activity, values[1..]);
      AppendChain(Progresses(c.log), Progresses(c0.log), Progresses(r.log), [values[0]], values[1..]);
      assert [values[0]] + values[1..] == values;
      r
  }

  /** A routine that logs progress 0 at `start`, each value of `steps` at
      `step`, and 100 at `done`. */
  function LogRoutine(c: Channel, start: string, step: string, steps: seq<int>, done: string): (r: Channel)
    ensures r.owner == c.owner && r.store == c.store
    ensures c.log <= r.log
    ensures Progresses(r.log) == Progresses(c.log) + ([0] + steps + [100])
  {
    var c0 := c.LogAt(start, 0);
    var c1 := LogEach(c0, step, steps);
    var c2 := c1.LogAt(done, 100);
    AppendChain(Progresses(c.log), Progresses(c0.log), Progresses(c1.log), [0], steps);
    AppendChain(Progresses(c.log), Progresses(c1.log), Progresses(c2.log), [0] + steps, [100]);
    c2
  }
}
