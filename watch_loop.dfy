/**
 * watchDirectoryPath: the directory sanity check, the registration, and the
 * polling loop that takes one batch of events at a time, dispatches each
 * accepted create or modify event to the import script, and re-arms the key.
 * The operating system's notification service is replaced by its inputs: the
 * outcome of the sanity check, whether registration succeeds, the sequence
 * of poll results, and the behaviour of each child run.
 */
module WatchLoop {
  import opened PathFilter
  import opened Trace
  import opened ImpalaBridge

  const WatchingPrefix: string := "Watching path: "

  /** The event kinds the loop distinguishes. */
  datatype Kind = EntryCreate | EntryModify | Overflow

  /** One event of a batch: its kind and the entry name it reports. */
  datatype Event = Event(kind: Kind, name: string)

  /**
   * One result of waiting on the watch service: a batch of events together
   * with what re-arming the key afterwards reports, or an interruption of
   * the wait.
   */
  datatype Poll = Batch(events: seq<Event>, resetOk: bool) | Interrupted

  /** The three outcomes of the directory sanity check. */
  datatype FolderCheck =
    | Directory      // the path names a directory
    | NotDirectory   // it exists but is not a directory (a symbolic link included)
    | Unreadable     // reading its attributes failed, for instance because it is missing

  /** How a session ends. */
  datatype Exit =
    | Waiting         // the inputs ran out while the loop was still waiting for a batch
    | Stopped         // re-arming the key failed and the loop broke out
    | Interrupt       // the wait was interrupted; reported, then the method returns
    | RegisterFailed  // creating the watch service or registering failed; reported
    | NotAFolder      // the sanity check threw an exception that escapes to the caller

  /** The trace a session produced and how it ended. */
  datatype Outcome = Outcome(trace: seq<Entry>, exit: Exit)

  function Prepend(t: seq<Entry>, o: Outcome): Outcome
  {
    Outcome(t + o.trace, o.exit)
  }

  /** An event the loop acts on: a create or modify of a name that is not a swap file. */
  predicate Accepted(e: Event)
  {
    e.kind != Overflow && !IsSwpPath(e.name)
  }

  /** The log message for a create or modify event. */
  function Notice(e: Event): string
    requires e.kind != Overflow
  {
    (if e.kind == EntryCreate then CreatedPrefix else ModifiedPrefix) + e.name
  }

  /** The accepted events among the first `n` events of a batch, in delivery order. */
  function AcceptedEvents(events: seq<Event>, n: nat): (acc: seq<Event>)
    requires n <= |events|
    ensures |acc| <= n
    ensures forall e :: e in acc ==> e.kind != Overflow
  {
    if n == 0 then []
    else AcceptedEvents(events, n - 1) + (if Accepted(events[n - 1]) then [events[n - 1]] else [])
  }

  /** The notice messages of a sequence of create or modify events, in order. */
  function NoticesOf(events: seq<Event>): (ns: seq<string>)
    requires forall e :: e in events ==> e.kind != Overflow
    ensures |ns| == |events|
  {
    if events == [] then []
    else NoticesOf(events[..|events| - 1]) + [Notice(events[|events| - 1])]
  }

  /** What one event contributes: for an accepted one, its notice followed by one run of the script. */
  function EventTrace(e: Event, command: string, run: ChildRun): seq<Entry>
  {
    if Accepted(e) then [Info(Notice(e))] + BridgeTrace(command, run) else []
  }

  /** How far a batch has got: the trace so far and the number of script runs so far. */
  datatype Progress = Progress(trace: seq<Entry>, ran: nat)

  /**
   * The first `n` events of a batch, walked in delivery order. `runs(m)` is
   * how the m-th run of the script (counting from 0) behaves, and `k` runs
   * have happened before this batch.
   */
  function BatchTrace(events: seq<Event>, n: nat, command: string, runs: nat -> ChildRun, k: nat): Progress
    requires n <= |events|
  {
    if n == 0 then Progress([], k)
    else
      var p := BatchTrace(events, n - 1, command, runs, k);
      var e := events[n - 1];
      Progress(p.trace + EventTrace(e, command, runs(p.ran)), if Accepted(e) then p.ran + 1 else p.ran)
  }

  lemma PrependPrepend(a: seq<Entry>, b: seq<Entry>, o: Outcome)
    ensures Prepend(a, Prepend(b, o)) == Prepend(a + b, o)
  {
    assert a + (b + o.trace) == (a + b) + o.trace;
  }

  /**
   * The polling loop from the `j`-th poll result on, after `k` runs of the
   * script: the trace it adds and how it ends.
   */
  function Loop(polls: seq<Poll>, j: nat, command: string, runs: nat -> ChildRun, k: nat): Outcome
    requires j <= |polls|
    decreases |polls| - j
  {
    if j == |polls| then Outcome([], Waiting)
    else match polls[j]
      case Interrupted => Outcome([StackTrace], Interrupt)
      case Batch(events, resetOk) =>
        var p := BatchTrace(events, |events|, command, runs, k);
        if resetOk then Prepend(p.trace, Loop(polls, j + 1, command, runs, p.ran))
        else Outcome(p.trace, Stopped)
  }

  /** The events of every batch the loop takes, in order, up to the batch whose re-arm fails. */
  function Taken(polls: seq<Poll>, j: nat): seq<Event>
    requires j <= |polls|
    decreases |polls| - j
  {
    if j == |polls| then []
    else match polls[j]
      case Interrupted => []
      case Batch(events, resetOk) => events + (if resetOk then Taken(polls, j + 1) else [])
  }

  /**
   * What is logged before registration once the sanity check lets the path
   * through: the stack trace of an unreadable path, then the path announced.
   */
  function Opening(path: string, check: FolderCheck): seq<Entry>
  {
    (if check == Unreadable then [StackTrace] else []) + [Info(WatchingPrefix + path)]
  }

  /** A whole call of watchDirectoryPath on `path` with the import script `command`. */
  function Session(path: string, check: FolderCheck, registerOk: bool, polls: seq<Poll>,
                   command: string, runs: nat -> ChildRun): Outcome
  {
    if check == NotDirectory then Outcome([], NotAFolder)
    else
      if !registerOk then Outcome(Opening(path, check) + [StackTrace], RegisterFailed)
      else Prepend(Opening(path, check), Loop(polls, 0, command, runs, 0))
  }

  /**
   * The body of the for-each for one event: an overflow event and a swap-file
   * name are skipped; any other create or modify event is logged and runs the
   * script once, always with the fixed `command`, never with the entry name.
   * `ran` tells whether the script was run.
   */
  method DispatchEvent(e: Event, command: string, run: ChildRun) returns (log: seq<Entry>, ran: bool)
    ensures log == EventTrace(e, command, run)
    ensures ran == Accepted(e)
  {
    log, ran := [], false;
    if e.kind == Overflow {
      return;
    } else if e.kind == EntryCreate {
      if IsSwpPath(e.name) {
        return;
      }
      log := log + [Info(CreatedPrefix + e.name)];
    } else {
      // ENTRY_MODIFY, the one kind left
      if IsSwpPath(e.name) {
        return;
      }
      log := log + [Info(ModifiedPrefix + e.name)];
    }
    var bridge := RunImpalaBridge(command, run);
    log, ran := log + bridge, true;
  }

  /** The for-each over one batch, in delivery order. */
  method DispatchBatch(events: seq<Event>, command: string, runs: nat -> ChildRun, k0: nat)
    returns (trace: seq<Entry>, k: nat)
    ensures Progress(trace, k) == BatchTrace(events, |events|, command, runs, k0)
  {
    trace, k := [], k0;
    for i := 0 to |events|
      invariant Progress(trace, k) == BatchTrace(events, i, command, runs, k0)
    {
      var log, ran := DispatchEvent(events[i], command, runs(k));
      trace := trace + log;
      if ran {
        k := k + 1;
      }
    }
  }

  /** The polling loop: take a batch, dispatch it, re-arm the key, and stop when re-arming fails. */
  method PollLoop(polls: seq<Poll>, command: string, runs: nat -> ChildRun) returns (r: Outcome)
    ensures r == Loop(polls, 0, command, runs, 0)
  {
    var trace: seq<Entry> := [];
    var k: nat := 0;
    var j := 0;
    while j < |polls|
      invariant j <= |polls|
      invariant Prepend(trace, Loop(polls, j, command, runs, k)) == Loop(polls, 0, command, runs, 0)
    {
      match polls[j] {
        case Interrupted =>
          return Outcome(trace + [StackTrace], Interrupt);
        case Batch(events, resetOk) =>
          var t, k' := DispatchBatch(events, command, runs, k);
          PrependPrepend(trace, t, Loop(polls, j + 1, command, runs, k'));
          trace, k := trace + t, k';
          if !resetOk {
            return Outcome(trace, Stopped);
          }
      }
      j := j + 1;
    }
    r := Outcome(trace, Waiting);
  }

  /**
   * watchDirectoryPath: a path that is not a directory makes the sanity check
   * throw past its handler; an unreadable path is reported and the method
   * carries on; then it announces the path, registers, and polls.
   */
  method WatchDirectoryPath(path: string, check: FolderCheck, registerOk: bool, polls: seq<Poll>,
                            command: string, runs: nat -> ChildRun) returns (r: Outcome)
    ensures r == Session(path, check, registerOk, polls, command, runs)
  {
    var trace: seq<Entry> := [];
    if check == NotDirectory {
      return Outcome([], NotAFolder);
    } else if check == Unreadable {
      trace := trace + [StackTrace];
    }
    trace := trace + [Info(WatchingPrefix + path)];
    if !registerOk {
      return Outcome(trace + [StackTrace], RegisterFailed);
    }
    r := PollLoop(polls, command, runs);
    r := Prepend(trace, r);
  }
}
