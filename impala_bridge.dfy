/**
 * runImpalaBridge: one run of the import script. The child process is not
 * modelled; what the watcher sees of it is the sequence of lines its
 * standard output yields and whether an exception cuts the run short.
 */
module ImpalaBridge {
  import opened Trace

  const StartMsg: string := "Executing BBK Import File..."
  const LinePrefix: string := "BBK Import File Log: "
  const FinishMsg: string := "BBK Import File finished execution"

  /**
   * The behaviour of one child run as seen by the watcher: `lines` are read
   * in order; when `fails` holds, an exception is raised after them (the
   * process could not be started, or reading its output failed).
   */
  datatype ChildRun = ChildRun(lines: seq<string>, fails: bool)

  /** The log entries for the lines read so far, one per line. */
  function LineLogs(lines: seq<string>): seq<Entry>
  {
    if lines == [] then []
    else LineLogs(lines[..|lines| - 1]) + [Info(LinePrefix + lines[|lines| - 1])]
  }

  /** The trace of one run: start message, launch, one prefixed entry per line, then finish or failure. */
  function BridgeTrace(command: string, run: ChildRun): seq<Entry>
  {
    [Info(StartMsg), Launch(command)] + LineLogs(run.lines)
      + [if run.fails then StackTrace else Info(FinishMsg)]
  }

  /** Line `i` of the child's output becomes entry `i` of the line log, prefixed. */
  lemma {:induction false} LineLogsAt(lines: seq<string>)
    ensures |LineLogs(lines)| == |lines|
    ensures forall i :: 0 <= i < |lines| ==> LineLogs(lines)[i] == Info(LinePrefix + lines[i])
  {
    if lines != [] {
      LineLogsAt(lines[..|lines| - 1]);
    }
  }

  /** The whole shape of a run's trace, entry by entry. */
  lemma BridgeTraceShape(command: string, run: ChildRun)
    ensures |BridgeTrace(command, run)| == |run.lines| + 3
    ensures BridgeTrace(command, run)[0] == Info(StartMsg)
    ensures BridgeTrace(command, run)[1] == Launch(command)
    ensures forall i :: 0 <= i < |run.lines| ==>
      BridgeTrace(command, run)[i + 2] == Info(LinePrefix + run.lines[i])
    ensures BridgeTrace(command, run)[|run.lines| + 2] ==
      if run.fails then StackTrace else Info(FinishMsg)
  {
    LineLogsAt(run.lines);
  }

  /**
   * Entry by entry: nothing in a run's trace is an event notice, and its
   * only launch is the second entry.
   */
  lemma BridgeEntries(command: string, run: ChildRun)
    ensures forall i :: 0 <= i < |BridgeTrace(command, run)| ==> !IsNotice(BridgeTrace(command, run)[i])
    ensures forall i :: 0 <= i < |BridgeTrace(command, run)| && BridgeTrace(command, run)[i].Launch? ==> i == 1
  {
    var t := BridgeTrace(command, run);
    BridgeTraceShape(command, run);
    forall i | 0 <= i < |t|
      ensures !IsNotice(t[i]) && (t[i].Launch? ==> i == 1)
    {
      if i == 0 {
        NotNotice(StartMsg);
      } else if 2 <= i < |run.lines| + 2 {
        NotNotice(LinePrefix + run.lines[i - 2]);
      } else if i == |run.lines| + 2 {
        NotNotice(FinishMsg);
      }
    }
  }

  /** No line log entry is a notice. */
  lemma {:induction false} LineLogsQuiet(lines: seq<string>)
    ensures Notices(LineLogs(lines)) == []
    ensures Commands(LineLogs(lines)) == []
  {
    if lines != [] {
      var last := lines[|lines| - 1];
      LineLogsQuiet(lines[..|lines| - 1]);
      NotNotice(LinePrefix + last);
      NoticesAppend(LineLogs(lines[..|lines| - 1]), [Info(LinePrefix + last)]);
      CommandsAppend(LineLogs(lines[..|lines| - 1]), [Info(LinePrefix + last)]);
    }
  }

  /**
   * Whatever the child does, a run launches exactly the given command once
   * and logs nothing that reads as an event notice; a failure ends the run
   * with a reported exception instead of the finish message.
   */
  lemma BridgeQuiet(command: string, run: ChildRun)
    ensures Notices(BridgeTrace(command, run)) == []
    ensures Commands(BridgeTrace(command, run)) == [command]
  {
    var tail := [if run.fails then StackTrace else Info(FinishMsg)];
    LineLogsQuiet(run.lines);
    NotNotice(StartMsg);
    NotNotice(FinishMsg);
    NoticesAppend([Info(StartMsg), Launch(command)] + LineLogs(run.lines), tail);
    NoticesAppend([Info(StartMsg), Launch(command)], LineLogs(run.lines));
    CommandsAppend([Info(StartMsg), Launch(command)] + LineLogs(run.lines), tail);
    CommandsAppend([Info(StartMsg), Launch(command)], LineLogs(run.lines));
  }

  /**
   * runImpalaBridge: logs the start, launches the script, logs each output
   * line as it is read, then logs completion; an exception is reported and
   * swallowed, so the caller always regains control.
   */
  method RunImpalaBridge(command: string, run: ChildRun) returns (log: seq<Entry>)
    ensures log == BridgeTrace(command, run)
  {
    log := [Info(StartMsg), Launch(command)];
    var i := 0;
    while i < |run.lines|
      invariant 0 <= i <= |run.lines|
      invariant log == [Info(StartMsg), Launch(command)] + LineLogs(run.lines[..i])
    {
      assert run.lines[..i + 1][..i] == run.lines[..i];
      log := log + [Info(LinePrefix + run.lines[i])];
      i := i + 1;
    }
    assert run.lines[..i] == run.lines;
    if run.fails {
      log := log + [StackTrace];
    } else {
      log := log + [Info(FinishMsg)];
    }
  }
}
