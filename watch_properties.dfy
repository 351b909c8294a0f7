/**
 * What the watcher promises, stated over the model of watchDirectoryPath:
 * which events cause a notice and a run of the import script, in what order,
 * with which command, and when the polling loop stops.
 */
module WatchProperties {
  import opened Strings
  import opened PathFilter
  import opened Trace
  import opened ImpalaBridge
  import opened WatchLoop

  /**
   * Every notice is followed at once by the start message and the launch of
   * `command`, and every launch sits right after a notice and the start
   * message: notices and runs come in pairs, run immediately after notice.
   */
  predicate RunsFollowNotices(t: seq<Entry>, command: string)
  {
    (forall i :: 0 <= i < |t| && IsNotice(t[i]) ==>
      i + 2 < |t| && t[i + 1] == Info(StartMsg) && t[i + 2] == Launch(command)) &&
    (forall i :: 0 <= i < |t| && t[i].Launch? ==>
      2 <= i && IsNotice(t[i - 2]) && t[i - 1] == Info(StartMsg))
  }

  // ---------------------------------------------------------------------
  // Accepted events

  /** The filter keeps only events that pass both checks of the dispatch. */
  lemma {:induction false} AcceptedAreAccepted(events: seq<Event>, n: nat)
    requires n <= |events|
    ensures forall e :: e in AcceptedEvents(events, n) ==> Accepted(e)
  {
    if n > 0 {
      AcceptedAreAccepted(events, n - 1);
    }
  }

  /** The accepted events of a prefix depend on that prefix only. */
  lemma {:induction false} AcceptedSamePrefix(s: seq<Event>, t: seq<Event>, n: nat)
    requires n <= |s| && n <= |t|
    requires forall i :: 0 <= i < n ==> s[i] == t[i]
    ensures AcceptedEvents(s, n) == AcceptedEvents(t, n)
  {
    if n > 0 {
      AcceptedSamePrefix(s, t, n - 1);
    }
  }

  /** Filtering two batches one after the other is filtering their concatenation. */
  lemma {:induction false} AcceptedAppend(a: seq<Event>, b: seq<Event>, m: nat)
    requires m <= |b|
    ensures AcceptedEvents(a + b, |a| + m) == AcceptedEvents(a, |a|) + AcceptedEvents(b, m)
  {
    if m == 0 {
      AcceptedSamePrefix(a + b, a, |a|);
    } else {
      AcceptedAppend(a, b, m - 1);
      assert (a + b)[|a| + m - 1] == b[m - 1];
    }
  }

  lemma {:induction false} NoticesOfAppend(a: seq<Event>, b: seq<Event>)
    requires forall e :: e in a ==> e.kind != Overflow
    requires forall e :: e in b ==> e.kind != Overflow
    ensures NoticesOf(a + b) == NoticesOf(a) + NoticesOf(b)
  {
    if b == [] {
      assert a + b == a;
    } else {
      var init := b[..|b| - 1];
      assert (a + b)[..|a + b| - 1] == a + init;
      assert forall e :: e in init ==> e in b;
      NoticesOfAppend(a, init);
    }
  }

  // ---------------------------------------------------------------------
  // One event

  /** An accepted event yields exactly its notice and exactly one launch, of the fixed command. */
  lemma EventDispatch(e: Event, command: string, run: ChildRun)
    requires Accepted(e)
    ensures Notices(EventTrace(e, command, run)) == [Notice(e)]
    ensures Commands(EventTrace(e, command, run)) == [command]
  {
    StartsWithAppend(if e.kind == EntryCreate then CreatedPrefix else ModifiedPrefix, e.name);
    BridgeQuiet(command, run);
    NoticesAppend([Info(Notice(e))], BridgeTrace(command, run));
    CommandsAppend([Info(Notice(e))], BridgeTrace(command, run));
  }

  /** The trace of one event pairs its notice with the run it triggers. */
  lemma EventRunsFollowNotices(e: Event, command: string, run: ChildRun)
    ensures RunsFollowNotices(EventTrace(e, command, run), command)
  {
    if Accepted(e) {
      var b := BridgeTrace(command, run);
      var t := [Info(Notice(e))] + b;
      StartsWithAppend(if e.kind == EntryCreate then CreatedPrefix else ModifiedPrefix, e.name);
      BridgeTraceShape(command, run);
      BridgeEntries(command, run);
      assert t[1] == Info(StartMsg) && t[2] == Launch(command);
      forall i | 1 <= i < |t|
        ensures !IsNotice(t[i]) && (t[i].Launch? ==> i == 2)
      {
        assert t[i] == b[i - 1];
      }
    }
  }

  lemma RunsFollowNoticesAppend(a: seq<Entry>, b: seq<Entry>, command: string)
    requires RunsFollowNotices(a, command) && RunsFollowNotices(b, command)
    ensures RunsFollowNotices(a + b, command)
  {
    var t := a + b;
    assert forall i :: 0 <= i < |a| ==> t[i] == a[i];
    assert forall i :: |a| <= i < |t| ==> t[i] == b[i - |a|];
  }

  // ---------------------------------------------------------------------
  // One batch

  /** A skipped event (an overflow, or a swap-file name) adds nothing and consumes no run. */
  lemma SkippedEventIsSilent(events: seq<Event>, n: nat, command: string, runs: nat -> ChildRun, k: nat)
    requires n < |events|
    requires events[n].kind == Overflow || IsSwpPath(events[n].name)
    ensures BatchTrace(events, n + 1, command, runs, k) == BatchTrace(events, n, command, runs, k)
  {
  }

  /**
   * Any other event appends its notice, then one run of the script, the next
   * one in line, and nothing else.
   */
  lemma AcceptedEventRunsOnce(events: seq<Event>, n: nat, command: string, runs: nat -> ChildRun, k: nat)
    requires n < |events|
    requires events[n].kind != Overflow && !IsSwpPath(events[n].name)
    ensures var before := BatchTrace(events, n, command, runs, k);
      BatchTrace(events, n + 1, command, runs, k) ==
        Progress(before.trace + [Info(Notice(events[n]))] + BridgeTrace(command, runs(before.ran)),
                 before.ran + 1)
  {
    var before := BatchTrace(events, n, command, runs, k);
    var b := BridgeTrace(command, runs(before.ran));
    assert before.trace + ([Info(Notice(events[n]))] + b) == before.trace + [Info(Notice(events[n]))] + b;
  }

  /** One run of the script per accepted event, taken from the runs in order. */
  lemma {:induction false} BatchRuns(events: seq<Event>, n: nat, command: string, runs: nat -> ChildRun, k: nat)
    requires n <= |events|
    ensures BatchTrace(events, n, command, runs, k).ran == k + |AcceptedEvents(events, n)|
  {
    if n > 0 {
      BatchRuns(events, n - 1, command, runs, k);
    }
  }

  /** The accepted event added by one more step of a batch, if any. */
  lemma AcceptedStep(events: seq<Event>, n: nat)
    requires 0 < n <= |events|
    ensures Accepted(events[n - 1]) ==>
      AcceptedEvents(events, n) == AcceptedEvents(events, n - 1) + [events[n - 1]]
    ensures !Accepted(events[n - 1]) ==> AcceptedEvents(events, n) == AcceptedEvents(events, n - 1)
  {
  }

  lemma NoticesOfSnoc(acc: seq<Event>, e: Event)
    requires forall x :: x in acc ==> x.kind != Overflow
    requires e.kind != Overflow
    ensures NoticesOf(acc + [e]) == NoticesOf(acc) + [Notice(e)]
  {
    assert (acc + [e])[..|acc + [e]| - 1] == acc;
  }

  /** The notices logged over a batch are those of its accepted events, in delivery order. */
  lemma {:induction false} BatchNotices(events: seq<Event>, n: nat, command: string, runs: nat -> ChildRun, k: nat)
    requires n <= |events|
    ensures Notices(BatchTrace(events, n, command, runs, k).trace) == NoticesOf(AcceptedEvents(events, n))
  {
    if n > 0 {
      var p := BatchTrace(events, n - 1, command, runs, k);
      var e := events[n - 1];
      var et := EventTrace(e, command, runs(p.ran));
      BatchNotices(events, n - 1, command, runs, k);
      NoticesAppend(p.trace, et);
      AcceptedStep(events, n);
      if Accepted(e) {
        EventDispatch(e, command, runs(p.ran));
        NoticesOfSnoc(AcceptedEvents(events, n - 1), e);
      } else {
        assert Notices(p.trace + et) == Notices(p.trace) + [];
      }
    }
  }

  /** A batch launches the fixed command once per accepted event, and nothing else. */
  lemma {:induction false} BatchLaunches(events: seq<Event>, n: nat, command: string, runs: nat -> ChildRun, k: nat)
    requires n <= |events|
    ensures Commands(BatchTrace(events, n, command, runs, k).trace) == Copies(command, |AcceptedEvents(events, n)|)
  {
    if n > 0 {
      var p := BatchTrace(events, n - 1, command, runs, k);
      var e := events[n - 1];
      var et := EventTrace(e, command, runs(p.ran));
      BatchLaunches(events, n - 1, command, runs, k);
      CommandsAppend(p.trace, et);
      AcceptedStep(events, n);
      if Accepted(e) {
        EventDispatch(e, command, runs(p.ran));
        CopiesAppend(command, |AcceptedEvents(events, n - 1)|, 1);
      } else {
        assert Commands(p.trace + et) == Commands(p.trace) + [];
      }
    }
  }

  /** Within a batch, each run of the script comes right after the notice of its event. */
  lemma {:induction false} BatchPairs(events: seq<Event>, n: nat, command: string, runs: nat -> ChildRun, k: nat)
    requires n <= |events|
    ensures RunsFollowNotices(BatchTrace(events, n, command, runs, k).trace, command)
  {
    if n > 0 {
      var p := BatchTrace(events, n - 1, command, runs, k);
      var e := events[n - 1];
      BatchPairs(events, n - 1, command, runs, k);
      EventRunsFollowNotices(e, command, runs(p.ran));
      RunsFollowNoticesAppend(p.trace, EventTrace(e, command, runs(p.ran)), command);
    }
  }

  // ---------------------------------------------------------------------
  // The polling loop

  /** The accepted events of the batches taken from a batch onwards. */
  lemma AcceptedTakenStep(polls: seq<Poll>, j: nat)
    requires j < |polls| && polls[j].Batch? && polls[j].resetOk
    ensures var events := polls[j].events; var rest := Taken(polls, j + 1);
      AcceptedEvents(Taken(polls, j), |Taken(polls, j)|) ==
        AcceptedEvents(events, |events|) + AcceptedEvents(rest, |rest|)
  {
    var events := polls[j].events;
    var rest := Taken(polls, j + 1);
    AcceptedAppend(events, rest, |rest|);
  }

  /** The notices logged over the loop are those of the accepted events of the batches taken, in order. */
  lemma {:induction false} LoopNotices(polls: seq<Poll>, j: nat, command: string, runs: nat -> ChildRun, k: nat)
    requires j <= |polls|
    ensures Notices(Loop(polls, j, command, runs, k).trace) ==
      NoticesOf(AcceptedEvents(Taken(polls, j), |Taken(polls, j)|))
    decreases |polls| - j
  {
    if j < |polls| && polls[j].Batch? {
      var events := polls[j].events;
      var p := BatchTrace(events, |events|, command, runs, k);
      BatchNotices(events, |events|, command, runs, k);
      if polls[j].resetOk {
        var rest := Taken(polls, j + 1);
        var o := Loop(polls, j + 1, command, runs, p.ran);
        LoopNotices(polls, j + 1, command, runs, p.ran);
        NoticesAppend(p.trace, o.trace);
        AcceptedTakenStep(polls, j);
        NoticesOfAppend(AcceptedEvents(events, |events|), AcceptedEvents(rest, |rest|));
      } else {
        assert events + [] == events;
        assert Loop(polls, j, command, runs, k) == Outcome(p.trace, Stopped);
      }
    }
  }

  /** The loop launches the fixed command once per accepted event taken, and nothing else. */
  lemma {:induction false} LoopLaunches(polls: seq<Poll>, j: nat, command: string, runs: nat -> ChildRun, k: nat)
    requires j <= |polls|
    ensures Commands(Loop(polls, j, command, runs, k).trace) ==
      Copies(command, |AcceptedEvents(Taken(polls, j), |Taken(polls, j)|)|)
    decreases |polls| - j
  {
    if j < |polls| && polls[j].Batch? {
      var events := polls[j].events;
      var p := BatchTrace(events, |events|, command, runs, k);
      BatchLaunches(events, |events|, command, runs, k);
      if polls[j].resetOk {
        var rest := Taken(polls, j + 1);
        var o := Loop(polls, j + 1, command, runs, p.ran);
        LoopLaunches(polls, j + 1, command, runs, p.ran);
        CommandsAppend(p.trace, o.trace);
        AcceptedTakenStep(polls, j);
        CopiesAppend(command, |AcceptedEvents(events, |events|)|, |AcceptedEvents(rest, |rest|)|);
      } else {
        assert events + [] == events;
        assert Loop(polls, j, command, runs, k) == Outcome(p.trace, Stopped);
      }
    }
  }

  /** Over the whole loop, each run of the script comes right after the notice of its event. */
  lemma {:induction false} LoopPairs(polls: seq<Poll>, j: nat, command: string, runs: nat -> ChildRun, k: nat)
    requires j <= |polls|
    ensures RunsFollowNotices(Loop(polls, j, command, runs, k).trace, command)
    decreases |polls| - j
  {
    if j < |polls| && polls[j].Batch? {
      var events := polls[j].events;
      var p := BatchTrace(events, |events|, command, runs, k);
      BatchPairs(events, |events|, command, runs, k);
      if polls[j].resetOk {
        var o := Loop(polls, j + 1, command, runs, p.ran);
        LoopPairs(polls, j + 1, command, runs, p.ran);
        RunsFollowNoticesAppend(p.trace, o.trace, command);
      }
    }
  }

  /** Whatever the runs of the script do, the loop ends the same way: a failing run never stops it. */
  lemma {:induction false} ExitIgnoresRuns(polls: seq<Poll>, j: nat, command: string,
                                           runs1: nat -> ChildRun, k1: nat, runs2: nat -> ChildRun, k2: nat)
    requires j <= |polls|
    ensures Loop(polls, j, command, runs1, k1).exit == Loop(polls, j, command, runs2, k2).exit
    decreases |polls| - j
  {
    if j < |polls| && polls[j].Batch? && polls[j].resetOk {
      var events := polls[j].events;
      ExitIgnoresRuns(polls, j + 1, command, runs1, BatchTrace(events, |events|, command, runs1, k1).ran,
                      runs2, BatchTrace(events, |events|, command, runs2, k2).ran);
    }
  }

  /** Poll results after one that ends the loop are never looked at. */
  lemma {:induction false} LaterPollsIgnored(polls: seq<Poll>, later: seq<Poll>, j: nat, s: nat,
                                             command: string, runs: nat -> ChildRun, k: nat)
    requires j <= s < |polls|
    requires polls[s].Interrupted? || !polls[s].resetOk
    ensures Loop(polls + later, j, command, runs, k) == Loop(polls, j, command, runs, k)
    decreases s - j
  {
    assert (polls + later)[j] == polls[j];
    if j < s && polls[j].Batch? && polls[j].resetOk {
      var events := polls[j].events;
      LaterPollsIgnored(polls, later, j + 1, s, command, runs, BatchTrace(events, |events|, command, runs, k).ran);
    }
  }

  /**
   * The loop stops right after the first batch whose re-arm fails: it ends
   * Stopped, and nothing after that batch is taken.
   */
  lemma {:induction false} StopsAtFailedReset(polls: seq<Poll>, j: nat, s: nat,
                                              command: string, runs: nat -> ChildRun, k: nat)
    requires j <= s < |polls|
    requires polls[s].Batch? && !polls[s].resetOk
    requires forall i :: j <= i < s ==> polls[i].Batch? && polls[i].resetOk
    ensures Loop(polls, j, command, runs, k).exit == Stopped
    ensures Loop(polls, j, command, runs, k) == Loop(polls[..s + 1], j, command, runs, k)
    decreases s - j
  {
    assert polls[..s + 1] + polls[s + 1..] == polls;
    LaterPollsIgnored(polls[..s + 1], polls[s + 1..], j, s, command, runs, k);
    if j < s {
      var events := polls[j].events;
      StopsAtFailedReset(polls, j + 1, s, command, runs, BatchTrace(events, |events|, command, runs, k).ran);
    }
  }

  /** While every re-arm succeeds the loop never stops of its own accord. */
  lemma {:induction false} KeepsWaiting(polls: seq<Poll>, j: nat, command: string, runs: nat -> ChildRun, k: nat)
    requires j <= |polls|
    requires forall i :: j <= i < |polls| ==> polls[i].Batch? && polls[i].resetOk
    ensures Loop(polls, j, command, runs, k).exit == Waiting
    decreases |polls| - j
  {
    if j < |polls| {
      var events := polls[j].events;
      KeepsWaiting(polls, j + 1, command, runs, BatchTrace(events, |events|, command, runs, k).ran);
    }
  }

  /** An interrupted wait ends the loop with a reported exception and nothing else. */
  lemma InterruptEndsLoop(polls: seq<Poll>, j: nat, command: string, runs: nat -> ChildRun, k: nat)
    requires j < |polls| && polls[j].Interrupted?
    ensures Loop(polls, j, command, runs, k) == Outcome([StackTrace], Interrupt)
  {
  }

  // ---------------------------------------------------------------------
  // A whole session

  /**
   * The sanity check: a path that is not a directory ends the call at once,
   * with nothing logged and no run; any other path gets past it.
   */
  lemma SanityCheck(path: string, check: FolderCheck, registerOk: bool, polls: seq<Poll>,
                    command: string, runs: nat -> ChildRun)
    ensures var o := Session(path, check, registerOk, polls, command, runs);
      (check == NotDirectory <==> o.exit == NotAFolder) &&
      (check == NotDirectory ==> o.trace == [])
  {
    if check != NotDirectory && registerOk {
      ExitIsLoopExit(polls, 0, command, runs, 0);
    }
  }

  /**
   * Past the sanity check the path is announced first, after the stack trace
   * of an unreadable one: reading trouble does not stop the watcher.
   */
  lemma SessionOpening(path: string, check: FolderCheck, registerOk: bool, polls: seq<Poll>,
                       command: string, runs: nat -> ChildRun)
    requires check != NotDirectory
    ensures var t := Session(path, check, registerOk, polls, command, runs).trace;
      var w := if check == Unreadable then 1 else 0;
      w + 1 <= |t| && t[w] == Info(WatchingPrefix + path) &&
      (check == Unreadable ==> t[0] == StackTrace)
  {
    var t := Session(path, check, registerOk, polls, command, runs).trace;
    var op := Opening(path, check);
    assert registerOk ==> t == op + Loop(polls, 0, command, runs, 0).trace;
    assert !registerOk ==> t == op + [StackTrace];
    assert forall i :: 0 <= i < |op| ==> t[i] == op[i];
  }

  /** A failed registration is reported and ends the call before any event is taken. */
  lemma RegisterFailure(path: string, check: FolderCheck, polls: seq<Poll>,
                        command: string, runs: nat -> ChildRun)
    requires check != NotDirectory
    ensures var o := Session(path, check, false, polls, command, runs);
      o.exit == RegisterFailed && |o.trace| == |Opening(path, check)| + 1 &&
      o.trace[|o.trace| - 1] == StackTrace && Commands(o.trace) == []
  {
    OpeningQuiet(path, check, command);
  }

  /** The loop never ends the way only the set-up can. */
  lemma {:induction false} ExitIsLoopExit(polls: seq<Poll>, j: nat, command: string, runs: nat -> ChildRun, k: nat)
    requires j <= |polls|
    ensures Loop(polls, j, command, runs, k).exit in {Waiting, Stopped, Interrupt}
    decreases |polls| - j
  {
    if j < |polls| && polls[j].Batch? && polls[j].resetOk {
      var events := polls[j].events;
      ExitIsLoopExit(polls, j + 1, command, runs, BatchTrace(events, |events|, command, runs, k).ran);
    }
  }

  /** The set-up logs no notice and launches nothing. */
  lemma OpeningQuiet(path: string, check: FolderCheck, command: string)
    ensures Notices(Opening(path, check)) == [] && Commands(Opening(path, check)) == []
    ensures Notices(Opening(path, check) + [StackTrace]) == []
    ensures Commands(Opening(path, check) + [StackTrace]) == []
    ensures RunsFollowNotices(Opening(path, check), command)
    ensures RunsFollowNotices(Opening(path, check) + [StackTrace], command)
  {
    var op := Opening(path, check);
    NotNotice(WatchingPrefix + path);
    assert forall i :: 0 <= i < |op| ==> op[i] == StackTrace || op[i] == Info(WatchingPrefix + path);
    Quiet(op);
    Quiet(op + [StackTrace]);
  }

  /**
   * Over a whole session, the notices are those of the accepted events of
   * the batches taken, in order, once the set-up gets as far as polling, and
   * there are none otherwise.
   */
  lemma SessionNotices(path: string, check: FolderCheck, registerOk: bool, polls: seq<Poll>,
                       command: string, runs: nat -> ChildRun)
    ensures Notices(Session(path, check, registerOk, polls, command, runs).trace) ==
      if check != NotDirectory && registerOk
      then NoticesOf(AcceptedEvents(Taken(polls, 0), |Taken(polls, 0)|))
      else []
  {
    if check != NotDirectory {
      OpeningQuiet(path, check, command);
      if registerOk {
        LoopNotices(polls, 0, command, runs, 0);
        NoticesAppend(Opening(path, check), Loop(polls, 0, command, runs, 0).trace);
      }
    }
  }

  /**
   * Over a whole session, the fixed command is launched once per accepted
   * event taken, and never when the set-up fails.
   */
  lemma SessionLaunches(path: string, check: FolderCheck, registerOk: bool, polls: seq<Poll>,
                        command: string, runs: nat -> ChildRun)
    ensures Commands(Session(path, check, registerOk, polls, command, runs).trace) ==
      if check != NotDirectory && registerOk
      then Copies(command, |AcceptedEvents(Taken(polls, 0), |Taken(polls, 0)|)|)
      else []
  {
    if check != NotDirectory {
      OpeningQuiet(path, check, command);
      if registerOk {
        LoopLaunches(polls, 0, command, runs, 0);
        CommandsAppend(Opening(path, check), Loop(polls, 0, command, runs, 0).trace);
      }
    }
  }

  /** Over a whole session, each run of the script comes right after the notice of its event. */
  lemma SessionPairs(path: string, check: FolderCheck, registerOk: bool, polls: seq<Poll>,
                     command: string, runs: nat -> ChildRun)
    ensures RunsFollowNotices(Session(path, check, registerOk, polls, command, runs).trace, command)
  {
    if check != NotDirectory {
      OpeningQuiet(path, check, command);
      if registerOk {
        LoopPairs(polls, 0, command, runs, 0);
        RunsFollowNoticesAppend(Opening(path, check), Loop(polls, 0, command, runs, 0).trace, command);
      }
    }
  }

  /** A plain create and a plain modify pass the filter; a swap file and an overflow do not. */
  lemma MixedBatchFilter()
    ensures Accepted(Event(EntryCreate, "a.txt")) && Accepted(Event(EntryModify, "b.txt"))
    ensures !Accepted(Event(EntryCreate, ".a.txt.swp")) && !Accepted(Event(Overflow, ""))
  {
    VisibleNotSwp("a.txt");
    VisibleNotSwp("b.txt");
    SwpExamples();
  }

  /** Of the mixed batch below, the plain create and the plain modify are accepted. */
  lemma MixedBatchAccepted(events: seq<Event>)
    requires events == [Event(EntryCreate, "a.txt"), Event(EntryCreate, ".a.txt.swp"),
                        Event(EntryModify, "b.txt"), Event(Overflow, "")]
    ensures AcceptedEvents(events, |events|) == [events[0], events[2]]
  {
    MixedBatchFilter();
    AcceptedStep(events, 1);
    AcceptedStep(events, 2);
    AcceptedStep(events, 3);
    AcceptedStep(events, 4);
  }

  /**
   * One batch holding a create, a create of a swap file, a modify and an
   * overflow runs the script twice, for the create and then for the modify.
   */
  lemma MixedBatchExample(command: string, runs: nat -> ChildRun)
    ensures var events := [Event(EntryCreate, "a.txt"), Event(EntryCreate, ".a.txt.swp"),
                           Event(EntryModify, "b.txt"), Event(Overflow, "")];
      var p := BatchTrace(events, |events|, command, runs, 0);
      Notices(p.trace) == ["New path created:a.txt", "New path modified:b.txt"] &&
      Commands(p.trace) == [command, command] && p.ran == 2
  {
    var events := [Event(EntryCreate, "a.txt"), Event(EntryCreate, ".a.txt.swp"),
                   Event(EntryModify, "b.txt"), Event(Overflow, "")];
    MixedBatchAccepted(events);
    BatchRuns(events, |events|, command, runs, 0);
    BatchNotices(events, |events|, command, runs, 0);
    BatchLaunches(events, |events|, command, runs, 0);
    assert NoticesOf([events[0], events[2]]) == [Notice(events[0]), Notice(events[2])] by {
      assert [events[0], events[2]][..1] == [events[0]];
    }
    assert Copies(command, 2) == [command, command];
    assert Notice(events[0]) == "New path created:a.txt";
    assert Notice(events[2]) == "New path modified:b.txt";
  }
}
