# AtlasLineageWatch, modelled in Dafny

`AtlasLineageWatch` watches one directory. For every file created or modified
there, it logs a notice and runs a fixed import script (the "BBK Impala
bridge"). It copies each line the script prints into the log. This project
models the watcher's core and proves what it promises:

- which events get through the filter: overflow events and editor swap files
  (`.name.swp`) are skipped;
- that each accepted event produces exactly one notice and then exactly one run
  of the fixed script, in delivery order;
- that a failing script run is reported and never stops the watcher;
- that the loop re-arms after every batch and stops after the first failed
  re-arm;
- what the directory sanity check does before any of this.

Nothing is executed. Everything the watcher observes is an input to the model:

- `FolderCheck` is the outcome of `Files.getAttribute(path, "basic:isDirectory", NOFOLLOW_LINKS)`:
  a directory, not a directory, or an `IOException`.
- `registerOk` says whether creating the watch service and registering the path
  succeeded.
- `polls: seq<Poll>` is what successive `service.take()` calls return. Each is
  either a batch of events together with the result of `key.reset()`, or an
  interruption.
- `runs: nat -> ChildRun` gives the n-th run of the script: the lines it prints,
  and whether an exception cuts it short.

The log is the observable output. The model writes it as a `seq<Entry>`:

- `Info(msg)` is one `LOG.info` line;
- `Launch(command)` is the attempt to start the script;
- `StackTrace` is one `printStackTrace`.

Modules:

- `Strings`: `startsWith`/`endsWith` on strings.
- `PathFilter`: `isSwpPath`.
- `Trace`: log entries, plus the notices and launches a log holds.
- `ImpalaBridge`: `runImpalaBridge`, as the method `RunImpalaBridge`, proved equal
  to the function `BridgeTrace`.
- `WatchLoop`: the event dispatch, the polling loop and `watchDirectoryPath`.
  Each is an imperative method (`DispatchEvent`, `DispatchBatch`, `PollLoop`,
  `WatchDirectoryPath`) proved equal to a specification function (`EventTrace`,
  `BatchTrace`, `Loop`, `Session`).
- `WatchProperties`: lemmas about those specification functions. The
  single-step lemmas (`SkippedEventIsSilent`, `AcceptedEventRunsOnce`,
  `InterruptEndsLoop`) each state one branch of the dispatch or the loop as a
  per-event promise. The inductive `Batch*`, `Loop*` and `Session*` lemmas
  carry the proofs about whole batches, the whole loop and the whole call.

Behaviour of the code that the model keeps:

- A path that exists but is not a directory makes the code throw
  `IllegalArgumentException`. The surrounding `catch (IOException)` does not
  catch it, so the exception leaves `watchDirectoryPath` before anything is
  logged. The model ends the session at once, with exit `NotAFolder` and an
  empty log. The "Folder does not exists" comment in the handler
  (AtlasLineageWatch.java:57) covers only the `IOException` case.
- An `IOException` from the attribute read, for example because the path is
  missing, prints a stack trace. The method then carries on: it announces the
  path and tries to register it.
- The script is always run with the fixed script path. It never gets the event's
  file name.

## Model

| member | source | states |
|---|---|---|
| PathFilter.SwpPathChars | src/main/java/com/vmware/supercollider/AtlasLineageWatch.java:26-28 | a name is a swap path exactly when it is at least 4 characters long, starts with '.' and ends with ".swp" (both directions) |
| PathFilter.SwpExamples | src/main/java/com/vmware/supercollider/AtlasLineageWatch.java:27 | `.foo.swp`, `.a.txt.swp` and `.swp` are swap paths; `foo.swp`, `.foo.swx`, the empty name, `.`, `.sw` and `a.txt` are not |
| PathFilter.VisibleNotSwp | src/main/java/com/vmware/supercollider/AtlasLineageWatch.java:27 | a name that does not start with '.' is never filtered as a swap file |
| ImpalaBridge.RunImpalaBridge | src/main/java/com/vmware/supercollider/AtlasLineageWatch.java:30-45 | the loop over the child's output logs exactly the trace `BridgeTrace`: start message, launch, one prefixed line per output line in order, then the finish message or a stack trace |
| ImpalaBridge.LineLogsAt | src/main/java/com/vmware/supercollider/AtlasLineageWatch.java:37-40 | one log entry per output line, and the i-th entry is "BBK Import File Log: " followed by the i-th line |
| ImpalaBridge.BridgeTraceShape | src/main/java/com/vmware/supercollider/AtlasLineageWatch.java:30-45 | a run logs exactly lines+3 entries: the start message first, then the launch of the given script, then the output lines, then the finish message or, when the run fails, a stack trace only |
| ImpalaBridge.BridgeEntries | src/main/java/com/vmware/supercollider/AtlasLineageWatch.java:30-45 | no entry a run logs looks like an event notice, and its only launch is its second entry |
| ImpalaBridge.BridgeQuiet | src/main/java/com/vmware/supercollider/AtlasLineageWatch.java:30-45 | a run adds no notice and launches exactly the given script once, whether it succeeds or fails |
| ImpalaBridge.LineLogsQuiet | src/main/java/com/vmware/supercollider/AtlasLineageWatch.java:37-40 | forwarded output lines are neither notices nor launches, whatever the child prints |
| WatchLoop.AcceptedEvents | src/main/java/com/vmware/supercollider/AtlasLineageWatch.java:78-102 | the events that pass the filter are no more than the events delivered, and none is an overflow |
| WatchLoop.NoticesOf | src/main/java/com/vmware/supercollider/AtlasLineageWatch.java:90-99 | one notice message per create or modify event |
| WatchLoop.DispatchEvent | src/main/java/com/vmware/supercollider/AtlasLineageWatch.java:80-101 | the if-chain over one event logs `EventTrace`, and it runs the script exactly when the event is accepted |
| WatchLoop.DispatchBatch | src/main/java/com/vmware/supercollider/AtlasLineageWatch.java:78-102 | the for-each over a batch logs `BatchTrace` and uses one run per accepted event, in order |
| WatchLoop.PollLoop | src/main/java/com/vmware/supercollider/AtlasLineageWatch.java:73-113 | the take/dispatch/reset loop produces `Loop`: it breaks on a failed reset and reports an interruption |
| WatchLoop.WatchDirectoryPath | src/main/java/com/vmware/supercollider/AtlasLineageWatch.java:47-115 | the whole method produces `Session`: sanity check, announcement, registration, then the loop |
| WatchProperties.AcceptedAreAccepted | src/main/java/com/vmware/supercollider/AtlasLineageWatch.java:81-98 | every event that gets through is neither an overflow nor a swap-file name |
| WatchProperties.AcceptedAppend | src/main/java/com/vmware/supercollider/AtlasLineageWatch.java:78-102 | filtering two batches one after the other is filtering their concatenation |
| WatchProperties.NoticesOfAppend | src/main/java/com/vmware/supercollider/AtlasLineageWatch.java:90-99 | notices of consecutive event lists concatenate |
| WatchProperties.EventDispatch | src/main/java/com/vmware/supercollider/AtlasLineageWatch.java:83-100 | an accepted event logs exactly its own notice ("New path created:" or "New path modified:" followed by its name) and launches the fixed script exactly once |
| WatchProperties.EventRunsFollowNotices | src/main/java/com/vmware/supercollider/AtlasLineageWatch.java:90-91 | in one event's log each notice is directly followed by the start message and the launch, and each launch directly follows a notice |
| WatchProperties.RunsFollowNoticesAppend | src/main/java/com/vmware/supercollider/AtlasLineageWatch.java:78-102 | notice-run pairing survives concatenating logs |
| WatchProperties.SkippedEventIsSilent | src/main/java/com/vmware/supercollider/AtlasLineageWatch.java:81-82 | an overflow event or a swap-file name adds nothing to the log and uses no run |
| WatchProperties.AcceptedEventRunsOnce | src/main/java/com/vmware/supercollider/AtlasLineageWatch.java:90-100 | any other event appends its notice, then the next run of the script, and advances the run count by one |
| WatchProperties.BatchRuns | src/main/java/com/vmware/supercollider/AtlasLineageWatch.java:78-102 | a batch uses exactly one run per accepted event |
| WatchProperties.BatchNotices | src/main/java/com/vmware/supercollider/AtlasLineageWatch.java:78-102 | the notices a batch logs are those of its accepted events, in delivery order |
| WatchProperties.BatchLaunches | src/main/java/com/vmware/supercollider/AtlasLineageWatch.java:78-102 | a batch launches the fixed script once per accepted event and never anything else |
| WatchProperties.BatchPairs | src/main/java/com/vmware/supercollider/AtlasLineageWatch.java:78-102 | in a batch's log every run comes right after its event's notice |
| WatchProperties.AcceptedTakenStep | src/main/java/com/vmware/supercollider/AtlasLineageWatch.java:73-107 | after a successful re-arm, the accepted events are those of this batch followed by those of later batches |
| WatchProperties.LoopNotices | src/main/java/com/vmware/supercollider/AtlasLineageWatch.java:73-107 | the loop's notices are those of the accepted events of all batches taken, in order |
| WatchProperties.LoopLaunches | src/main/java/com/vmware/supercollider/AtlasLineageWatch.java:73-107 | the loop launches the fixed script once per accepted event taken |
| WatchProperties.LoopPairs | src/main/java/com/vmware/supercollider/AtlasLineageWatch.java:73-107 | across the loop every run comes right after its event's notice |
| WatchProperties.ExitIgnoresRuns | src/main/java/com/vmware/supercollider/AtlasLineageWatch.java:42-44 | how the loop ends does not depend on what the script runs do: a failing run never stops the watcher |
| WatchProperties.LaterPollsIgnored | src/main/java/com/vmware/supercollider/AtlasLineageWatch.java:104-106 | after a failed reset or an interruption, nothing later is taken |
| WatchProperties.StopsAtFailedReset | src/main/java/com/vmware/supercollider/AtlasLineageWatch.java:104-106 | the loop ends Stopped at the first batch whose reset fails, and its outcome depends only on the polls up to that batch |
| WatchProperties.KeepsWaiting | src/main/java/com/vmware/supercollider/AtlasLineageWatch.java:73-107 | while every reset succeeds the loop never ends by itself |
| WatchProperties.InterruptEndsLoop | src/main/java/com/vmware/supercollider/AtlasLineageWatch.java:111-112 | an interrupted take ends the loop with one stack trace and nothing else |
| WatchProperties.SanityCheck | src/main/java/com/vmware/supercollider/AtlasLineageWatch.java:49-59 | a path that is not a directory, and only such a path, ends the call with exit NotAFolder, and then nothing is logged and nothing runs |
| WatchProperties.SessionOpening | src/main/java/com/vmware/supercollider/AtlasLineageWatch.java:56-61 | past the check, the path is announced first; an unreadable path is preceded by one stack trace |
| WatchProperties.RegisterFailure | src/main/java/com/vmware/supercollider/AtlasLineageWatch.java:67-69 | a failed registration logs one stack trace after the announcement, ends with RegisterFailed and runs nothing |
| WatchProperties.ExitIsLoopExit | src/main/java/com/vmware/supercollider/AtlasLineageWatch.java:73-113 | the loop ends only by waiting, a failed reset or an interruption |
| WatchProperties.OpeningQuiet | src/main/java/com/vmware/supercollider/AtlasLineageWatch.java:56-61 | the set-up logs no notice and launches nothing |
| WatchProperties.SessionNotices | src/main/java/com/vmware/supercollider/AtlasLineageWatch.java:47-115 | over a session, the notices are those of the accepted events taken, once polling starts, and there are none otherwise |
| WatchProperties.SessionLaunches | src/main/java/com/vmware/supercollider/AtlasLineageWatch.java:47-115 | over a session, the fixed script runs once per accepted event taken, and never when set-up fails |
| WatchProperties.SessionPairs | src/main/java/com/vmware/supercollider/AtlasLineageWatch.java:47-115 | over a session, every run comes right after its event's notice |
| WatchProperties.MixedBatchFilter | src/main/java/com/vmware/supercollider/AtlasLineageWatch.java:81-98 | a plain create and a plain modify pass the filter; a swap-file create and an overflow do not |
| WatchProperties.MixedBatchAccepted | src/main/java/com/vmware/supercollider/AtlasLineageWatch.java:78-102 | of [create a.txt, create .a.txt.swp, modify b.txt, overflow], exactly the first and third pass |
| WatchProperties.MixedBatchExample | src/main/java/com/vmware/supercollider/AtlasLineageWatch.java:78-102 | that batch logs "New path created:a.txt" and then "New path modified:b.txt", and runs the script twice |

## Left out

- The watch service, `take()` and `pollEvents()` are not modelled. The model
  takes their results as the input `polls`. It also does not model that
  `take()` blocks: when `polls` runs out, the loop ends with exit `Waiting`.
- Which `IOException` the watch service throws is not modelled. An `IOException`
  from `newWatchService()` or `register` is the single input `registerOk`. An
  `IOException` or `ClosedWatchServiceException` raised inside the loop is not
  modelled.
- Closing the watch service at the end of try-with-resources is not modelled,
  and neither is any exception `close()` throws.
- ChildRun / RunImpalaBridge: the model has no child whose output never ends.
  In the source, `reader.readLine()` (AtlasLineageWatch.java:37) blocks until
  the child closes its standard output. A child that never does so blocks the
  watcher for good: no later event or batch is dispatched. `ChildRun.lines` is
  a finite sequence, so every dispatch property (`BatchNotices`,
  `BatchLaunches`, `LoopNotices`, `LoopLaunches`, `SessionNotices`,
  `SessionLaunches` and the pairing lemmas) assumes that each run ends.
- `ProcessBuilder`, the child's stdout reader and the script itself are outside
  the model. The n-th run is the input `runs(n)`: the lines it prints, and
  whether an exception ends it early. When starting the process fails, that is a
  run with no lines that fails. The source never calls `waitFor`, but its read
  loop does wait until the child closes its output.
- How a `Path` is converted to a string is outside the model. An event's entry
  name is already a string.
- `NOFOLLOW_LINKS` is not modelled separately. A symbolic link to a directory
  counts as "not a directory", because that is what the attribute read reports
  for it.
- log4j configuration, message formatting beyond the literal text and
  timestamps are not modelled. A log is a sequence of entries. Stack traces
  go to standard error, not through the logger. The model merges both into
  one trace in program order, and does not model how the two streams
  interleave.
- `main` (argument parsing and `BasicConfigurator`) is not part of this model.
  As written, it watches `args[0]` and runs `args[1]` as the script.
- Concurrency between the watcher and the filesystem, and events delivered
  while the script runs, are covered only as far as they appear in the next
  batch of `polls`.
