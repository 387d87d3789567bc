# DebugView++: verified models of its core logic

DebugView++ collects debug messages from many processes, splits them into lines, logs, filters and
shows them. Under its Win32 shell sit pieces of logic that keep real state or run on several threads.
This project models those pieces in Dafny, one module per source file, and proves what each is for.

- Objects whose methods update their fields are classes with the same fields and loops. Each method is
  proved against a function or predicate on values, and the results below are about those.
- Code that runs on several threads is also given as a transition system: an `Action` is one atomic
  step of one thread, `Can` says when it may happen, `Do` what it does, and a run is any interleaving.
  The methods of `Throttle`, `TimedExecutor` and `ProcessMonitor` are stated as these steps; for the
  longer methods of `PolledLogSource` and `SharedBuffer` a lemma gives the series of steps that does
  the same (`NotifyIsSteps`, `WriteIsSteps`).
- Text is `seq<char>`, times and counters are unbounded integers, and the system's own conversions,
  the compression library, the regular expression engine and the clock are parameters.

`dafny verify dfyconfig.toml` checks everything.

## The modules

| file | module | about |
|---|---|---|
| TimedCalls.dfy | TimedCallList | the call list as a stable priority queue |
| GuiExecutor.dfy | GuiExecution | running everything due, and arming the timer for the rest |
| TimedExecutor.dfy | TimedExecution | the queue-driven executor over all interleavings |
| Throttle.dfy | Throttling | the rate limiter over all interleavings |
| ProcessMonitor.dfy | ProcessMonitoring | waiting on more processes than the system can wait on |
| PolledLogSource.dfy | PolledSources | double-buffered hand-over from a polling thread |
| DBWin.dfy | DBWin | the shared buffer between any number of writers and one reader |
| IndexedStorage.dfy | IndexedStorages | compressed blocks of strings against a plain vector |
| LogFile.dfy | LogFiles | the message log over interned process identities |
| Filter.dfy | Filters | verdicts of filter lists, Once filters included |
| LogView.dfy | LogViews | the incremental view against its recomputation |
| MatchType.dfy | MatchTypes | wildcards compiled to regular expressions |
| FileIO.dfy | FileIO | log lines written and read back |
| PipeReader.dfy | PipeReading | splitting a pipe's bytes, however divided |
| NewlineFilter.dfy | NewlineFilters | splitting text into lines, process by process |
| ViewPort.dfy | ViewPorts | zoom steps that undo each other |
| Arithmetic.dfy, Options.dfy | Arithmetic, Options | shared helpers |

## Where the code and its promise differ

Each of these is a lemma that says exactly when the promise holds.

- `TimedExecution.CancelHereWorksIff`: Cancel on the executor thread stops the call for good exactly
  when the insert of the call is not queued, or a removal of it is queued as well. In every other
  case the call is started if nobody cancels anything further; `CancelBeforeInsertIsLost` is a run.
- `Throttling.CallsInOrderIff`: the throttle's promises need callers to take the lock in clock order.
  All calls of a run are in order exactly when none of its states can be continued, without further
  calls, to one that breaks a promise.
- `IndexedStorages.ReadBackIff`: the compressing store returns what was stored exactly when no string
  in a full block holds a NUL.
- `LogViews.ClearingLineStays`: after a line that fires a Clear filter the view agrees with its
  recomputation exactly when that line is filtered out and marks no Once filter. A shown one stays in
  the view, although the view is said to start after it, and its marks decide about later lines;
  `AfterClearingLine` and `RunsShowSinceClear` say what the view shows instead.
- `LogViews.BookmarkSurvivesIff`: a bookmark whose line is still shown is dropped exactly when an
  earlier bookmark's line is not.
- `MatchTypes.WellFormedIff`: read to the letter, section 15.10.1 of ECMA-262 (3rd edition) does not
  allow the escape of a dollar sign, which the translation uses.
- `FileIO.RoundTripIff`: a written line is read back exactly when the process name holds no tab or
  line end and the trimmed message no line end.
- `NewlineFilters.LinesIff`: emitted lines are the newline-terminated ones exactly when no call left
  unfinished text beyond 8192 characters or from a source that ends lines itself, and the process
  did not exit in the middle of a line.
- `ViewPorts.UndoRestoresIff`: zooming back restores the viewport exactly when no zoom was a zoom in
  from one nanosecond.
- `DBWin.SecondSetIff`: after the constructor's second setting of BUFFER_READY messages are read in
  order and each once, however the run goes on, exactly when the event was still set;
  `LateSetOverlaps` is a run in which two writers fill the buffer at once.
- `DBWin.ArrivesWholeIff`: a debug message arrives whole exactly when it is shorter than the data part
  of the buffer and holds no NUL.

## Model

| member | source | states |
|---|---|---|
| `TimedCallList.TimedCalls.Insert` | application/CobaltFusion/Executor.cpp:39-43 | binary search puts the call in front of the first entry due no later, so behind none it should precede; order and unique ids are kept |
| `TimedCallList.TimedCalls.Remove` | application/CobaltFusion/Executor.cpp:45-52 | exactly the entry with the id goes, the others keep their order |
| `TimedCallList.TimedCalls.NextDeadline` | application/CobaltFusion/Executor.cpp:54-58 | the back of the vector is the least deadline of all |
| `TimedCallList.TimedCalls.Pop` | application/CobaltFusion/Executor.cpp:60-69 | the back is taken, and a periodic call is queued again one interval later |
| `TimedCallList.BackIsFirstDue` | application/CobaltFusion/Executor.cpp:54-69 | for any order of arrivals the back of the vector is the least deadline and, among equals, the earliest arrival |
| `TimedCallList.InsertRefines` | application/CobaltFusion/Executor.cpp:39-43 | an insert into the vector is an arrival in the queue it stands for |
| `TimedCallList.PopRefines` | application/CobaltFusion/Executor.cpp:60-69 | a pop of the vector serves the queue's first due call, and a periodic one arrives again behind its equals |
| `TimedCallList.RemoveRefines` | application/CobaltFusion/Executor.cpp:45-52 | a removal from the vector is a removal from the queue |
| `GuiExecution.GuiExecutor.ResetTimer` | application/CobaltFusion/GuiExecutor.cpp:130-149 | with a clock reading in every round, the loop runs the callbacks of Serve in its order, leaves its remainder and arms the timer for the first of it |
| `GuiExecution.TimerIsForFirst` | application/CobaltFusion/GuiExecutor.cpp:143-147 | the timer is armed exactly if calls are left, for the whole milliseconds up to their least deadline |
| `GuiExecution.GuiExecutor.Schedule` | application/CobaltFusion/GuiExecutor.cpp:55-81 | a posted insert leaves only calls due later than the last clock reading |
| `GuiExecution.GuiExecutor.Cancel` | application/CobaltFusion/GuiExecutor.cpp:83-98 | the call is gone and did not run meanwhile |
| `GuiExecution.ServeIsDrain` | application/CobaltFusion/GuiExecutor.cpp:135-148 | whatever the clock does between the rounds, as long as it does not go back, the loop does what it would if the clock had stood at its last reading |
| `GuiExecution.ServeNotEarly` | application/CobaltFusion/GuiExecutor.cpp:137-142 | no callback runs before its deadline by the reading of its own round |
| `GuiExecution.ServeOrder` | application/CobaltFusion/GuiExecutor.cpp:135-148 | callbacks run in deadline order and whatever is left is due later than the last reading |
| `GuiExecution.EndsInTime` | application/CobaltFusion/GuiExecutor.cpp:135-148 | the loop ends if the clock stays within a limit for more rounds than runs are owed by then |
| `GuiExecution.DrainConserves` | application/CobaltFusion/GuiExecutor.cpp:130-149 | the callbacks run are exactly the runs owed by now, the calls left exactly what remains of each, as multisets |
| `GuiExecution.RunsPerCall` | application/CobaltFusion/GuiExecutor.cpp:134-142 | a due one-shot call runs once, a due periodic one floor((now - at) / interval) + 1 times |
| `GuiExecution.RunsAt` | application/CobaltFusion/Executor.cpp:60-69 | the k-th run owed of a call is due k intervals after its deadline |
| `GuiExecution.DrainOrder` | application/CobaltFusion/GuiExecutor.cpp:134-142 | callbacks run in non-decreasing order of deadline, none before it |
| `GuiExecution.DrainLeavesNoneDue` | application/CobaltFusion/GuiExecutor.cpp:134-148 | whatever is left is due later than now |
| `GuiExecution.DrainStep` | application/CobaltFusion/GuiExecutor.cpp:134-142 | each round of the loop lowers the number of runs still owed |
| `GuiExecution.CancelledNeverRuns` | application/CobaltFusion/GuiExecutor.cpp:83-98 | a cancelled call neither runs in the loop nor stays scheduled |
| `TimedExecution.TimedExecutor.CallAt` | application/CobaltFusion/Executor.cpp:203-210 | a fresh id is drawn and one insert posted; the invariant is kept |
| `TimedExecution.TimedExecutor.CallEvery` | application/CobaltFusion/Executor.cpp:217-226 | likewise for a periodic call |
| `TimedExecution.TimedExecutor.Cancel` | application/CobaltFusion/Executor.cpp:228-239 | removed at once on the executor thread, posted from any other |
| `TimedExecution.TimedExecutor.RunOne` | application/CobaltFusion/Executor.cpp:241-252 | a round takes one task from the front of the queue, or starts the due call after a time-out |
| `TimedExecution.TimedExecutor.Finish` | application/CobaltFusion/Executor.cpp:246-246 | the callback returns and the next round may begin |
| `TimedExecution.StepKeeps` | application/CobaltFusion/Executor.cpp:203-252 | every step of any thread keeps schedules, ids, queue order and start times consistent |
| `TimedExecution.RunKeeps` | application/CobaltFusion/Executor.cpp:203-252 | so every state of every interleaving is consistent |
| `TimedExecution.NoEarlyStart` | application/CobaltFusion/Executor.cpp:241-252 | over every run a one-shot call starts at most once and not before its deadline, the n-th start of a periodic call not before n intervals have passed since it was asked for |
| `TimedExecution.RequestIsKept` | application/CobaltFusion/Executor.cpp:203-226 | what a client asked for is queued as asked, and stays what it asked for in every later state |
| `TimedExecution.DueExactly` | application/CobaltFusion/Executor.cpp:203-252 | over every run, from the step that takes its insert on: a scheduled periodic call is after n starts due exactly n + 1 intervals after that step, a one-shot one exactly at its deadline, and it stays scheduled unless it is removed or has had its one start |
| `TimedExecution.CancelStopsCalls` | application/CobaltFusion/Executor.cpp:228-239 | once a Cancel from another thread has returned, the call never starts again |
| `TimedExecution.CancelTakesItsTurn` | application/CobaltFusion/Executor.cpp:228-239 | a Cancel posted from another thread waits for the tasks queued before it; once these and its own have been taken the call is dead |
| `TimedExecution.CancelHereWorksIff` | application/CobaltFusion/Executor.cpp:203-252 | over every run, Cancel on the executor thread stops the call for good exactly when its insert is not queued or a removal of it is queued too; otherwise the call is started if nobody cancels anything further |
| `TimedExecution.DoomedNeverStarts` | application/CobaltFusion/Executor.cpp:203-252 | a call that is dead, or whose queued removal comes before the next time-out, is never started in any continuation |
| `TimedExecution.ComesToStart` | application/CobaltFusion/Executor.cpp:241-252 | a call on its way with no removal queued is started if the executor goes on, at once if it is due and else without waiting beyond its deadline |
| `TimedExecution.SelfCancelStopsCalls` | application/CobaltFusion/Executor.cpp:231-234 | a callback that cancels its own periodic call is never run again |
| `TimedExecution.CancelBeforeInsertIsLost` | application/CobaltFusion/Executor.cpp:203-239 | a concrete run in which a call cancelled on the executor thread still starts |
| `TimedExecution.DeadNeverStarts` | application/CobaltFusion/Executor.cpp:203-252 | a call that is neither scheduled nor on its way stays so in every continuation |
| `Throttling.Throttle.constructor` | application/CobaltFusion/Throttle.cpp:14-20 | the delay is positive exactly up to 1000 calls per second |
| `Throttling.Throttle.Call` | application/CobaltFusion/Throttle.cpp:22-34 | the locked section: only an idle throttle schedules, and every call's time is remembered |
| `Throttling.Throttle.PendingCallReturned` | application/CobaltFusion/Throttle.cpp:36-51 | the locked section after the function: another round exactly if a call came in since the last scheduling |
| `Throttling.RunsAreSafe` | application/CobaltFusion/Throttle.cpp:22-51 | in every interleaving whose calls take the lock in order: the flag marks exactly one pending call, starts are at least delta apart, and an idle throttle owes no past call a start |
| `Throttling.AtomicCallInOrder` | application/CobaltFusion/Throttle.cpp:24-26 | a caller whose clock reading and locking are one step is always in order |
| `Throttling.AtomicRunsAreSafe` | application/CobaltFusion/Throttle.cpp:22-51 | so every interleaving of such callers keeps the three promises |
| `Throttling.OutOfOrderBreaks` | application/CobaltFusion/Throttle.cpp:24-41 | from any state that calls in order lead to, a call out of order can be continued, with no further call, to a state that breaks a promise |
| `Throttling.CallsInOrderIff` | application/CobaltFusion/Throttle.cpp:22-51 | over every run, all calls are in order exactly when no state of the run can be continued without further calls to one that breaks a promise |
| `Throttling.RateLimit` | application/CobaltFusion/Throttle.cpp:32-45 | any window of length t holds at most t / delta + 1 starts |
| `Throttling.ServedWithinDelta` | application/CobaltFusion/Throttle.cpp:32-45 | in every run of calls in order, a call with no start after it is followed by one no later than delta from now if the executor just goes on, and exactly delta after the last scheduling if the function is not running |
| `Throttling.StepKeeps` | application/CobaltFusion/Throttle.cpp:22-51 | every step of a caller in order, the clock or the executor keeps the invariant |
| `ProcessMonitoring.ProcessMonitor.Add` | application/DebugViewppLib/ProcessMonitor.cpp:31-37 | the process is queued and nothing else changes |
| `ProcessMonitoring.ProcessMonitor.Handles` | application/DebugViewppLib/ProcessMonitor.cpp:49-56 | the event first, then the handle of each slot of the window |
| `ProcessMonitoring.ProcessMonitor.Dispatch` | application/DebugViewppLib/ProcessMonitor.cpp:59-76 | a report names the process whose handle stood in the signalled slot; no remainder by zero is taken |
| `ProcessMonitoring.ProcessMonitor.Round` | application/DebugViewppLib/ProcessMonitor.cpp:47-77 | one pass of the loop is one step of the protocol |
| `ProcessMonitoring.SlotsDistinct` | application/DebugViewppLib/ProcessMonitor.cpp:52-56 | the slots of one window are distinct processes |
| `ProcessMonitoring.EveryProcessIsWaitedOn` | application/DebugViewppLib/ProcessMonitor.cpp:52-62 | without additions and exits every process is in one of any n / 63 (rounded up) consecutive windows |
| `ProcessMonitoring.RoundsAre` | application/DebugViewppLib/ProcessMonitor.cpp:52-52 | a window has at most 63 processes |
| `ProcessMonitoring.SwapRemoveConserves` | application/DebugViewppLib/ProcessMonitor.cpp:74-75 | swap-with-last removal loses the reported entry and no other, and moves only the last |
| `ProcessMonitoring.StepConserves` | application/DebugViewppLib/ProcessMonitor.cpp:59-76 | each step keeps added = queued + monitored + reported, as multisets |
| `ProcessMonitoring.RunConserves` | application/DebugViewppLib/ProcessMonitor.cpp:44-78 | so does every run |
| `ProcessMonitoring.EndsIff` | application/DebugViewppLib/ProcessMonitor.cpp:47-90 | over every run the loop is over exactly if its event has woken it up after an Abort |
| `PolledSources.VectorLineBuffer.Add` | application/DebugViewppLib/VectorLineBuffer.cpp:17-27 | the line is appended |
| `PolledSources.VectorLineBuffer.GetLines` | application/DebugViewppLib/VectorLineBuffer.cpp:30-39 | everything added since the last call, in order, and nothing is kept |
| `PolledSources.PolledLogSource.Signal` | application/DebugViewppLib/PolledLogSource.cpp:160-167 | the event is set if lines are waiting and never reset |
| `PolledSources.PolledLogSource.Notify` | application/DebugViewppLib/PolledLogSource.cpp:105-129 | every collected line reaches the line buffer once, in order, with its message, its handle or its process, and its own times or else those of the clock at its turn |
| `PolledSources.NotifyIsSteps` | application/DebugViewppLib/PolledLogSource.cpp:105-129 | the steps of Notify, undisturbed, do to lines and buffer what the method does |
| `PolledSources.StepKeeps` | application/DebugViewppLib/PolledLogSource.cpp:74-167 | every step of producers, notifier and consumer keeps order and wake-ups |
| `PolledSources.DeliveredOnceInOrder` | application/DebugViewppLib/PolledLogSource.cpp:85-167 | in every interleaving GetLines has returned the first messages added, once each, in order, with message, origin and own times unchanged, the line buffer holds the next ones, the source the rest in order, and no wake-up is lost |
| `PolledSources.AbortLeavesNothing` | application/DebugViewppLib/PolledLogSource.cpp:74-83 | after Abort everything the polling thread added has reached the line buffer in order |
| `DBWin.SharedBuffer.Write` | application/DebugViewppLib/DBWinWriter.cpp:21-35 | the buffer holds the process id and the text, cut and terminated, the rest of it untouched; without BUFFER_READY nothing changes |
| `DBWin.SharedBuffer.Notify` | application/DebugViewppLib/DBWinReader.cpp:56-91 | one entry with the text up to the first NUL and the sender's kind of name, and the buffer is free again |
| `DBWin.SharedBuffer.Pass` | application/DebugViewppLib/DBWinWriter.cpp:21-35 | a write followed by a read delivers the message, cut at 4091 bytes and at the first NUL |
| `DBWin.EntryOf` | application/DebugViewppLib/DBWinReader.cpp:59-90 | the first five process ids have their system names, others a handle or else one common name; pid and text are the message's |
| `DBWin.CutLength` | application/DebugViewppLib/DBWinWriter.cpp:30-30 | at most 4091 bytes are written, and fewer only of a shorter message |
| `DBWin.SharedBuffer.constructor` | application/DebugViewppLib/DBWinReader.cpp:34-49 | only BUFFER_READY is set at the start |
| `DBWin.WriteIsSteps` | application/DebugViewppLib/DBWinWriter.cpp:21-35 | a writer's steps, undisturbed, do to events, process id and data what the method does |
| `DBWin.NotifyIsSteps` | application/DebugViewppLib/DBWinReader.cpp:58-91 | the reader's steps, undisturbed, add the line the method adds and free the buffer |
| `DBWin.HoldsText` | application/DebugViewppLib/DBWinWriter.cpp:28-32 | what a reader finds in the buffer is what a writer put there, as received |
| `DBWin.ArrivesWholeIff` | application/DebugViewppLib/DBWinWriter.cpp:30-32 | a message arrives whole exactly when it is shorter than the data part and holds no NUL |
| `DBWin.StepKeepsIff` | application/DebugViewppLib/DBWinReader.cpp:38-48 | a step keeps the invariant that exactly one of the two events, one filling writer or the reader owns the buffer; the second set of BUFFER_READY does exactly if the event is still set |
| `DBWin.RunKeeps` | application/DebugViewppLib/DBWinReader.cpp:34-91 | so every run has exactly one owner of the buffer in every state |
| `DBWin.ReadOnceInOrder` | application/DebugViewppLib/DBWinReader.cpp:58-91 | over every run the lines are the messages written, each once and in write order, at most the last one still to be read |
| `DBWin.NeverOverwritten` | application/DebugViewppLib/DBWinWriter.cpp:28-32 | a step changes the buffer only when every message signalled has been read and nobody else uses it |
| `DBWin.SecondSetIff` | application/DebugViewppLib/DBWinReader.cpp:34-91 | over every run that comes to the second set: the lines stay the messages written, in order and each once, in all continuations exactly if BUFFER_READY is still set; otherwise a continuation destroys an unread message |
| `DBWin.LateSetOverlaps` | application/DebugViewppLib/DBWinReader.cpp:48-48 | a second set that comes too late lets two writers fill the buffer at once |
| `IndexedStorages.SnappyStorage.Add` | application/IndexedStorageLib/IndexedStorage.cpp:66-79 | the index returned is the number of strings stored before |
| `IndexedStorages.SnappyStorage.GetString` | application/IndexedStorageLib/IndexedStorage.cpp:101-117 | the string stored at the index, be it in the write list, the cached block or a cold one; the cache stays the decoded block it names |
| `IndexedStorages.SnappyStorage.Compress` | application/IndexedStorageLib/IndexedStorage.cpp:119-133 | each string followed by a NUL, compressed |
| `IndexedStorages.SnappyStorage.Decompress` | application/IndexedStorageLib/IndexedStorage.cpp:135-150 | the texts between the NULs, without leaving the data |
| `IndexedStorages.SnappyStorage.Clear` | application/IndexedStorageLib/IndexedStorage.cpp:52-64 | an empty store with no cached block |
| `IndexedStorages.DecodesIff` | application/IndexedStorageLib/IndexedStorage.cpp:119-150 | decompressing gives a block back exactly when no string of it holds a NUL, and never fewer strings |
| `IndexedStorages.ReadBackIff` | application/IndexedStorageLib/IndexedStorage.cpp:101-117 | every index reads back its string exactly when no string in a full block holds a NUL |
| `IndexedStorages.AnswerBoth` | application/IndexedStorageLib/IndexedStorage.cpp:26-117 | for NUL-free strings both stores answer alike over any interleaving of additions and reads |
| `LogFiles.ProcessInfo.GetUid` | application/DebugViewppLib/ProcessInfo.cpp:104-119 | one uid per pair of pid and name, a new one only for a new pair, earlier ones unchanged |
| `LogFiles.LogFile.Add` | application/DebugViewppLib/LogFile.cpp:38-43 | the log is the sequence of messages added, and earlier entries keep their colour |
| `LogFiles.LogFile.Get` | application/DebugViewppLib/LogFile.cpp:60-65 | through the uid kept for it, time, system time, pid, process name and text of the i-th message added |
| `LogFiles.LogFile.Append` | application/DebugViewppLib/LogFile.cpp:77-83 | the messages from beginIndex to endIndex, both included, are copied one by one as the log reads them, also from the log to itself; NUL-free ones exactly as they are |
| `LogFiles.LogFile.Clear` | application/DebugViewppLib/LogFile.cpp:29-36 | an empty log whose parts agree |
| `LogFiles.LogFile.SameUidIff` | application/DebugViewppLib/ProcessInfo.cpp:104-119 | two messages share a uid exactly when pid and name are equal, and then their colour |
| `Filters.IsIncluded` | application/DebugViewppLib/Filter.cpp:114-166 | the verdict in terms of which filters are found, and Once filters found are marked unless the text is excluded |
| `Filters.MatchFilterType` | application/DebugViewppLib/Filter.cpp:168-177 | whether an enabled filter of the type is found |
| `Filters.IncludedOverRuns` | application/DebugViewppLib/Filter.cpp:114-166 | over every run of texts one is included exactly if no enabled Exclude filter is found in it and, with an enabled Include filter about, one of those is, or a Once filter that no earlier text that was not excluded has used up |
| `Filters.AfterMarks` | application/DebugViewppLib/Filter.cpp:158-162 | a run of texts only marks filters, namely the Once filters it uses up |
| `Filters.HushIsNeutral` | application/DebugViewppLib/Filter.cpp:114-166 | disabling Track filters changes no verdict and commutes with the marking of Once filters |
| `Filters.HushHits` | application/DebugViewpp/LogView.cpp:1576-1594 | stopping disables every Track filter and no other |
| `Filters.ResetForgets` | application/DebugViewpp/LogView.cpp:2041-2058 | a reset takes back all that verdicts left behind |
| `LogViews.IsMessageIncluded` | application/DebugViewpp/LogView.cpp:2173-2177 | process filters decide first, and only then message filters are asked and marked |
| `LogViews.VerdictOfBoth` | application/DebugViewpp/LogView.cpp:2173-2177 | a message is shown exactly if both filter lists include it, and the message filters are marked only by messages of an included process |
| `LogViews.ShownIff` | application/DebugViewpp/LogView.cpp:2078-2097 | a line is shown exactly if it is in range and both lists, as the lines before left them, include it |
| `LogViews.FiltersLeft` | application/DebugViewpp/LogView.cpp:2078-2097 | those lists are left as by a run of all process names before, and of the texts of the included processes |
| `LogViews.LogView.Clear` | application/DebugViewpp/LogView.cpp:1455-1468 | an empty view that starts behind the log, with fresh filters |
| `LogViews.LogView.ResetFilters` | application/DebugViewpp/LogView.cpp:2041-2058 | every Once filter counts as not yet found |
| `LogViews.LogView.Add` | application/DebugViewpp/LogView.cpp:1487-1535 | one message: the lines with their bookmarks, the filters, and whether scrolling goes on, stops or is to stop, clearing and excluded messages included |
| `LogViews.BelowIff` | application/DebugViewpp/LogView.cpp:1506-1511 | exactly the lines before the log's begin are erased |
| `LogViews.MarkedIff` | application/DebugViewpp/LogView.cpp:2179-2184 | bookmark, Stop and Track are decided by any enabled filter of the type found in the text or, for process filters, in the process name |
| `LogViews.ClearsIff` | application/DebugViewpp/LogView.cpp:1489-1492 | only an enabled Clear filter among the message filters clears the view |
| `LogViews.LogView.EndUpdate` | application/DebugViewpp/LogView.cpp:1576-1594 | a deferred stop disables Track filters and leaves the lines alone |
| `LogViews.LogView.GetBookmarks` | application/DebugViewpp/LogView.cpp:2028-2039 | the lines bookmarked, in order |
| `LogViews.LogView.ApplyFilters` | application/DebugViewpp/LogView.cpp:2060-2104 | the list is what the filters let through from the first line on, the bookmarks kept are the longest prefix all of whose lines are shown, and the focus goes to the last line not after the focused one |
| `LogViews.LogView.SetFocusLine` | application/DebugViewpp/LogView.cpp:1481-1485 | binary search finds the same item the scan of ApplyFilters does: the last line not after the given one, or none |
| `LogViews.LogView.FindLine` | application/DebugViewpp/LogView.cpp:1778-1813 | the first match in cyclic order from the focused line, -1 exactly if no line matches |
| `LogViews.VisitedInTurn` | application/DebugViewpp/LogView.cpp:1793-1810 | lines are looked at in steps of one, modulo their number |
| `LogViews.FocusItemUnique` | application/DebugViewpp/LogView.cpp:1481-1485 | there is only one such item, so scan and search agree |
| `LogViews.AddKeepsInStep` | application/DebugViewpp/LogView.cpp:1487-1535 | without Clear filters an incremental Add gives what a recomputation would, Once filters included |
| `LogViews.HushKeepsInStep` | application/DebugViewpp/LogView.cpp:1576-1594 | disabling Track filters in between does not matter |
| `LogViews.RecomputedIsInStep` | application/DebugViewpp/LogView.cpp:2060-2104 | recomputing, or clearing, starts a view that agrees with the log |
| `LogViews.RunsStayInStep` | application/DebugViewpp/LogView.cpp:1487-1535 | over any run of messages, scroll stops, changes to filters without Clear and clearings by the user, the view shows what recomputing would, in increasing order of line |
| `LogViews.ClearingLineStays` | application/DebugViewpp/LogView.cpp:1489-1517 | after a Clear filter fired the view is in step with its recomputation exactly when the clearing line is filtered out and no enabled Once filter is found in a text of it that is looked at and not excluded |
| `LogViews.AfterClearingLine` | application/DebugViewpp/LogView.cpp:1487-1535 | from then on the view is the clearing line, if shown, then what the filters it left let through of the later messages |
| `LogViews.RunsShowSinceClear` | application/DebugViewpp/LogView.cpp:1487-1535 | the same over every run of messages, scroll stops, filter changes and clearings, counted from where the view last started anew |
| `LogViews.RunsStaySound` | application/DebugViewpp/LogView.cpp:1487-1535 | over every run, Clear filters included, the lines increase strictly and lie within the log, as ApplyFilters and SetFocusLine need |
| `LogViews.BookmarkSurvivesIff` | application/DebugViewpp/LogView.cpp:2069-2095 | a bookmark survives exactly when its line and those of all earlier bookmarks are still shown |
| `LogViews.Scan` | application/DebugViewpp/LogView.cpp:2069-2097 | the loop computes list, filters and focus as ScanTo does line by line |
| `LogViews.ScanDone` | application/DebugViewpp/LogView.cpp:2069-2097 | of the finished scan: list and filters are the recomputation, the bookmarks are the surviving prefix, the focus is the last line not after the focused one |
| `LogViews.ShownIncreasing` | application/DebugViewpp/LogView.cpp:2078-2097 | a recomputed list is strictly increasing and stays within the log |
| `MatchTypes.MakeSimplePattern` | application/DebugViewppLib/MatchType.cpp:35-47 | the loop appends one escaped character per character |
| `MatchTypes.MakeWildcardPattern` | application/DebugViewppLib/MatchType.cpp:49-68 | the loop appends one piece per character |
| `MatchTypes.MakePattern` | application/DebugViewppLib/MatchType.cpp:70-82 | regular expressions are passed on as they are |
| `MatchTypes.SpecialIffReserved` | application/DebugViewppLib/MatchType.cpp:13-33 | exactly the characters section 15.10.1 of ECMA-262 (3rd edition) reserves are escaped |
| `MatchTypes.WellFormedIff` | application/DebugViewppLib/MatchType.cpp:13-68 | the pattern reads as one literal, `.?` or `.*` per character, with no lazy quantifier, class or other escape; to the letter of the standard exactly when the text has no dollar sign |
| `MatchTypes.WildcardPreservesMeaning` | application/DebugViewppLib/MatchType.cpp:49-68 | the language of the pattern is the wildcard's: `?` at most one character, `*` any run within a line |
| `MatchTypes.SimplePreservesMeaning` | application/DebugViewppLib/MatchType.cpp:35-47 | the simple pattern matches the text and nothing else |
| `MatchTypes.SimpleSearchIsContains` | application/DebugViewppLib/MatchType.cpp:35-47 | so searching for it is searching for a substring |
| `MatchTypes.TranslationInjective` | application/DebugViewppLib/MatchType.cpp:35-68 | different texts give different patterns |
| `FileIO.TabSplitter.GetNext` | application/DebugViewppLib/FileIO.cpp:29-35 | the text up to the next tab, and the position behind it |
| `FileIO.TabSplitter.GetTail` | application/DebugViewppLib/FileIO.cpp:37-40 | all that is left, tabs included |
| `FileIO.ReadLogFileMessage` | application/DebugViewppLib/FileIO.cpp:305-321 | the fields read before an exception are kept, and its text takes the place of the message |
| `FileIO.ParseOutcome` | application/DebugViewppLib/FileIO.cpp:305-321 | which columns cause an exception, which fields are read before it, and that its text and the line take the place of the message |
| `FileIO.TimeStampIff` | application/DebugViewppLib/FileIO.cpp:57-60 | a second column without a slash (or sign) is read exactly if it is a decimal number of 64 bits |
| `FileIO.DateNeverFails` | application/DebugViewppLib/FileIO.cpp:63-79 | one with a slash is the date it says, or the epoch |
| `FileIO.PidIff` | application/DebugViewppLib/FileIO.cpp:312-312 | a process id is read back exactly if it fits 32 bits |
| `FileIO.WriteLogFileMessage` | application/DebugViewppLib/FileIO.cpp:348-352 | one line is appended, its message trimmed on the right |
| `FileIO.WrittenColumns` | application/DebugViewppLib/FileIO.cpp:348-352 | the columns of a written line are offset, date and time, process id, name and message, in this order |
| `FileIO.DateTimeFormat` | application/DebugViewppLib/Conversions.cpp:41-48 | year, month and day of four, two and two digits, a blank, and the time |
| `FileIO.TimeFormat` | application/DebugViewppLib/Conversions.cpp:41-48 | hour, minute and second of two digits each, and three digits of milliseconds |
| `FileIO.TrimIs` | application/DebugViewppLib/FileIO.cpp:350-350 | trimming takes off the longest run of blanks, tabs and line ends at the end, and nothing else |
| `FileIO.PaddedValue` | application/DebugViewppLib/Conversions.cpp:41-48 | a padded number reads back as the number and has at least its width |
| `FileIO.OffsetRoundTrip` | application/DebugViewppLib/FileIO.cpp:341-346 | a time in whole microseconds, negative ones included, reads back exactly |
| `FileIO.DateTimeRoundTrip` | application/DebugViewppLib/FileIO.cpp:63-79 | every date and time of 16 bit fields reads back from its text |
| `FileIO.ReadingBack` | application/DebugViewppLib/FileIO.cpp:305-321 | whatever name and message are, the three numeric columns come back |
| `FileIO.RoundTripIff` | application/DebugViewppLib/FileIO.cpp:305-352 | reading a written line gives every field back, the message trimmed, exactly when the name holds no tab or line end and the trimmed message no line end |
| `PipeReading.PipeReader.Poll` | application/DebugViewppLib/PipeReader.cpp:37-67 | messages and remainder are those of the byte-at-a-time splitting of all bytes read |
| `PipeReading.PipeReader.ScanRead` | application/DebugViewppLib/PipeReader.cpp:49-63 | the same for one read, scanned and moved to the front in place |
| `PipeReading.ChunkingIrrelevant` | application/DebugViewppLib/PipeReader.cpp:37-67 | two divisions of one stream into reads and polls give the same messages and remainder |
| `PipeReading.PollsAreOneStream` | application/DebugViewppLib/PipeReader.cpp:37-67 | any polls together are one splitting of the whole stream |
| `PipeReading.FeedTidy` | application/DebugViewppLib/PipeReader.cpp:54-66 | a remainder holds no delimiter and at most 4001 bytes |
| `PipeReading.TidyIs` | application/DebugViewppLib/PipeReader.cpp:56-56 | such a remainder is one of at most 4001 bytes without NUL and newline |
| `PipeReading.ShortReadsFit` | application/DebugViewppLib/PipeReader.cpp:47-49 | at least 95 bytes are free before every read |
| `PipeReading.EveryByteAccounted` | application/DebugViewppLib/PipeReader.cpp:54-66 | every byte is in a message, in the remainder, or is the one consumed at a cut, and cuts are made only at delimiters and behind 4001 bytes |
| `NewlineFilters.NewlineFilter.Process` | application/DebugViewppLib/NewlineFilter.cpp:15-48 | the loop is one step of the splitting on values: lines out, and the process's pending text |
| `NewlineFilters.NewlineFilter.FlushLinesFromTerminatedProcess` | application/DebugViewppLib/NewlineFilter.cpp:50-63 | the pending text comes out as one line if there is any, and the process is forgotten |
| `NewlineFilters.PrintGives` | application/DebugViewppLib/NewlineFilter.cpp:19-47 | one print gives the lines it completes, then the unfinished text as a line of its own exactly if the source ends lines itself or it is over 8192 characters, else it stays pending; each line keeps the times, process and source |
| `NewlineFilters.ExitGives` | application/DebugViewppLib/NewlineFilter.cpp:50-63 | one exit gives the unfinished text, if there is any, as one flush line of that process, and touches no other |
| `NewlineFilters.RunConserves` | application/DebugViewppLib/NewlineFilter.cpp:15-63 | per process and over any interleaving, emitted plus pending text is the text printed without line ends |
| `NewlineFilters.StepKeeps` | application/DebugViewppLib/NewlineFilter.cpp:38-46 | lines hold no line end, pending text is at most 8192 characters, and empty after a source that ends lines itself |
| `NewlineFilters.RunKeeps` | application/DebugViewppLib/NewlineFilter.cpp:15-63 | so over every run |
| `NewlineFilters.FeedAppend` | application/DebugViewppLib/NewlineFilter.cpp:21-36 | cutting the text anywhere makes no difference |
| `NewlineFilters.FeedSplits` | application/DebugViewppLib/NewlineFilter.cpp:21-36 | with the newlines put back the lines are the text, carriage returns aside: one line per newline |
| `NewlineFilters.RunMessages` | application/DebugViewppLib/NewlineFilter.cpp:15-63 | one line per newline and per cut of unfinished text; without cuts the lines do not depend on chunks or other processes |
| `NewlineFilters.LinesIff` | application/DebugViewppLib/NewlineFilter.cpp:15-63 | the lines are exactly the newline-terminated ones if and only if nothing cut them |
| `NewlineFilters.LinesAreWholeIff` | application/DebugViewppLib/NewlineFilter.cpp:15-63 | over every run the lines are those the whole text completes if and only if the text is unfinished after a print only within 8192 characters and from a source that does not end lines itself, and finished at an exit |
| `NewlineFilters.ProcessesAreIndependent` | application/DebugViewppLib/NewlineFilter.cpp:15-63 | a process's lines, time stamps and all, are those of a run in which it is alone |
| `ViewPorts.Increase` | application/DebugViewpp/CLogViewTabItem2.cpp:106-118 | the loop finds the leading digit that decides the step up |
| `ViewPorts.Decrease` | application/DebugViewpp/CLogViewTabItem2.cpp:120-132 | the same for the step down |
| `ViewPorts.StepsAlongRungs` | application/DebugViewpp/CLogViewTabItem2.cpp:105-132 | on 1, 2, 5, 10, 20, 50, ... a step leads to the next value up or down, or stays at 1 |
| `ViewPorts.RungIs` | application/DebugViewpp/CLogViewTabItem2.cpp:105-105 | these values are 1, 2 or 5 times a power of ten |
| `ViewPorts.DecreaseUndoesIncrease` | application/DebugViewpp/CLogViewTabItem2.cpp:106-132 | a step down undoes a step up |
| `ViewPorts.IncreaseUndoesDecreaseIff` | application/DebugViewpp/CLogViewTabItem2.cpp:106-132 | a step up undoes a step down exactly above one nanosecond |
| `ViewPorts.ViewPort.ZoomInTo` | application/DebugViewpp/CLogViewTabItem2.cpp:140-147 | one zoom in on values |
| `ViewPorts.ViewPort.ZoomOut` | application/DebugViewpp/CLogViewTabItem2.cpp:149-156 | one zoom out on values |
| `ViewPorts.ViewPort.PixelRoundTrip` | application/DebugViewpp/CLogViewTabItem2.cpp:64-87 | ToPx undoes ToTimePoint for pixels from 0 on |
| `ViewPorts.ViewPort.PixelHolds` | application/DebugViewpp/CLogViewTabItem2.cpp:64-87 | a time falls into the pixel ToPx gives |
| `ViewPorts.CursorStays` | application/DebugViewpp/CLogViewTabItem2.cpp:140-156 | a zoom leaves the time under the cursor where it is, for any unit |
| `ViewPorts.StartIsOnRungs` | application/DebugViewpp/CLogViewTabItem2.cpp:140-176 | from 500 microseconds every unit any sequence of zooms reaches is 1, 2 or 5 times a power of ten |
| `ViewPorts.RunStaysOnRungs` | application/DebugViewpp/CLogViewTabItem2.cpp:140-156 | which unit is reached depends only on the directions zoomed |
| `ViewPorts.RunAtOnePixel` | application/DebugViewpp/CLogViewTabItem2.cpp:140-156 | zooms at one pixel that come back to the first unit come back to the first viewport |
| `ViewPorts.UndoRestoresIff` | application/DebugViewpp/CLogViewTabItem2.cpp:140-156 | the opposite zooms played backwards, at whatever pixels, restore the viewport exactly when no zoom was one in from a nanosecond |

## Left out

- Windows, dialogs, drawing, scrolling to an item, the registry, the clipboard and access control lists: calls into the system.
- Drivers, sockets, file tailing and the other log file formats: they would add easy members only.
- CircularBuffer and ScopedScheduledCall: a ring buffer and a destructor that cancels.
- Filters.IsIncluded: does not model match colours. A disabled Track filter with an automatic colour stops adding colour keys, so colours, unlike lines, may depend on when scrolling stopped.
- MatchTypes.SimpleSearchIsContains: stands for the regular expression engine only on the patterns the translation makes; for filters the engine is an arbitrary predicate, and case folding an arbitrary function on characters.
- GuiExecution.GuiExecutor.ResetTimer: the clock does not go back, and callbacks do not touch the scheduler or throw. A loop that never ends, since a callback takes longer than its interval, has no result and is not described.
- TimedExecution.TimedExecutor.RunOne: the wait for a task or a deadline is a parameter; it times out only at or after the deadline and with an empty queue. Client tasks are opaque.
- Call ids are unbounded: the wrap-around of the 32 bit counter is not modelled.
- ProcessMonitoring.EveryProcessIsWaitedOn: does not model additions and exits between windows, which shift the list.
- PolledSources.AbortLeavesNothing: does not model a notification that runs while Abort does; the source has no protection against it.
- DBWin.ReadOnceInOrder: assumes that BUFFER_READY is still set when the constructor sets it again; SecondSetIff and LateSetOverlaps are about the other case. Finding the name of a process from its handle is not part of this model.
- IndexedStorages: Count and Empty of the compressing store count blocks rather than strings and are not used for strings.
- LogFiles.LogFile.Add: the random colour of a new process is a parameter. The history size is stored and never used.
- LogViews.LogView.Add: does not model the beep and the deferred scrolling to a tracked line.
- The main window's collection of lines into update rounds drops the line that closes a round; it is not part of this model.
- FileIO.ReadLogFileMessage: numbers are plain decimal. Exponents, hexadecimal, infinities and signs that the library functions also accept are not modelled, nor is rounding in times finer than a microsecond or the line end translation of text files.
- FileIO.TimeStampIff: does not model a sign in front of the digits, which the library function also accepts.
- FileIO.RoundTripIff: assumes that the system's conversions return the file time they were given, as they do for whole milliseconds.
- NewlineFilters.NewlineFilter.Process: works on a copy of the pending text that is put back at the end, where the source works on a reference into its map.
- ViewPorts: pixels and nanoseconds are unbounded; the formatting of durations is left out.
