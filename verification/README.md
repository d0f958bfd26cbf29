# Verified model of the build platform's runtime

The repository runs AI-generated applications: a process monitor inside a container supervises a
child process, collects its output and errors, and shares a log file with a command-line tool; an
SDK follows a build session over a reconnecting WebSocket and keeps its state. This project models
the stateful parts of both and proves what they keep over all their executions.

## What is modelled

- **The lock file** (`FileLocking`): any number of contenders, each in the monitor's or the
  command-line tool's acquire loop, interleaved between every two file-system calls, with time
  passing between any two steps and contenders that may die; `LockProgress` for what a contender gets
  done.
- **The log file** (`LogReset`): unlocked appends interleaved with resets of both kinds.
- **The supervisor** (`Supervisor`, and `ProcessMonitoring` with the object updated in place): start,
  stop, the restart timer and its callback, deaths of children and the delivery of their exits. Every
  await ends a step. `SingleChild`, `StopHolds`, `TerminalEvents`, `Restarts` and `RestartCycle` hold
  its theorems.
- **Output reading** (`StreamReader`): the ring buffer, and line buffering of two chunked streams with
  flushes and restarts.
- **The WebSocket client** (`Connection` as a step system, `AgentClient` with the variables updated in
  place, `Delivery` and `SendingOrder` for its messages, `Reconnecting` for its persistence). Every
  notification may call `send` and `close` again while it is being delivered.
- **The session's open handlers** (`Session`) over the typed emitter (`Emitter`, whose callbacks may
  change the lists being gone through), also after the session has let go of the connection.
- **Backoff and HTTP retries** (`Backoff`, `HttpRetry`).
- **The phase timeline** (`Timeline`): the message reducer and the change events derived from it;
  `TimelineContents` for what each message puts into it.
- **The file tree** (`FileTree`): a heap of directory objects filled path by path, then sorted;
  `TreePaths` for the paths as they are written.
- **NDJSON streaming** (`Ndjson`), **the error store** (`ErrorStore`), **the log store** (`LogStore`, and
  `LogPages` for pages read while it is written) and **the conversation migration** (`Migration`, and `Chronology`
  for the order by ids).

`Text`, `Sorting`, `Sequences` and `Wrappers` hold what several of these need. Where the source
changes state step by step, a class or method does the same, and its contract ties it to a function
on values about which the properties are proved. Files verify together through `dfyconfig.toml`.

## Findings

Nine things the code or its comments suggest hold only under a condition, which is proved to be exact
for the first eight; the ninth is an edge case of an argument.

1. The lock is mutually exclusive in all schedules exactly when no contender dies and the longest hold
   and the longest delay between reading a lock file and comparing its time stamp together fit into
   30 seconds (`FileLocking.LockIsSafeExactlyWhen`). Holding for less than 30 seconds is not enough: a
   contender that reads an old lock and is slow to decide removes the next holder's fresh lock. And
   two contenders that both found a dead holder's lock stale can both end up holding it
   (`FileLocking.DeadHolderLetsTwoIn`).
2. The command-line tool's reset loses the lines appended between its rename and its recreation of
   the file, and is exact otherwise (`LogReset.LogIsConservedExactlyWhen`,
   `LogReset.CliResetCanLose`); the monitor's reset loses lines only when the renamed copy cannot be
   read.
3. A reconnect timer is armed behind `close()` exactly when `close()` is called from inside the
   `ws:reconnecting` notification, and not again from the close notification of the same socket error
   (`Connection.NoTimerAfterCloseExactlyWhen`). Such a timer fires without effect
   (`Connection.ClosedClientWindsDown`). A URL fetch in flight at `close()` still becomes a socket
   afterwards.
4. A stop is final exactly when, at the moment it changes the state, no restart callback is between its
   state check and its `start()` and no `start()` is on its way to the spawn
   (`StopHolds.StopHoldsExactlyWhen`). Starts get in because `stop()` tests the state, awaits a log
   line, and then sets the state without testing it again.
5. The end of one child is announced twice, child by child, in exactly two ways: a stop gets to its
   state change when the child it would kill has had its end, by its exit or by another stop; or the
   child's exit gets to the announcing branch of the exit handler after a stop has announced it
   (`TerminalEvents.StoppedOnceExactlyWhen`). A clean exit during `stop()`'s first await is of the first
   kind (`TerminalEvents.ExitDuringStopIsAnnouncedTwice`), also when a start comes in between
   (`TerminalEvents.OvertakenStopIsAnnouncedTwice`); a kill that times out and a start before the exit
   arrives are of the second (`TerminalEvents.LateExitIsAnnouncedTwice`), which one start, one stop and one
   more start reach with a single child (`TerminalEvents.OneChildEndsTwice`). Each entry into `stopped`,
   other than by a failed start, is announced exactly once (`TerminalEvents.EveryStopIsAnnounced`).
6. At most one child is unreaped exactly when every accepted start finds all exits delivered and no
   other start on its way to a spawn (`SingleChild.OneChildExactlyWhen`). For one start and everything
   that can follow it without new stop requests, with later starts waiting for exits, the exact
   condition is that all exits are delivered, no other start is under way and no stop is between its
   guards and its state change (`SingleChild.StartIsSafeExactlyWhen`). A kill that times out, and a
   start accepted while a stop waits, each break it (`SingleChild.LateExitAllowsTwoChildren`,
   `SingleChild.StopRaceAllowsTwoChildren`); and once stops may be requested afterwards, no condition
   on one start is enough (`SingleChild.PromptStartsAreNotEnough`).
7. `session_init` precedes every queued command on a new socket exactly when the session has not been
   closed before that socket opens; a session closed during the URL fetch leaves a socket open without
   it (`Session.ClosedSessionOpensBare`). It then comes first of all exactly when listeners for all
   events and listeners of the connection state send nothing before it, or the same message
   (`Session.SessionInitPrecedesQueue`).
8. Messages of a kind are handed over and queued in the order they were sent exactly when no socket opens
   whose listeners send messages of that kind while others of it are queued and survive the open
   (`SendingOrder.OrderIsKeptExactlyWhen`, for distinct messages of any kind;
   `SendingOrder.OpenListenerOvertakes` is a run in which one overtakes another). So what open listeners
   do not send keeps its order in every run (`SendingOrder.UnsentOnOpenKeepsOrder`), as do the commands
   of every session, although session_init and the state request overtake them
   (`Session.CommandsKeepOrder`).
9. `getRecentLogs(0)` returns all buffered lines (`StreamReader.LineReader.GetRecentLogs`).

## Model

| member | source | states |
|---|---|---|
| FileLocking.LockIsSafeExactlyWhen | container/process-monitor.ts:121-162 | In every interleaving of any number of contenders at most one holds and the lock file on disk is the holder's own, if and only if no contender dies and longest hold plus longest read-to-decision delay is at most the stale limit |
| FileLocking.RunKeepsInv | container/cli-tools.ts:809-846 | Under that bound and without deaths, with both kinds of contenders mixed, nobody ever gets as far as unlinking a lock as stale and an existing lock file always belongs to a current holder |
| FileLocking.DeadHolderLetsTwoIn | container/process-monitor.ts:136-139 | However short holds and delays are, two contenders that found a dead holder's lock stale can both end up holding |
| FileLocking.OverlapIsReachable | container/process-monitor.ts:130-145 | Beyond the bound a schedule of three contenders ends with two holders |
| FileLocking.AcquireEnds | container/process-monitor.ts:121-152 | Whatever the others do, one acquire takes at most 40 steps of its own and at most ten exclusive creates, and gives up for lack of attempts only after exactly ten |
| LockProgress.FreeLockIsTaken | container/process-monitor.ts:124-128 | A contender that finds no lock file holds the lock after its first create, with its own stamp in the file, and leaves no file behind on release |
| LockProgress.StaleExactlyWhen | container/process-monitor.ts:130-145 | A round that finds a lock file goes on to unlink it if and only if its stamp is more than 30000 ms old when it is compared, and otherwise waits |
| LockProgress.StaleLockIsTakenOver | container/process-monitor.ts:121-152 | A lock left behind for more than 30 seconds is cleared away and held after the second create |
| LockProgress.FreshLockIsRespected | container/cli-tools.ts:809-846 | A contender that keeps finding a fresh lock is refused after ten rounds, and the file is untouched |
| LockProgress.OtherFailuresEndIt | container/cli-tools.ts:809-837 | A create that fails otherwise makes the monitor throw and the tool give up |
| LogReset.StepAccounts | container/process-monitor.ts:180-258 | An append adds exactly its entry to what resets have taken plus what is in the file; every other step keeps that account, except a recreate that overwrites entries and a copy that cannot be read |
| LogReset.LogIsConservedExactlyWhen | container/cli-tools.ts:855-880 | For any mix of resets, the collected logs in rename order followed by the file equal the appended entries in order, if and only if no command-line recreate meets entries appended since its rename and no copy with entries fails to be read |
| LogReset.MonitorResetConservesLog | container/process-monitor.ts:210-258 | With the monitor's resets only, nothing is lost, doubled or reordered in any interleaving, if and only if every renamed copy with entries can be read |
| LogReset.CliResetCanLose | container/cli-tools.ts:858-866 | A concrete run in which the command-line reset loses an entry |
| LogReset.ResetReturnsTheLog | container/process-monitor.ts:210-258 | A reset returns all that was in the file when it began; an entry appended before the file is recreated stays in it when the monitor resets and is gone when the tool does |
| SingleChild.OneChildExactlyWhen | container/process-monitor.ts:383-498 | In every run at most one child is unreaped at every moment, however the starts under way go on, if and only if each accepted start finds all exits delivered and no other start on its way to a spawn |
| SingleChild.StartIsSafeExactlyWhen | container/process-monitor.ts:383-393 | For every state that accepts a start: all that follows it, with later starts waiting for exits and no new stop request, keeps one child, if and only if all exits are delivered, no other start is under way and no stop is between guards and state change |
| SingleChild.PromptStartsAreNotEnough | container/process-monitor.ts:513-532 | From every such safe start a run with a later stop request, in which each accepted start finds all exits delivered, leads to two children |
| SingleChild.LateExitAllowsTwoChildren | container/process-monitor.ts:550-561 | A stop whose kill times out, and then a start, make two children possible |
| SingleChild.StopRaceAllowsTwoChildren | container/process-monitor.ts:525-532 | A start accepted during stop()'s first await, and one after the stop, make two children possible with every exit delivered |
| StopHolds.StopHoldsExactlyWhen | container/process-monitor.ts:528-552 | When a stop reaches its state change: nothing is spawned from then on until the caller starts, if and only if no restart callback and no start is under way then |
| TerminalEvents.EveryStopIsAnnounced | container/process-monitor.ts:560-576 | In every run and for every child, the entries into stopped at its end are as many as the process_stopped emitted for it and those stop() is about to emit; stopped is entered at an end or by a failed start only, crashed only from running or starting |
| TerminalEvents.StoppedOnceExactlyWhen | container/process-monitor.ts:630-704 | In every run and for every child, it has one end at most, by stop() calls and the exit handler together, if and only if no stop gets to its state change when the child it would kill has had its end, and no exit of the child gets to the announcing branch when its end has been entered |
| TerminalEvents.ExitDuringStopIsAnnouncedTwice | container/process-monitor.ts:528-576 | The exact event sequence when a child exits cleanly during stop()'s first await, with two process_stopped |
| TerminalEvents.OvertakenStopIsAnnouncedTwice | container/process-monitor.ts:528-576 | The exact event sequence when a child exits cleanly during stop()'s first await and a start is accepted before the stop goes on, with two process_stopped for it |
| TerminalEvents.LateExitIsAnnouncedTwice | container/process-monitor.ts:682-700 | The exact event sequence when a kill times out and the exit arrives after the next start, with two process_stopped for one child |
| TerminalEvents.OneChildEndsTwice | container/process-monitor.ts:1040-1060 | Such a run from the beginning: one child is ever spawned and announced twice |
| Restarts.RestartBudget | container/process-monitor.ts:880-926 | In every run the restart counter stays within maxRestarts and automatic spawns within maxRestarts times (stability resets + 1) |
| Restarts.CrashLoopsEnd | container/process-monitor.ts:415-424 | If no child outlives five minutes, the whole run has at most maxRestarts automatic spawns |
| RestartCycle.RestartsExactlyWhen | container/process-monitor.ts:630-704 | The exit of a child that was running, in all cases: a restart is scheduled, counted and announced if and only if autoRestart, the counter is below maxRestarts, and there is a signal, or a code other than 0, or more than 30000 ms of silence; otherwise a failed child leaves crashed and a well-ended one stopped, with the exact events |
| RestartCycle.OtherExitsNeverRestart | container/process-monitor.ts:682-704 | An exit in any other state restarts nothing, and ends in stopped with one process_stopped unless it was stopped already |
| RestartCycle.StartSpawns | container/process-monitor.ts:414-467 | A start under way spawns exactly one child; the restart counter goes back to zero if and only if the run before lasted more than 300000 ms; silence is counted from the spawn |
| RestartCycle.CrashIsFollowedByRestart | container/process-monitor.ts:906-960 | From the crash to the announced new child: if nothing interferes a scheduled restart is carried out, with the exact events and counters |
| RestartCycle.FailedStartStops | container/process-monitor.ts:440-498 | A spawn without a process id ends in stopped, and a failed restart will be reported |
| RestartCycle.RefusedRestartIsReported | container/process-monitor.ts:930-960 | A restart that finds the supervisor running, starting or stopping spawns nothing and is reported as failed |
| RestartCycle.ErrorsCrash | container/process-monitor.ts:706-724 | An error of a dead child makes a running or starting supervisor crashed and changes nothing else |
| RestartCycle.StopIsRefusedExactlyWhen | container/process-monitor.ts:513-525 | A stop is refused in the states stopped and starting only, and changes nothing before its first await |
| RestartCycle.StopRunsThrough | container/process-monitor.ts:528-576 | A stop without interference ends stopped with the timer cancelled, the two changes of state and one process_stopped, and nothing left under way |
| RestartCycle.ExitDuringKillIsAnnouncedOnce | container/process-monitor.ts:550-576 | When the exit arrives during the kill, it is announced by the exit alone and the stop adds nothing |
| ProcessMonitoring.ProcessMonitor.SetState | container/process-monitor.ts:1250-1264 | The in-place update is the phase change of the step system, announced only when the phase differs |
| ProcessMonitoring.ProcessMonitor.Start | container/process-monitor.ts:383-399 | A start is accepted only when stopped or crashed, and a refused one changes nothing |
| ProcessMonitoring.ProcessMonitor.StartAfterLog | container/process-monitor.ts:414-438 | Between the first await and the next, the stability test decides whether the counter is reset before the spawn |
| ProcessMonitoring.ProcessMonitor.StartAfterReset | container/process-monitor.ts:422-438 | The counter is reset after the await that reports it, and the spawn follows |
| ProcessMonitoring.ProcessMonitor.LaunchChild | container/process-monitor.ts:426-467 | A spawn with a process id makes the state running and records the start; one without leads to the error path |
| ProcessMonitoring.ProcessMonitor.StartFailed | container/process-monitor.ts:483-497 | The error path makes the state stopped without process_stopped, and a failed restart is reported |
| ProcessMonitoring.ProcessMonitor.Stop | container/process-monitor.ts:513-530 | The guards: refused while starting, nothing to do when stopped, and no change of state before the first await |
| ProcessMonitoring.ProcessMonitor.StopProceeded | container/process-monitor.ts:532-552 | After that await the state becomes stopping from whatever it is and a pending restart is cancelled |
| ProcessMonitoring.ProcessMonitor.StopFinished | container/process-monitor.ts:554-566 | After the kill, stop() makes the transition to stopped only when nobody else has |
| ProcessMonitoring.ProcessMonitor.OnExit | container/process-monitor.ts:630-704 | The exit handler takes the exit step: crashed and perhaps rescheduled, or stopped, or nothing |
| ProcessMonitoring.ProcessMonitor.ShouldRestartAfterExit | container/process-monitor.ts:880-914 | The chain of early returns decides as the restart rule of the step system |
| ProcessMonitoring.ProcessMonitor.ScheduleRestartTimer | container/process-monitor.ts:919-935 | Scheduling replaces a pending timer and uses one unit of the budget |
| ProcessMonitoring.ProcessMonitor.OnRestartTimer | container/process-monitor.ts:936-948 | The callback goes on to its await only if the state is neither stopped nor stopping |
| ProcessMonitoring.ProcessMonitor.RestartCallbackResumed | container/process-monitor.ts:952-974 | After the await the callback starts, or is about to emit restart_failed when the start is refused |
| ProcessMonitoring.ProcessMonitor.OnError | container/process-monitor.ts:706-723 | The error event of a dead child crashes only a running or starting supervisor |
| StreamReader.CircularBuffer.Push | container/process-monitor.ts:74-82 | The ring holds the newest capacity items in order after the push |
| StreamReader.CircularBuffer.ToArray | container/process-monitor.ts:84-90 | Reads the held items out, oldest first |
| StreamReader.ReadingResumes | container/process-monitor.ts:768-778 | Reading on from the residual completes the same lines and leaves the same residual as reading the whole text |
| StreamReader.ReadingIsChunkIndependent | container/process-monitor.ts:759-794 | For any interleaving of chunks of two streams, flushes and restarts, each buffer is its stream's text after the last newline since the last flush or restart, and the lines pushed for a stream are the trimmed non-blank lines of each flushed text and the complete ones of the text since |
| StreamReader.OneStreamIsChunkIndependent | container/process-monitor.ts:759-794 | With one stream the whole pushed sequence depends on its texts alone |
| StreamReader.LineReader.ProcessStreamData | container/process-monitor.ts:759-794 | One chunk takes the reading step, and the ring buffer keeps the newest pushed lines |
| StreamReader.LineReader.FlushStreamBuffers | container/process-monitor.ts:600-625 | Pushes the non-blank rests, stdout first, and empties both buffers |
| StreamReader.LineReader.ClearBuffers | container/process-monitor.ts:401-406 | A start forgets buffers and lines |
| Text.SplitJoin | container/process-monitor.ts:769 | Splitting on the newline loses nothing and leaves no newline in a segment |
| Text.TrimIsMaximal | container/process-monitor.ts:778 | Trimming removes a blank prefix and suffix and leaves no blank at either end |
| Text.LineIsKept | container/process-monitor.ts:775-790 | One line among others is kept in its place without the white space at its ends, listed character by character, unless nothing is left of it |
| Text.DecimalStandsFor | sdk/src/state.ts:152 | A numeral consists of digits, stands for its number and has no leading zero |
| StreamReader.LineReader.GetRecentLogs | container/process-monitor.ts:1274-1277 | The newest limit lines, all of them for a limit of zero, and all but that many of the oldest for a negative one |
| Connection.SingleConnectionToken | sdk/src/ws.ts:200-227 | In every reachable state at most one of: URL fetch in flight, socket not yet closed, armed timer; and the client takes itself for open only towards the socket it points at, which has opened and not closed |
| Connection.RetriesAreNumberedAndBounded | sdk/src/ws.ts:59-77 | Between two opens the scheduled reconnects are numbered 1, 2, 3, ... and are at most maxRetries |
| Connection.FailureUsesOneAttempt | sdk/src/ws.ts:86-95 | An error and the close after it schedule at most one reconnect between them |
| Connection.NoTimerAfterCloseExactlyWhen | sdk/src/ws.ts:59-77 | Over whole runs no timer is armed behind close(), if and only if close() is never called from inside a reconnecting notification without being called again in the same step |
| Connection.ClosedClientWindsDown | sdk/src/ws.ts:200-202 | Once closed, no further fetch starts, sockets come only from fetches in flight, and a leftover timer fires without effect |
| Reconnecting.KeepsTryingExactlyWhen | sdk/src/ws.ts:59-77 | In every run, at every moment at which nobody has closed the client, exactly one URL fetch, unclosed socket or armed timer is going, if and only if no failure has found reconnecting off or the attempts at their limit |
| Reconnecting.UnlimitedRetriesNeverEnd | sdk/src/ws.ts:59-77 | With reconnecting on and no limit, in every run a client nobody closed has a fetch, a socket or a timer going |
| Reconnecting.StopsOnlyWhenSpent | sdk/src/ws.ts:62-63 | With a limit, a client nobody closed has nothing going only when its attempts have reached it |
| Reconnecting.TimerReconnects | sdk/src/ws.ts:73-76 | A timer that fires in a client nobody closed puts exactly one URL fetch in flight, and the socket that comes of it is the client's own |
| Reconnecting.NoWebSocketNoSocket | sdk/src/ws.ts:200-212 | Without a WebSocket implementation no run ever fetches a URL, opens a socket or hands over a message |
| Reconnecting.CloseLetsGo | sdk/src/ws.ts:248-255 | After every run close() discards the queue, cancels the timer, shuts the socket and lets go of it, and touches no other socket |
| AgentClient.AgentConnection.SendMessage | sdk/src/ws.ts:232-246 | Hands over when open, otherwise queues and drops the oldest beyond 1000 |
| AgentClient.AgentConnection.CloseByUser | sdk/src/ws.ts:248-255 | Takes the closing step on the client's variables |
| AgentClient.AgentConnection.FlushPendingSends | sdk/src/ws.ts:51-57 | Hands the whole queue over in order and empties it, only when open |
| AgentClient.AgentConnection.ScheduleReconnect | sdk/src/ws.ts:59-77 | Schedules one reconnect, counting it after the notification, unless one of the four guards holds |
| AgentClient.AgentConnection.HandleOpen | sdk/src/ws.ts:79-84 | The open handler takes the opening step, calls made from listeners included |
| AgentClient.AgentConnection.HandleClose | sdk/src/ws.ts:86-90 | The close handler takes the closing step, calls made from listeners included |
| AgentClient.AgentConnection.HandleError | sdk/src/ws.ts:92-95 | The error handler takes the failing step, calls made from listeners included |
| AgentClient.AgentConnection.BeginConnect | sdk/src/ws.ts:200-214 | connectNow up to its await |
| AgentClient.AgentConnection.FinishConnect | sdk/src/ws.ts:215-220 | connectNow after its await |
| Delivery.MessagesAreConserved | sdk/src/ws.ts:232-246 | In every run each sent message is exactly one of handed over, queued, dropped by overflow, discarded by close(); the queue is the newest at most 1000 queued since the last flush |
| Delivery.OnlyCloseDiscards | sdk/src/ws.ts:248-255 | Until close() is called nothing is discarded |
| SendingOrder.OrderIsKeptExactlyWhen | sdk/src/ws.ts:79-84 | For every kind of messages, in every run that sends distinct ones: those handed over and then those queued are in the order of sending at every moment, over all sockets, if and only if no socket opens, without being closed meanwhile, whose listeners send some of the kind while others of it are queued |
| SendingOrder.UnsentOnOpenKeepsOrder | sdk/src/ws.ts:51-57 | In every run, over all its sockets, messages of a kind that open listeners do not send are handed over and queued in the order of sending, whatever overtakes them, and nothing is queued while open |
| SendingOrder.OpenListenerOvertakes | sdk/src/ws.ts:79-84 | A run in which a message queued before the first open is handed over behind one sent by an open listener |
| Delivery.OpenDrainsQueueInOrder | sdk/src/ws.ts:79-84 | An opening socket receives exactly what its open listeners send and then the whole queue in order |
| Delivery.FirstOnEveryWire | sdk/src/ws.ts:51-57 | If open listeners always send one message first, it is first on every socket of every run |
| Session.BuildSession.Connect | sdk/src/session.ts:170-217 | Registers the session's listeners in order, once; a second call returns the same connection |
| Session.BuildSession.Close | sdk/src/session.ts:375-380 | Forgets the connection it closes |
| Session.BuildSession.RunInitListener | sdk/src/session.ts:204-214 | The init listener's messages go to the connection only while the session holds it |
| Session.OpenCallsInOrder | sdk/src/session.ts:192-214 | The calls made on open are those of listeners for all events and of state listeners, then the session's if it still holds the connection by then, then those of later listeners |
| Session.SessionInitPrecedesQueue | sdk/src/session.ts:204-214 | The exact sequence an opening socket receives in every session run; unless other listeners send the very message, session_init is on the wire before the queued commands if and only if the session still holds the connection, and then first of all if and only if nothing else is sent before it |
| Session.UserMessagesGoOut | sdk/src/session.ts:192-214 | What goes out before the session's messages is all that listeners for all events and then state listeners send, and behind them all that later listeners send, in order |
| Session.StaysAttachedExactlyWhen | sdk/src/session.ts:375-380 | The session holds its connection through an open if and only if no listener closes it |
| Session.CommandsKeepOrder | sdk/src/session.ts:204-214 | In every session run, over all drops and reconnects, commands that no open listener sends keep the order they were sent in, although session_init and the state request overtake them |
| Session.SessionInitIsFirst | sdk/src/session.ts:204-214 | Over whole runs of drops and reconnects, session_init is first on every socket while the session holds the connection and earlier listeners are silent |
| Session.ClosedSessionOpensBare | sdk/src/session.ts:375-377 | A session closed during the URL fetch ends with an open socket that got nothing |
| Emitter.TypedEmitter.On | sdk/src/emitter.ts:5-10 | Adds the callback last unless present; other events keep their listeners |
| Emitter.TypedEmitter.Off | sdk/src/emitter.ts:12-16 | Removes the callback; other events keep their listeners |
| Emitter.TypedEmitter.Emit | sdk/src/emitter.ts:25-30 | Delivers to listeners for all events and then to the event's own as those left them, while callbacks subscribe and unsubscribe; the lists afterwards are those after the edits of the callbacks that were called |
| Emitter.StayingGetsOneTurn | sdk/src/emitter.ts:26-29 | Whatever the callbacks do to the lists, a listener registered before and never removed is called exactly once |
| Emitter.AddedGetsOneTurn | sdk/src/emitter.ts:26-29 | A callback subscribed by another during the loop, while the emitter holds on to the Set, is called exactly once in it |
| Emitter.RemovedGetsNoTurn | sdk/src/emitter.ts:26-29 | A callback removed by another before its turn, and not subscribed again, is not called |
| Emitter.FirstAreVisitedFirst | sdk/src/emitter.ts:26-29 | Listeners registered first that nobody removes are called first, in order, whatever others subscribe and unsubscribe meanwhile |
| Emitter.QuietDeliveries | sdk/src/emitter.ts:25-30 | When callbacks leave the lists alone, the listeners for all events are called and then the event's own, each in registration order |
| Emitter.RemovedUndoesAdded | sdk/src/emitter.ts:5-16 | Unsubscribing a fresh subscription restores the listeners |
| Emitter.FirstStayFirst | sdk/src/emitter.ts:5-16 | Listeners registered first stay first, whoever else comes and goes |
| Backoff.DelayWithinJitter | sdk/src/retry.ts:22-27 | Each delay lies between floor(0.8 b) and 1.2 b for the capped exponential base b |
| Backoff.TotalDelayBounded | sdk/src/retry.ts:22-27 | k successive delays total at most 1.2 min(k max, initial (2^k - 1)) |
| Backoff.BaseDoubles | sdk/src/retry.ts:22-27 | The base begins at the initial delay and doubles with each attempt until it stays at the maximum |
| Backoff.JitterSpans | sdk/src/retry.ts:24-27 | The delay grows with the draw from floor(0.8 b), and is floor(b) in the middle |
| Backoff.TotalDelayAtLeast | sdk/src/retry.ts:22-27 | k successive delays total at least 0.8 times their bases, but for less than a millisecond each |
| Backoff.NegativeBasesWaitForNothing | sdk/src/retry.ts:26 | A base at or below zero gives a delay of zero |
| HttpRetry.FetchWithRetry | sdk/src/http.ts:100-130 | At most maxRetries + 1 calls, the first final outcome is reported, every earlier one was retryable, and the time slept is the sum of the delays between and so bounded |
| Timeline.PhasesAreNumbered | sdk/src/state.ts:115-159 | After every sequence of messages the i-th phase has id phase-i, and ids are pairwise distinct |
| Timeline.NamesStayDistinct | sdk/src/state.ts:450-486 | If every connected snapshot has distinct names, names stay distinct in every run |
| Timeline.PhaseMessageChangesOne | sdk/src/state.ts:450-486 | After every run with distinct names in its snapshots, a phase message leaves exactly one phase of its name, changed in place or added last with the status and id that go with it, and no other phase changes; one that names no phase changes nothing |
| Timeline.PhasesKeepTheirPlace | sdk/src/state.ts:185-433 | Between two agent_connected messages no phase is lost, moved or renamed |
| Timeline.EventsAreExactlyTheChanges | sdk/src/state.ts:503-523 | An event is emitted for exactly the phases that are new or differ in status, file count or file statuses, in timeline order |
| Timeline.ListenerTracksTimeline | sdk/src/state.ts:488-535 | A listener that stores each event's phase by id agrees with every phase of the current timeline on status and file statuses, over all message runs |
| Timeline.UnchangedTimelineIsSilent | sdk/src/state.ts:494-497 | Comparing a timeline with itself emits nothing, so skipping the comparison changes nothing |
| TimelineContents.FileMessageMarksTheFile | sdk/src/state.ts:438-447 | After every run, file_generating and file_generated make exactly the files with that path generating or completed; every other file and every other field of every phase stays |
| TimelineContents.ConnectShowsTheSnapshot | sdk/src/state.ts:115-159 | After agent_connected the timeline is the snapshot's phases with their names, descriptions and files, each phase completed, generating or cancelled and each file completed, pending or cancelled as the snapshot says |
| TimelineContents.PhaseMessageContents | sdk/src/state.ts:450-486 | After every run with distinct names in its snapshots, the phase a message names has the status of that one of the six messages, the description and files it brings, and keeps those it does not bring |
| Timeline.SessionStateStore.ApplyWsMessage | sdk/src/state.ts:185-433 | The new timeline and the emitted events for each message |
| Timeline.SessionStateStore.EmitPhaseChanges | sdk/src/state.ts:503-523 | The nested search emits exactly the changes |
| Timeline.SessionStateStore.HasPhaseChanged | sdk/src/state.ts:528-535 | True exactly when status, file count or some file status differs |
| FileTree.TreeHoldsExactlyThePaths | sdk/src/session.ts:39-87 | Flattening the tree gives each path with a non-empty segment as often as given, under directories named by exactly its leading segments |
| FileTree.TreeIsWellShaped | sdk/src/session.ts:70-84 | At every level directories come before files, both sorted by name, sibling directories have distinct names, and directory paths spell the way to them |
| TreePaths.PathsGoWhereTheirNamesSay | sdk/src/session.ts:49-68 | For every list of paths, each written as names with any number of slashes between them and at the ends, the tree holds exactly the last name of each under directories with the names before it, and nothing for slashes only |
| TreePaths.OnePathIsOneFile | sdk/src/session.ts:50-58 | One path with a name is one file under its other names, one without is none |
| TreePaths.EveryPathIsWritten | sdk/src/session.ts:50 | Every text is a path written in that way |
| FileTree.Dir.Find | sdk/src/session.ts:61 | The position of the subdirectory with that name |
| FileTree.Dir.Enter | sdk/src/session.ts:60-66 | The subdirectory is found, or created with the joined path |
| FileTree.Dir.Insert | sdk/src/session.ts:49-68 | Filling the heap of directories in place inserts exactly one file below the right directories |
| FileTree.Dir.Nodes | sdk/src/session.ts:70-84 | Reading the heap gives the sorted nodes of the trie it represents |
| FileTree.BuildTree | sdk/src/session.ts:39-87 | The mutable builder computes the specified tree |
| Ndjson.ParseNdjsonStream | sdk/src/ndjson.ts:1-25 | For every chunking the documents yielded, and whether it ends in an error, are those of parsing each trimmed non-blank segment of the whole text, unterminated tail included |
| Ndjson.FailsForGood | sdk/src/ndjson.ts:11-18 | A line that does not parse decides the outcome whatever is still to be read |
| ErrorStore.RowsAreUnique | container/storage.ts:321-357 | In every run each instance and hash has at most one row |
| ErrorStore.ApplyCounts | container/storage.ts:321-357 | A successful store adds one occurrence to its instance, a clear removes all of them, and other instances keep their rows |
| ErrorStore.OccurrencesAreConserved | container/storage.ts:321-357 | In every run an instance's occurrences sum to its successful stores since its last clear, for any hash function |
| ErrorStore.StoreChangesOneRow | container/storage.ts:321-357 | Storing an error with at most two refusals before changes or adds exactly one row, the one of its instance and hash: counted once more with the newest time and output and otherwise as first stored, or new with a count of one; with three refusals nothing changes |
| ErrorStore.ClearRemovesTheInstance | container/storage.ts:411-422 | A clear removes all rows of its instance and keeps those of every other in order; a refused one changes nothing |
| ErrorStore.MergeBounds | container/storage.ts:275-305 | A group's row has the greatest id, time and output and the earliest creation among its rows |
| ErrorStore.MergeAttains | container/storage.ts:275-305 | Each of these is that of a row of the group, and the count is the sum of theirs |
| ErrorStore.TextLeIsLexicographic | container/storage.ts:275-305 | Times are compared as texts: by the first character in which they differ |
| ErrorStore.GroupingIsIdentity | container/storage.ts:275-305 | With one row per hash, grouping on read changes nothing |
| ErrorStore.SelectReturnsTheRows | container/storage.ts:359-366 | getErrors returns exactly the instance's rows, newest first, hashes distinct |
| ErrorStore.LevelsAddUp | container/storage.ts:386-394 | Added in any order, the counts by level give the total number of occurrences |
| ErrorStore.Summarize | container/storage.ts:386-403 | Total is unique plus repeated; unique counts the rows; each occurring level is listed with its occurrences |
| ErrorStore.ErrorStorage.StoreError | container/storage.ts:321-357 | Touches the existing row or inserts a new one; a refused attempt changes nothing |
| ErrorStore.ErrorStorage.StoreErrorRetrying | container/storage.ts:126-136 | Stores once within three attempts or not at all |
| ErrorStore.ErrorStorage.ClearErrors | container/storage.ts:411-422 | Removes the instance's rows only and returns how many there were |
| ErrorStore.ErrorStorage.GetErrorSummary | container/storage.ts:368-409 | The summary of the stored rows: total occurrences, unique rows, repeats, levels, first and last timestamp of the selection |
| ErrorStore.SelectSpans | container/storage.ts:401-402 | The first selected timestamp is the latest of the instance's rows and the last one the oldest |
| LogStore.NextNumberIsFresh | container/storage.ts:530-554 | With one writer, over stores, failed batches, clears, clean-ups and reopenings, stored numbers increase and the next number exceeds them all |
| LogStore.LogStorage.GetLogs | container/storage.ts:582-617 | The two queries give a page of the instance's rows, newest first, with the count of all of them |
| LogStore.CursorIsNewest | container/storage.ts:592-597 | A page's cursor is the number of its first row, the highest on the page, or zero on an empty page |
| LogStore.PagesCoverEachRowOnce | container/storage.ts:582-617 | Following hasMore ends and returns each row of the instance exactly once, in descending order, for every limit |
| LogPages.SurvivorsAreReturned | container/storage.ts:582-617 | Whatever is stored, cleared, cleaned up or reopened between the pages of a walk, each row of the instance that is there from the first page to the last is returned at least once, for every limit |
| LogPages.StoredLogComesFirst | container/storage.ts:535-617 | After every run, a stored log is read back first, with its own text and the next number, before all the instance had |
| LogPages.BatchIsAllOrNothing | container/storage.ts:556-580 | A batch adds its logs in order under consecutive numbers, or nothing while it uses up the numbers drawn |
| LogPages.ReopeningContinues | container/storage.ts:530-533 | After every run, opening again goes on with the number behind the last row, or with one |
| LogPages.PageHolds | container/storage.ts:582-617 | A page holds limit rows from the offset on, 100 for a limit of zero, all for a negative one, or as many as there are; hasMore and the total count go with it |
| LogStore.LogStorage.StoreLog | container/storage.ts:535-554 | Draws the next number, also when the insert is refused |
| LogStore.LogStorage.StoreLogs | container/storage.ts:556-580 | All logs under consecutive numbers, or none of them |
| LogStore.LogStorage.ClearLogs | container/storage.ts:620-634 | Removes the instance's rows only, keeps the counter, returns how many there were |
| LogStore.LogStorage.constructor | container/storage.ts:530-533 | Opening continues after the largest stored number |
| Migration.MigrationIsIdempotent | debug-tools/migration_tester.py:45-121 | Migrating migrated messages returns them unchanged |
| Migration.MigratedIsClean | debug-tools/migration_tester.py:52-73 | The result is sorted by time with pairwise distinct keys |
| Migration.SurvivorsAreExactlyTheFirsts | debug-tools/migration_tester.py:56-104 | A message survives exactly when it is the first of its key and either at most 25 keys occur or it is no memo |
| Chronology.MigratedIsChronological | debug-tools/migration_tester.py:31-40 | In the result a message comes before every other whose id, "conv-" and a number and perhaps a dash and more, has a greater number; a message without such an id ranks at zero |
| Chronology.DuplicatesExactlyWhen | debug-tools/migration_tester.py:57-70 | Messages with ids are duplicates exactly if these are equal, those without and of one role exactly if their texts agree in the first 100 characters |
| Chronology.MemosGoExactlyWhen | debug-tools/migration_tester.py:75-104 | Of more than 25 deduplicated messages exactly those go that contain one of the two memo phrases; of 25 or fewer none goes |
| Migration.EqualTimesKeepOrder | debug-tools/migration_tester.py:72-73 | Messages with equal times keep their order |
| Migration.DropDuplicates | debug-tools/migration_tester.py:53-70 | The loop with the seen set keeps the first message of each key |
| Migration.ApplyMigrationAlgorithm | debug-tools/migration_tester.py:45-121 | Returns the migrated messages, the ids of the kept ones and the first longest message, and original = final + duplicates removed + memos removed |

## Left out

Weaker than the source, member by member:

- FileLocking.LockIsSafeExactlyWhen: file-system calls are atomic, so a lock file is never read half-written; the random part of the retry delay is arbitrary time.
- LogReset.MonitorResetConservesLog: failures of rename and append, and the trimming of the log by the monitor (an unlocked read followed by a rename, with which the property does not hold), are absent.
- SingleChild.OneChildExactlyWhen: the error event is modelled only for a child that is already dead, and listeners do not call start() or stop() from inside an event; health checks act only by killing the child, which may die at any time here; cleanup() is a stop() whose timer is cancelled earlier.
- ProcessMonitoring.ProcessMonitor.StopProceeded: flushing the stream buffers is absent, and the second await, after a cancelled timer, is part of the wait for the kill.
- ProcessMonitoring.ProcessMonitor.LaunchChild: port confirmation, health checks, stream listeners and a spawn that throws are absent.
- StreamReader.LineReader.ProcessStreamData: lines carry content and stream only; the append to the log file and the JSON error detection on each line are absent, and text arrives decoded.
- StreamReader.LineReader.FlushStreamBuffers: the append of the flushed rests to the log file is absent.
- Connection.SingleConnectionToken: `open` fires only for a connecting socket, and a socket's error and close are one step; the length of a delay is not part of the state (see Backoff).
- Connection.NoTimerAfterCloseExactlyWhen: listeners of the overflow error, of the missing WebSocket error and of ordinary messages call back only as top-level calls.
- AgentClient.AgentConnection.SendMessage: the ws:error notification on overflow is absent.
- AgentClient.AgentConnection.BeginConnect: the ws:error notification when there is no WebSocket is absent.
- Delivery.MessagesAreConserved: handed over means passed to the socket's send; whether the peer receives it, for one in a closing handshake, is not part of this model.
- Session.BuildSession.Close: closing the connection object is the event `Leaves` of the session's runs; clearing the workspace and the state is absent.
- Session.SessionInitPrecedesQueue: the listeners are given in the order they get their turn, which starts with the session's two whatever callbacks do to the lists (see Emitter.FirstAreVisitedFirst); a listener that throws, which skips the ones behind it and the flush, is absent; what the init listener of a forgotten connection sends through the session's next connection is a call like any other there.
- Emitter.TypedEmitter.Emit: callbacks are identities, those beyond the given reactions change nothing, and one that throws or emits another event is absent.
- Backoff.DelayWithinJitter: real numbers in place of floating point.
- HttpRetry.FetchWithRetry: maxRetries is an integer, not Infinity; an error text or body is not part of the outcome beyond its class.
- Timeline.SessionStateStore.ApplyWsMessage: only the `phases` field of the state; re-entrant change listeners and subscriptions after clear() are absent.
- FileTree.TreeIsWellShaped: the collation order is any total preorder on names, standing for localeCompare.
- FileTree.Dir.Insert: the inner loop along the segments is a recursive method, and the program sorts directories before it turns them into nodes, which gives the same list because names are kept.
- ErrorStore.SelectReturnsTheRows: bare columns of the grouped query come from the first row of a group; the clean-up of old errors is absent.
- LogStore.PagesCoverEachRowOnce: the table does not change during the walk (see LogPages.SurvivorsAreReturned for one that does, where rows may come twice).
- LogPages.SurvivorsAreReturned: a clean-up during the walk takes the oldest rows first, as it does while the clock does not go back.
- Migration.ApplyMigrationAlgorithm: a message's fields have the types the code expects; the JSON length of a message is a parameter.

Not modelled at all:

- The lock protocol and the log reset are step systems on values, since they interleave between processes; there is no lock object.
- SimpleMutex, trimming of log files, health checks, port probing and signals.
- JSON, hashing, regular expressions, UTF-8 decoding and SQLite itself: parameters, or absent.
- waitFor, the workspace store, blueprint parsing, access tokens and ticket requests of the SDK: easy or plumbing.
- The user interface, the worker, deployment scripts, the vault and the other debug analyzers.
