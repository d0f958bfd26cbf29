/** The process monitor with its fields updated in place. Each method is one segment of the class's
    asynchronous methods, between two awaits, and is proved to take exactly the corresponding step of
    module Supervisor. */
module ProcessMonitoring {
  import opened Wrappers
  import opened Supervisor

  /** Calls in progress and the history of the run. */
  datatype History = History(
    resuming: nat, byCaller: Starts, byTimer: Starts, startNotes: nat, restartNotes: nat,
    requests: nat, stops: nat, stopNotes: multiset<int>,
    notes: seq<Note>, autoSpawns: nat, scheduled: nat, resets: nat)

  class ProcessMonitor {
    const options: Options
    var phase: Phase
    var restartCount: nat
    var restartTimer: bool
    var children: seq<Child>
    var lastSuccessfulStart: Option<int>
    var endTime: Option<int>
    var lastActivity: int
    var now: int
    ghost var history: History

    ghost function Now(): State
      reads this
    {
      var h := history;
      State(phase, restartCount, restartTimer, h.resuming, h.byCaller, h.byTimer, h.startNotes, h.restartNotes,
            h.requests, h.stops, h.stopNotes, children, lastSuccessfulStart, endTime, lastActivity, now,
            h.notes, h.autoSpawns, h.scheduled, h.resets)
    }

    constructor (options: Options)
      ensures this.options == options && Now() == INITIAL
    {
      this.options := options;
      phase, restartCount, restartTimer, children := Stopped, 0, false, [];
      lastSuccessfulStart, endTime, lastActivity, now := None, None, 0, 0;
      history := History(0, NO_STARTS, NO_STARTS, 0, 0, 0, 0, multiset{}, [], 0, 0, 0);
    }

    /** Emits an event to the listeners. */
    ghost method EmitNote(note: Note)
      modifies `history
      ensures history == old(history).(notes := old(history).notes + [note])
    {
      history := history.(notes := history.notes + [note]);
    }

    /** Moves the start() calls under way of one origin. */
    ghost method SetCalls(origin: Origin, calls: Starts)
      modifies `history
      ensures history == (if origin.Caller? then old(history).(byCaller := calls) else old(history).(byTimer := calls))
    {
      history := if origin.Caller? then history.(byCaller := calls) else history.(byTimer := calls);
    }

    method SetState(newState: Phase, ghost cause: Cause)
      modifies `phase, `history
      ensures Now() == SetPhase(old(Now()), newState, cause)
    {
      var oldState := phase;
      phase := newState;
      if oldState != newState {
        EmitNote(StateChanged(oldState, newState, cause));
      }
    }

    // ---------- start() ----------

    /** Up to the first await; `ok` is false when the call is refused. */
    method Start(ghost origin: Origin) returns (ok: bool)
      modifies `phase, `history
      ensures ok == AcceptsStart(old(Now()))
      ensures ok ==> Now() == BeginStart(old(Now()), origin)
      ensures !ok ==> Now() == old(Now())
    {
      if phase != Stopped && phase != Crashed {
        return false;
      }
      SetState(Starting, ByStart);
      ghost var calls := CallsOf(Now(), origin);
      SetCalls(origin, calls.(logging := calls.logging + 1));
      return true;
    }

    /** Between the first await and the next one, or the end of the spawn attempt; `resets` says that
        the last run was stable, so that the second await comes first. */
    method StartAfterLog(ghost origin: Origin, spawned: bool) returns (resets: bool)
      requires CallsOf(Now(), origin).logging > 0
      modifies this
      ensures resets == WasStable(old(Now()))
      ensures Now() == AfterLog(old(Now()), origin, spawned)
    {
      ghost var calls := CallsOf(Now(), origin);
      if lastSuccessfulStart.Some? && endTime.Some? {
        var runDuration := endTime.value - lastSuccessfulStart.value;
        if runDuration > STABILITY_THRESHOLD_MS {
          SetCalls(origin, calls.(logging := calls.logging - 1, resetting := calls.resetting + 1));
          return true;
        }
      }
      SetCalls(origin, calls.(logging := calls.logging - 1));
      LaunchChild(origin, spawned);
      return false;
    }

    method StartAfterReset(ghost origin: Origin, spawned: bool)
      requires CallsOf(Now(), origin).resetting > 0
      modifies this
      ensures Now() == AfterReset(old(Now()), origin, spawned)
    {
      ghost var calls := CallsOf(Now(), origin);
      SetCalls(origin, calls.(resetting := calls.resetting - 1));
      restartCount := 0;
      history := history.(resets := history.resets + 1);
      LaunchChild(origin, spawned);
    }

    /** The spawn and, when it yields a process id, everything up to the await after it. */
    method LaunchChild(ghost origin: Origin, spawned: bool)
      modifies this
      ensures Now() == Launch(old(Now()), origin, spawned)
    {
      if !spawned {
        ghost var calls := CallsOf(Now(), origin);
        SetCalls(origin, calls.(failing := calls.failing + 1));
        return;
      }
      children := children + [Alive];
      endTime := None;
      SetState(Running, ByStart);
      lastActivity := now;
      lastSuccessfulStart := Some(now);
      history := history.(startNotes := history.startNotes + 1,
                          autoSpawns := history.autoSpawns + (if origin.Timer? then 1 else 0));
    }

    /** The error path, after the await that reports a spawn without a process id. */
    method StartFailed(ghost origin: Origin)
      requires CallsOf(Now(), origin).failing > 0
      modifies `phase, `history
      ensures Now() == SettleFailure(old(Now()), origin)
    {
      ghost var calls := CallsOf(Now(), origin);
      SetCalls(origin, calls.(failing := calls.failing - 1));
      SetState(Stopped, ByFailedStart);
      if origin.Timer? {
        history := history.(restartNotes := history.restartNotes + 1);
      }
    }

    /** After the last await of a successful start. */
    method StartAnnounced()
      requires history.startNotes > 0
      modifies `history
      ensures Now() == AnnounceStart(old(Now()))
    {
      history := history.(startNotes := history.startNotes - 1);
      EmitNote(ProcessStarted);
    }

    // ---------- stop() ----------

    /** The guards, up to the first await; `waits` is false when the call returns at once. */
    method Stop() returns (waits: bool)
      modifies `history
      ensures waits == !(phase.Stopped? || phase.Starting?)
      ensures Now() == RequestStop(old(Now()))
    {
      if phase == Stopped {
        return false;
      }
      if phase == Starting {
        return false;
      }
      history := history.(requests := history.requests + 1);
      return true;
    }

    /** After the first await: the state changes and a pending restart is cancelled. */
    method StopProceeded()
      requires history.requests > 0
      modifies this
      ensures Now() == ProceedStop(old(Now()))
    {
      history := history.(requests := history.requests - 1);
      SetState(Stopping, ByStopping);
      if restartTimer {
        restartTimer := false;
      }
      history := history.(stops := history.stops + 1);
    }

    /** After the kill, up to the await before the announcement. */
    method StopFinished()
      requires history.stops > 0
      modifies `phase, `history
      ensures Now() == FinishStop(old(Now()))
    {
      history := history.(stops := history.stops - 1);
      if phase == Stopping {
        SetState(Stopped, ByStop(|children| - 1));
        history := history.(stopNotes := history.stopNotes + multiset{|children| - 1});
      }
    }

    /** After its last await, the stop() that made the transition for `child`. */
    method StopAnnounced(ghost child: int)
      requires child in history.stopNotes
      modifies `history
      ensures Now() == AnnounceStop(old(Now()), child)
    {
      history := history.(stopNotes := history.stopNotes - multiset{child});
      EmitNote(ProcessStopped(child));
    }

    // ---------- Exits and restarts ----------

    method ShouldRestartAfterExit(exitCode: Option<int>, signal: Option<int>) returns (restart: bool)
      ensures restart == ShouldRestart(options, Now(), exitCode, signal)
    {
      if restartCount >= options.maxRestarts { return false; }
      if signal.Some? { return true; }
      if exitCode == Some(0) {
        var timeSinceLastActivity := now - lastActivity;
        return timeSinceLastActivity > INACTIVITY_THRESHOLD_MS;
      }
      return true;
    }

    method OnExit(which: nat)
      requires which < |children| && children[which].Dead?
      modifies this
      ensures Now() == DeliverExit(options, old(Now()), which)
    {
      var code, signal := children[which].code, children[which].signal;
      children := children[which := Reaped];
      var wasRunning := phase == Running;
      endTime := Some(now);
      var shouldRestart := false;
      if wasRunning && options.autoRestart {
        shouldRestart := ShouldRestartAfterExit(code, signal);
      }
      if wasRunning && (code != Some(0) || shouldRestart) {
        SetState(Crashed, ByExit(which));
        EmitNote(ProcessCrashed(shouldRestart));
        if shouldRestart {
          ScheduleRestartTimer();
        }
      } else if phase != Stopped {
        SetState(Stopped, ByExit(which));
        EmitNote(ProcessStopped(which));
      }
    }

    method ScheduleRestartTimer()
      modifies `restartTimer, `restartCount, `history
      ensures Now() == ScheduleRestart(old(Now()))
    {
      if restartTimer {
        restartTimer := false;
      }
      restartCount := restartCount + 1;
      history := history.(scheduled := history.scheduled + 1);
      restartTimer := true;
    }

    /** The restart callback up to its await; `proceeds` is false when the restart is cancelled. */
    method OnRestartTimer() returns (proceeds: bool)
      requires restartTimer
      modifies `restartTimer, `history
      ensures proceeds == !(phase.Stopped? || phase.Stopping?)
      ensures Now() == FireTimer(old(Now()))
    {
      restartTimer := false;
      if phase == Stopped || phase == Stopping {
        return false;
      }
      history := history.(resuming := history.resuming + 1);
      return true;
    }

    /** The restart callback after its await, up to the await inside start() or before the report. */
    method RestartCallbackResumed()
      requires history.resuming > 0
      modifies `phase, `history
      ensures Now() == ResumeCallback(old(Now()))
    {
      history := history.(resuming := history.resuming - 1);
      var ok := Start(Timer);
      if !ok {
        history := history.(restartNotes := history.restartNotes + 1);
      }
    }

    /** A restart that start() refused, or whose spawn failed, is reported. */
    method RestartFailureAnnounced()
      requires history.restartNotes > 0
      modifies `history
      ensures Now() == AnnounceRestartFailure(old(Now()))
    {
      history := history.(restartNotes := history.restartNotes - 1);
      EmitNote(RestartFailed);
    }

    method OnError(which: nat)
      requires which < |children| && children[which].Dead?
      modifies `phase, `history
      ensures Now() == DeliverError(old(Now()), which)
    {
      if phase == Running || phase == Starting {
        SetState(Crashed, ByError);
      }
    }
  }
}
