/** What an exit, a timer and a start lead to, with the limits and the announcements written out. */
module RestartCycle {
  import opened Wrappers
  import opened Supervisor

  /** The supervisor begins stopped, with no child, no timer, no call under way and nothing told. */
  lemma BeginsAtRest()
    ensures INITIAL.phase.Stopped? && !INITIAL.timer && INITIAL.children == [] && INITIAL.notes == []
    ensures Unspawned(INITIAL) == 0 && Failing(INITIAL) == 0
  {
  }

  lemma BeginsWithNothingDue()
    ensures INITIAL.resuming == 0 && INITIAL.requests == 0 && INITIAL.stops == 0
    ensures INITIAL.startNotes == 0 && INITIAL.restartNotes == 0 && INITIAL.stopNotes == multiset{}
  {
  }

  lemma BeginsFresh()
    ensures INITIAL.lastStart.None? && INITIAL.endTime.None? && INITIAL.lastActivity == INITIAL.now
    ensures INITIAL.restartCount == 0 && INITIAL.autoSpawns == 0 && INITIAL.scheduled == 0 && INITIAL.resets == 0
  {
  }

  /** The exit of a child that was running, in all cases: a restart is scheduled and announced if and only if
      restarts are on, the counter is below the limit, and the child was killed, or failed, or ended well after
      more than 30 seconds of silence. A child that failed without one leaves the supervisor crashed; one that
      ended well leaves it stopped. */
  lemma RestartsExactlyWhen(o: Options, s: State, i: nat, code: Option<int>, signal: Option<int>)
    requires s.phase.Running? && i < |s.children| && s.children[i] == Dead(code, signal)
    ensures var t := Step(o, s, ExitDelivered(i));
            var restarts := o.autoRestart && s.restartCount < o.maxRestarts && (signal.Some? || code != Some(0) || s.now - s.lastActivity > 30000);
            && t.children == s.children[i := Reaped] && t.endTime == Some(s.now)
            && t.restartCount == s.restartCount + (if restarts then 1 else 0)
            && (t.timer <==> s.timer || restarts)
            && t.notes == s.notes + (if restarts then [StateChanged(Running, Crashed, ByExit(i)), ProcessCrashed(true)]
                                     else if code != Some(0) then [StateChanged(Running, Crashed, ByExit(i)), ProcessCrashed(false)]
                                     else [StateChanged(Running, Stopped, ByExit(i)), ProcessStopped(i)])
  {
  }

  /** The exit of a child while the supervisor is not running never restarts anything. */
  lemma OtherExitsNeverRestart(o: Options, s: State, i: nat)
    requires !s.phase.Running? && i < |s.children| && s.children[i].Dead?
    ensures var t := Step(o, s, ExitDelivered(i));
            && t.children == s.children[i := Reaped] && t.endTime == Some(s.now)
            && t.restartCount == s.restartCount && t.timer == s.timer
            && t.notes == s.notes + (if s.phase.Stopped? then [] else [StateChanged(s.phase, Stopped, ByExit(i)), ProcessStopped(i)])
  {
    assert s.notes + [] == s.notes;
  }

  lemma TimerLeadsToStart(o: Options, s: State)
    requires s.phase.Crashed? && s.timer
    ensures var t := Exec(o, s, [TimerFires, CallbackResumes]);
            && t.phase.Starting? && !t.timer && t.byTimer == s.byTimer.(logging := s.byTimer.logging + 1)
            && t.notes == s.notes + [StateChanged(Crashed, Starting, ByStart)]
            && t.children == s.children && t.restartCount == s.restartCount && t.autoSpawns == s.autoSpawns
            && t.lastStart == s.lastStart && t.endTime == s.endTime && t.startNotes == s.startNotes
  {
    ExecTwo(o, s, TimerFires, CallbackResumes);
  }

  function SpawnSteps(origin: Origin, long: bool): seq<Event> {
    if long then [StartLogged(origin, true), StartReset(origin, true)] else [StartLogged(origin, true)]
  }

  /** A start under way spawns at once when the run before it lasted five minutes at most, or there was none;
      after a longer one the restart counter begins again at zero. Silence is counted from the spawn. */
  lemma StartSpawns(o: Options, s: State, origin: Origin)
    requires s.phase.Starting? && CallsOf(s, origin).logging > 0 && CallsOf(s, origin).resetting == 0
    ensures var long := s.lastStart.Some? && s.endTime.Some? && s.endTime.value - s.lastStart.value > 300000;
            var t := Exec(o, s, SpawnSteps(origin, long));
            && t.children == s.children + [Alive] && t.phase.Running? && t.autoSpawns == s.autoSpawns + (if origin.Timer? then 1 else 0)
            && t.restartCount == (if long then 0 else s.restartCount)
            && t.notes == s.notes + [StateChanged(Starting, Running, ByStart)]
            && t.lastStart == Some(t.now) && t.lastActivity == t.now && t.endTime == None && t.now == s.now
            && t.startNotes == s.startNotes + 1 && t.timer == s.timer
  {
    ExecTwo(o, s, StartLogged(origin, true), StartReset(origin, true));
    ExecOne(o, s, StartLogged(origin, true));
  }

  /** Output ends a silence, and only time makes it longer. */
  lemma SilenceIsTimed(o: Options, s: State, ms: nat)
    ensures var t := Exec(o, s, [Output, Tick(ms)]); t == s.(lastActivity := s.now, now := s.now + ms)
  {
    ExecTwo(o, s, Output, Tick(ms));
  }

  /** A start whose spawn yields no process ends in the state stopped; a failed restart will be reported. */
  lemma FailedStartStops(o: Options, s: State, origin: Origin)
    requires s.phase.Starting? && CallsOf(s, origin).logging > 0 && !(s.lastStart.Some? && s.endTime.Some?)
    ensures var t := Exec(o, s, [StartLogged(origin, false), StartFails(origin)]);
            && t.phase.Stopped? && t.children == s.children && t.startNotes == s.startNotes
            && t.notes == s.notes + [StateChanged(Starting, Stopped, ByFailedStart)]
            && t.restartNotes == s.restartNotes + (if origin.Timer? then 1 else 0)
  {
    ExecTwo(o, s, StartLogged(origin, false), StartFails(origin));
  }

  /** A restart that finds the supervisor no longer stopped or crashed is refused, which is reported. */
  lemma RefusedRestartIsReported(o: Options, s: State)
    requires s.resuming > 0 && (s.phase.Running? || s.phase.Starting? || s.phase.Stopping?)
    ensures var t := Exec(o, s, [CallbackResumes, RestartFailureAnnounces]);
            t == s.(resuming := s.resuming - 1, notes := s.notes + [RestartFailed])
  {
    ExecTwo(o, s, CallbackResumes, RestartFailureAnnounces);
  }

  /** A timer that fires after a stop has begun starts nothing. */
  lemma StoppedTimerIsIdle(o: Options, s: State)
    requires s.phase.Stopped? || s.phase.Stopping?
    ensures Step(o, s, TimerFires) == s.(timer := false)
  {
  }

  /** An error event of a dead child crashes a running or starting supervisor, and nothing else. */
  lemma ErrorsCrash(o: Options, s: State, i: nat)
    requires i < |s.children| && s.children[i].Dead?
    ensures var t := Step(o, s, ErrorDelivered(i));
            if s.phase.Running? || s.phase.Starting? then t == s.(phase := Crashed, notes := s.notes + [StateChanged(s.phase, Crashed, ByError)])
            else t == s
  {
  }

  lemma StartIsAnnounced(o: Options, s: State)
    requires s.startNotes > 0
    ensures Exec(o, s, [StartAnnounces]) == s.(startNotes := s.startNotes - 1, notes := s.notes + [ProcessStarted])
  {
    ExecOne(o, s, StartAnnounces);
  }

  /** The steps of a restart when nothing else happens. */
  function RestartSteps(i: nat, long: bool): seq<Event> {
    [ExitDelivered(i)] + [TimerFires, CallbackResumes] + SpawnSteps(Timer, long) + [StartAnnounces]
  }

  lemma RestartRuns(o: Options, s: State, i: nat, long: bool)
    ensures Exec(o, s, RestartSteps(i, long))
         == Exec(o, Exec(o, Exec(o, Step(o, s, ExitDelivered(i)), [TimerFires, CallbackResumes]), SpawnSteps(Timer, long)), [StartAnnounces])
  {
    var spawn := SpawnSteps(Timer, long);
    ExecJoins(o, s, [ExitDelivered(i)] + [TimerFires, CallbackResumes] + spawn, [StartAnnounces]);
    ExecJoins(o, s, [ExitDelivered(i)] + [TimerFires, CallbackResumes], spawn);
    ExecJoins(o, s, [ExitDelivered(i)], [TimerFires, CallbackResumes]);
    ExecOne(o, s, ExitDelivered(i));
  }

  lemma CrashSchedules(o: Options, s: State, i: nat, code: int)
    requires s.phase.Running? && i < |s.children| && s.children[i] == Dead(Some(code), None) && code != 0
    requires o.autoRestart && s.restartCount < o.maxRestarts
    ensures var t := Step(o, s, ExitDelivered(i));
            && t.phase.Crashed? && t.timer && t.children == s.children[i := Reaped] && t.restartCount == s.restartCount + 1
            && t.notes == s.notes + [StateChanged(Running, Crashed, ByExit(i)), ProcessCrashed(true)]
            && t.endTime == Some(s.now) && t.lastStart == s.lastStart
            && t.byTimer == s.byTimer && t.autoSpawns == s.autoSpawns && t.startNotes == s.startNotes
  {
    RestartsExactlyWhen(o, s, i, Some(code), None);
  }

  /** A scheduled restart is carried out: if nothing interferes, the crashed child is followed by a new one,
      which is announced, with the counter one higher, or at zero after a run of more than five minutes. */
  lemma CrashIsFollowedByRestart(o: Options, s: State, i: nat, code: int)
    requires s.phase.Running? && i < |s.children| && s.children[i] == Dead(Some(code), None) && code != 0
    requires o.autoRestart && s.restartCount < o.maxRestarts
    requires s.lastStart.Some? && s.byTimer.resetting == 0
    ensures var long := s.now - s.lastStart.value > 300000;
            var t := Exec(o, s, RestartSteps(i, long));
            && t.phase.Running? && t.children == s.children[i := Reaped] + [Alive] && !t.timer
            && t.restartCount == (if long then 0 else s.restartCount + 1) && t.autoSpawns == s.autoSpawns + 1
            && t.notes == s.notes + [StateChanged(Running, Crashed, ByExit(i)), ProcessCrashed(true)] + [StateChanged(Crashed, Starting, ByStart)]
                          + [StateChanged(Starting, Running, ByStart)] + [ProcessStarted]
  {
    var long := s.now - s.lastStart.value > 300000;
    RestartRuns(o, s, i, long);
    CrashSchedules(o, s, i, code);
    var t1 := Step(o, s, ExitDelivered(i));
    TimerLeadsToStart(o, t1);
    var t2 := Exec(o, t1, [TimerFires, CallbackResumes]);
    StartSpawns(o, t2, Timer);
    StartIsAnnounced(o, Exec(o, t2, SpawnSteps(Timer, long)));
  }

  /** A child dies once, and with what it died of. */
  lemma DeathIsRemembered(o: Options, s: State, i: nat, code: Option<int>, signal: Option<int>)
    requires i < |s.children|
    ensures Step(o, s, ChildDies(i, code, signal))
         == if s.children[i].Alive? then s.(children := s.children[i := Dead(code, signal)]) else s
  {
  }

  // ---------- What a stop leads to ----------

  /** A stop is refused when the supervisor is stopped or starting, and under way from then on otherwise. */
  lemma StopIsRefusedExactlyWhen(o: Options, s: State)
    ensures Step(o, s, CallStop) == if s.phase.Stopped? || s.phase.Starting? then s else s.(requests := s.requests + 1)
  {
  }

  lemma StopProceedsFrom(o: Options, s: State)
    requires s.phase.Running? || s.phase.Crashed?
    ensures Exec(o, s, [CallStop, StopProceeds])
         == s.(phase := Stopping, timer := false, stops := s.stops + 1, notes := s.notes + [StateChanged(s.phase, Stopping, ByStopping)])
  {
    ExecTwo(o, s, CallStop, StopProceeds);
  }

  lemma StopEndsIt(o: Options, s: State, c: int)
    requires s.phase.Stopping? && s.stops > 0 && c == Current(s)
    ensures Exec(o, s, [StopReturns, StopAnnounces(c)])
         == s.(phase := Stopped, stops := s.stops - 1, notes := s.notes + [StateChanged(Stopping, Stopped, ByStop(c))] + [ProcessStopped(c)])
  {
    ExecTwo(o, s, StopReturns, StopAnnounces(c));
    var t := FinishStop(s);
    assert t.stopNotes == s.stopNotes + multiset{c} && t.stopNotes - multiset{c} == s.stopNotes;
  }

  /** A stop that nothing else interferes with ends stopped, with the restart timer cancelled, both changes of
      state and one process_stopped, and leaves nothing under way, whether its child has gone or not. */
  lemma StopRunsThrough(o: Options, s: State)
    requires s.phase.Running? || s.phase.Crashed?
    ensures Exec(o, s, [CallStop, StopProceeds] + [StopReturns, StopAnnounces(Current(s))])
         == s.(phase := Stopped, timer := false,
               notes := s.notes + [StateChanged(s.phase, Stopping, ByStopping)]
                        + [StateChanged(Stopping, Stopped, ByStop(Current(s)))] + [ProcessStopped(Current(s))])
  {
    ExecJoins(o, s, [CallStop, StopProceeds], [StopReturns, StopAnnounces(Current(s))]);
    StopProceedsFrom(o, s);
    StopEndsIt(o, Exec(o, s, [CallStop, StopProceeds]), Current(s));
  }

  /** When the exit of the child arrives during the kill, it is the exit that announces it, and the stop adds
      nothing. */
  lemma ExitDuringKillIsAnnouncedOnce(o: Options, s: State, i: nat, code: Option<int>, signal: Option<int>)
    requires (s.phase.Running? || s.phase.Crashed?) && i < |s.children| && s.children[i].Alive?
    ensures Exec(o, s, [CallStop, StopProceeds] + [ChildDies(i, code, signal), ExitDelivered(i), StopReturns])
         == s.(phase := Stopped, timer := false, children := s.children[i := Reaped], endTime := Some(s.now),
               notes := s.notes + [StateChanged(s.phase, Stopping, ByStopping)] + [StateChanged(Stopping, Stopped, ByExit(i))] + [ProcessStopped(i)])
  {
    ExecJoins(o, s, [CallStop, StopProceeds], [ChildDies(i, code, signal), ExitDelivered(i), StopReturns]);
    StopProceedsFrom(o, s);
    ExitDuringKill(o, Exec(o, s, [CallStop, StopProceeds]), i, code, signal);
  }

  lemma ExitDuringKill(o: Options, s: State, i: nat, code: Option<int>, signal: Option<int>)
    requires s.phase.Stopping? && s.stops > 0 && i < |s.children| && s.children[i].Alive?
    ensures Exec(o, s, [ChildDies(i, code, signal), ExitDelivered(i), StopReturns])
         == s.(phase := Stopped, stops := s.stops - 1, children := s.children[i := Reaped], endTime := Some(s.now),
               notes := s.notes + [StateChanged(Stopping, Stopped, ByExit(i))] + [ProcessStopped(i)])
  {
    ExecThree(o, s, ChildDies(i, code, signal), ExitDelivered(i), StopReturns);
    var t := Die(s, i, code, signal);
    assert t.children[i := Reaped] == s.children[i := Reaped];
    assert DeliverExit(o, t, i) == s.(phase := Stopped, children := s.children[i := Reaped], endTime := Some(s.now),
                                      notes := s.notes + [StateChanged(Stopping, Stopped, ByExit(i))] + [ProcessStopped(i)]);
  }
}
