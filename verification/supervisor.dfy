/** The process supervisor as a step system: start and stop requests, the restart timer and its
    callback, child deaths and the delivery of their exit events, all interleaved freely. Every await
    of start(), stop() and the restart callback ends a step, so anything may happen during it. Times
    are in milliseconds. */
module Supervisor {
  import opened Wrappers

  const STABILITY_THRESHOLD_MS := 5 * 60 * 1000
  const INACTIVITY_THRESHOLD_MS := 30000

  datatype Phase = Stopped | Starting | Running | Stopping | Crashed
  datatype Options = Options(autoRestart: bool, maxRestarts: nat)
  datatype Origin = Caller | Timer

  /** `Dead`: the process is gone but its exit event has not reached the handler yet. */
  datatype Child = Alive | Dead(code: Option<int>, signal: Option<int>) | Reaped

  /** Which code path changed the state; an end is attributed to a child by its position, -1 for none. */
  datatype Cause = ByStart | ByFailedStart | ByStopping | ByStop(child: int) | ByExit(child: int) | ByError

  datatype Note =
    | StateChanged(from: Phase, to: Phase, cause: Cause)
    | ProcessStarted
    | ProcessStopped(child: int)
    | ProcessCrashed(willRestart: bool)
    | RestartFailed

  /** Accepted start() calls by the await they are in: the one after the state change, the one before a
      stable run resets the restart counter, the one after a spawn that yielded no process id. */
  datatype Starts = Starts(logging: nat, resetting: nat, failing: nat)

  datatype State = State(
    phase: Phase,
    restartCount: nat,
    timer: bool,               // restart timer armed
    resuming: nat,             // restart callbacks past their state check, not yet at start()
    byCaller: Starts,          // start() calls of the caller
    byTimer: Starts,           // start() calls of restart callbacks
    startNotes: nat,           // start() calls about to emit process_started
    restartNotes: nat,         // restart callbacks about to emit restart_failed
    requests: nat,             // stop() calls past their guards, before their state change
    stops: nat,                // stop() calls waiting for the kill
    stopNotes: multiset<int>,  // stop() calls about to emit process_stopped, by child
    children: seq<Child>,      // in spawn order; the last is the current one
    lastStart: Option<int>,
    endTime: Option<int>,
    lastActivity: int,
    now: int,
    notes: seq<Note>,          // history
    autoSpawns: nat,           // spawns by the restart callback
    scheduled: nat,            // restarts scheduled
    resets: nat)               // stability resets of the counter

  /** `spawned` says whether spawning yields a process id. */
  datatype Event =
    | CallStart
    | StartLogged(origin: Origin, spawned: bool)
    | StartReset(origin: Origin, spawned: bool)
    | StartFails(origin: Origin)
    | StartAnnounces
    | CallStop
    | StopProceeds
    | StopReturns
    | StopAnnounces(child: int)
    | TimerFires
    | CallbackResumes
    | RestartFailureAnnounces
    | ChildDies(which: nat, code: Option<int>, signal: Option<int>)
    | ExitDelivered(which: nat)
    | ErrorDelivered(which: nat)
    | Output
    | Tick(ms: nat)

  const NO_STARTS := Starts(0, 0, 0)
  const INITIAL := State(Stopped, 0, false, 0, NO_STARTS, NO_STARTS, 0, 0, 0, 0, multiset{}, [], None, None, 0, 0, [], 0, 0, 0)

  function SetPhase(s: State, to: Phase, cause: Cause): State {
    if s.phase == to then s else s.(phase := to, notes := s.notes + [StateChanged(s.phase, to, cause)])
  }

  function Emit(s: State, n: Note): State {
    s.(notes := s.notes + [n])
  }

  // ---------- start() ----------

  function CallsOf(s: State, origin: Origin): Starts {
    if origin.Caller? then s.byCaller else s.byTimer
  }

  function WithCalls(s: State, origin: Origin, calls: Starts): State {
    if origin.Caller? then s.(byCaller := calls) else s.(byTimer := calls)
  }

  predicate AcceptsStart(s: State) {
    s.phase.Stopped? || s.phase.Crashed?
  }

  /** Up to the first await; a refused start of a restart callback will be reported. */
  function BeginStart(s: State, origin: Origin): State {
    var calls := CallsOf(s, origin);
    if AcceptsStart(s) then WithCalls(SetPhase(s, Starting, ByStart), origin, calls.(logging := calls.logging + 1))
    else if origin.Timer? then s.(restartNotes := s.restartNotes + 1)
    else s
  }

  predicate WasStable(s: State) {
    s.lastStart.Some? && s.endTime.Some? && s.endTime.value - s.lastStart.value > STABILITY_THRESHOLD_MS
  }

  function Spawn(s: State, origin: Origin): State {
    SetPhase(s.(children := s.children + [Alive], endTime := None), Running, ByStart).(
      lastActivity := s.now,
      lastStart := Some(s.now),
      startNotes := s.startNotes + 1,
      autoSpawns := s.autoSpawns + (if origin.Timer? then 1 else 0))
  }

  function Launch(s: State, origin: Origin, spawned: bool): State {
    var calls := CallsOf(s, origin);
    if spawned then Spawn(s, origin) else WithCalls(s, origin, calls.(failing := calls.failing + 1))
  }

  /** From the first await to the next, or to the spawn when the last run was not stable. */
  function AfterLog(s: State, origin: Origin, spawned: bool): State {
    var calls := CallsOf(s, origin);
    if calls.logging == 0 then s
    else if WasStable(s) then WithCalls(s, origin, calls.(logging := calls.logging - 1, resetting := calls.resetting + 1))
    else Launch(WithCalls(s, origin, calls.(logging := calls.logging - 1)), origin, spawned)
  }

  function AfterReset(s: State, origin: Origin, spawned: bool): State {
    var calls := CallsOf(s, origin);
    if calls.resetting == 0 then s
    else
      var s1 := WithCalls(s, origin, calls.(resetting := calls.resetting - 1));
      Launch(s1.(restartCount := 0, resets := s.resets + 1), origin, spawned)
  }

  /** The error path after a spawn without a process id. */
  function SettleFailure(s: State, origin: Origin): State {
    var calls := CallsOf(s, origin);
    if calls.failing == 0 then s
    else
      var s1 := SetPhase(WithCalls(s, origin, calls.(failing := calls.failing - 1)), Stopped, ByFailedStart);
      if origin.Timer? then s1.(restartNotes := s1.restartNotes + 1) else s1
  }

  function AnnounceStart(s: State): State {
    if s.startNotes == 0 then s else Emit(s.(startNotes := s.startNotes - 1), ProcessStarted)
  }

  // ---------- stop() ----------

  function RequestStop(s: State): State {
    if s.phase.Stopped? || s.phase.Starting? then s else s.(requests := s.requests + 1)
  }

  /** After the first await the state is set without looking at it again. */
  function ProceedStop(s: State): State {
    if s.requests == 0 then s
    else SetPhase(s.(requests := s.requests - 1, timer := false), Stopping, ByStopping).(stops := s.stops + 1)
  }

  /** The child that stop() kills. */
  function Current(s: State): int {
    |s.children| - 1
  }

  /** After the kill, whether the child exited, was gone already or outlived the time limit. */
  function FinishStop(s: State): State {
    if s.stops == 0 then s
    else
      var s1 := s.(stops := s.stops - 1);
      if s.phase.Stopping? then SetPhase(s1, Stopped, ByStop(Current(s))).(stopNotes := s.stopNotes + multiset{Current(s)}) else s1
  }

  function AnnounceStop(s: State, child: int): State {
    if child !in s.stopNotes then s else Emit(s.(stopNotes := s.stopNotes - multiset{child}), ProcessStopped(child))
  }

  // ---------- Exits and restarts ----------

  predicate ShouldRestart(o: Options, s: State, code: Option<int>, signal: Option<int>) {
    if s.restartCount >= o.maxRestarts then false
    else if signal.Some? then true
    else if code == Some(0) then s.now - s.lastActivity > INACTIVITY_THRESHOLD_MS
    else true
  }

  function ScheduleRestart(s: State): State {
    s.(timer := true, restartCount := s.restartCount + 1, scheduled := s.scheduled + 1)
  }

  /** The exit handler; it acts on the supervisor's phase, whichever child the event belongs to. */
  function HandleExit(o: Options, s: State, i: nat, code: Option<int>, signal: Option<int>): State {
    var restart := s.phase.Running? && o.autoRestart && ShouldRestart(o, s, code, signal);
    var s1 := s.(endTime := Some(s.now));
    if s.phase.Running? && (code != Some(0) || restart) then
      var s2 := Emit(SetPhase(s1, Crashed, ByExit(i)), ProcessCrashed(restart));
      if restart then ScheduleRestart(s2) else s2
    else if !s.phase.Stopped? then Emit(SetPhase(s1, Stopped, ByExit(i)), ProcessStopped(i))
    else s1
  }

  function DeliverExit(o: Options, s: State, i: nat): State {
    if i < |s.children| && s.children[i].Dead? then
      HandleExit(o, s.(children := s.children[i := Reaped]), i, s.children[i].code, s.children[i].signal)
    else s
  }

  function DeliverError(s: State, i: nat): State {
    if i < |s.children| && s.children[i].Dead? && (s.phase.Running? || s.phase.Starting?) then SetPhase(s, Crashed, ByError) else s
  }

  function Die(s: State, i: nat, code: Option<int>, signal: Option<int>): State {
    if i < |s.children| && s.children[i].Alive? then s.(children := s.children[i := Dead(code, signal)]) else s
  }

  function FireTimer(s: State): State {
    if !s.timer then s
    else
      var s1 := s.(timer := false);
      if s.phase.Stopped? || s.phase.Stopping? then s1 else s1.(resuming := s.resuming + 1)
  }

  function ResumeCallback(s: State): State {
    if s.resuming == 0 then s else BeginStart(s.(resuming := s.resuming - 1), Timer)
  }

  function AnnounceRestartFailure(s: State): State {
    if s.restartNotes == 0 then s else Emit(s.(restartNotes := s.restartNotes - 1), RestartFailed)
  }

  function Step(o: Options, s: State, e: Event): State {
    match e
    case CallStart => BeginStart(s, Caller)
    case StartLogged(origin, spawned) => AfterLog(s, origin, spawned)
    case StartReset(origin, spawned) => AfterReset(s, origin, spawned)
    case StartFails(origin) => SettleFailure(s, origin)
    case StartAnnounces => AnnounceStart(s)
    case CallStop => RequestStop(s)
    case StopProceeds => ProceedStop(s)
    case StopReturns => FinishStop(s)
    case StopAnnounces(child) => AnnounceStop(s, child)
    case TimerFires => FireTimer(s)
    case CallbackResumes => ResumeCallback(s)
    case RestartFailureAnnounces => AnnounceRestartFailure(s)
    case ChildDies(i, code, signal) => Die(s, i, code, signal)
    case ExitDelivered(i) => DeliverExit(o, s, i)
    case ErrorDelivered(i) => DeliverError(s, i)
    case Output => s.(lastActivity := s.now)
    case Tick(ms) => s.(now := s.now + ms)
  }

  function Exec(o: Options, s: State, run: seq<Event>): State {
    if run == [] then s else Step(o, Exec(o, s, run[..|run| - 1]), run[|run| - 1])
  }

  lemma {:induction false} ExecJoins(o: Options, s: State, a: seq<Event>, b: seq<Event>)
    ensures Exec(o, s, a + b) == Exec(o, Exec(o, s, a), b)
  {
    if b == [] {
      assert a + b == a;
    } else {
      ExecJoins(o, s, a, b[..|b| - 1]);
      assert (a + b)[..|a + b| - 1] == a + b[..|b| - 1];
    }
  }

  lemma ExecOne(o: Options, s: State, e: Event)
    ensures Exec(o, s, [e]) == Step(o, s, e)
  {
    var none := [e][..0];
    assert none == [];
    assert Exec(o, s, none) == s;
  }

  lemma ExecTwo(o: Options, s: State, e: Event, f: Event)
    ensures Exec(o, s, [e, f]) == Step(o, Step(o, s, e), f)
  {
    ExecOne(o, s, e);
    assert [e, f][..1] == [e];
  }

  lemma ExecThree(o: Options, s: State, e: Event, f: Event, g: Event)
    ensures Exec(o, s, [e, f, g]) == Step(o, Step(o, Step(o, s, e), f), g)
  {
    ExecTwo(o, s, e, f);
    assert [e, f, g][..2] == [e, f];
  }

  // ---------- Starts that can still spawn ----------

  /** Accepted start() calls that have not reached their spawn yet. */
  function Unspawned(s: State): nat {
    s.byCaller.logging + s.byCaller.resetting + s.byTimer.logging + s.byTimer.resetting
  }

  function Failing(s: State): nat {
    s.byCaller.failing + s.byTimer.failing
  }

  /** Nothing but start() calls going on. */
  ghost predicate OnlyResumptions(run: seq<Event>) {
    forall e :: e in run ==> e.StartLogged? || e.StartReset?
  }

  lemma SomeOrigin(s: State) returns (origin: Origin)
    requires Unspawned(s) > 0
    ensures CallsOf(s, origin).logging + CallsOf(s, origin).resetting > 0
  {
    origin := if s.byCaller.logging + s.byCaller.resetting > 0 then Caller else Timer;
  }

  lemma ResetSpawns(o: Options, s: State, origin: Origin)
    requires CallsOf(s, origin).resetting > 0
    ensures var t := AfterReset(s, origin, true);
            t.children == s.children + [Alive] && Unspawned(t) == Unspawned(s) - 1 && t.phase.Running?
  {
  }

  lemma LogSpawnsOrWaits(o: Options, s: State, origin: Origin)
    requires CallsOf(s, origin).logging > 0
    ensures var t := AfterLog(s, origin, true);
            if WasStable(s) then t.children == s.children && Unspawned(t) == Unspawned(s) && CallsOf(t, origin).resetting > 0
            else t.children == s.children + [Alive] && Unspawned(t) == Unspawned(s) - 1 && t.phase.Running?
  {
  }

  /** A start() call under way can spawn without anything else happening. */
  lemma {:induction false} SpawnsOne(o: Options, s: State) returns (run: seq<Event>)
    requires Unspawned(s) > 0
    ensures OnlyResumptions(run)
    ensures Exec(o, s, run).children == s.children + [Alive] && Unspawned(Exec(o, s, run)) == Unspawned(s) - 1
    ensures Exec(o, s, run).phase.Running?
  {
    var origin := SomeOrigin(s);
    if CallsOf(s, origin).resetting > 0 {
      run := [StartReset(origin, true)];
      ExecOne(o, s, run[0]);
      ResetSpawns(o, s, origin);
    } else {
      LogSpawnsOrWaits(o, s, origin);
      if WasStable(s) {
        run := [StartLogged(origin, true), StartReset(origin, true)];
        ExecTwo(o, s, run[0], run[1]);
        ResetSpawns(o, AfterLog(s, origin, true), origin);
      } else {
        run := [StartLogged(origin, true)];
        ExecOne(o, s, run[0]);
      }
    }
  }
}
