/** The announcement of stops, child by child: every entry into Stopped is announced exactly once, and
    when the end of one child is announced twice. */
module TerminalEvents {
  import opened Wrappers
  import opened Supervisor

  /** An end of child `c`: Stopped entered by a stop() that killed it or by its exit. */
  predicate Ends(n: Note, c: int) {
    n.StateChanged? && n.to.Stopped? && (n.cause == ByStop(c) || n.cause == ByExit(c))
  }

  function Entries(notes: seq<Note>, c: int): nat {
    if notes == [] then 0 else Entries(notes[..|notes| - 1], c) + (if Ends(notes[|notes| - 1], c) then 1 else 0)
  }

  /** The process_stopped events emitted for child `c`. */
  function Announcements(notes: seq<Note>, c: int): nat {
    if notes == [] then 0
    else Announcements(notes[..|notes| - 1], c) + (if notes[|notes| - 1] == ProcessStopped(c) then 1 else 0)
  }

  /** Stopped is entered for some child or by a failed start; Crashed from Running or Starting. */
  predicate IsOrderly(n: Note) {
    n.StateChanged? ==>
      && (n.to.Stopped? ==> n.cause.ByStop? || n.cause.ByExit? || n.cause.ByFailedStart?)
      && (n.to.Crashed? ==> n.from.Running? || n.from.Starting?)
  }

  predicate Orderly(notes: seq<Note>) {
    notes != [] ==> Orderly(notes[..|notes| - 1]) && IsOrderly(notes[|notes| - 1])
  }

  lemma {:induction false} OrderlyNotes(notes: seq<Note>, n: Note)
    requires Orderly(notes) && n in notes
    ensures IsOrderly(n)
  {
    if n != notes[|notes| - 1] {
      OrderlyNotes(notes[..|notes| - 1], n);
    }
  }

  ghost predicate Balanced(notes: seq<Note>, due: nat, c: int) {
    && Entries(notes, c) == Announcements(notes, c) + due
    && Orderly(notes)
  }

  ghost predicate Accounted(s: State, c: int) {
    Balanced(s.notes, s.stopNotes[c], c)
  }

  lemma NoteCounts(notes: seq<Note>, n: Note, c: int)
    ensures Entries(notes + [n], c) == Entries(notes, c) + (if Ends(n, c) then 1 else 0)
    ensures Announcements(notes + [n], c) == Announcements(notes, c) + (if n == ProcessStopped(c) then 1 else 0)
    ensures Orderly(notes + [n]) <==> Orderly(notes) && IsOrderly(n)
  {
    assert (notes + [n])[..|notes|] == notes;
  }

  /** A change of state adds an entry for the child whose end it is. */
  lemma PhaseCounts(s: State, to: Phase, cause: Cause, c: int)
    requires to.Crashed? ==> s.phase.Running? || s.phase.Starting? || s.phase.Crashed?
    requires to.Stopped? ==> cause.ByStop? || cause.ByExit? || cause.ByFailedStart?
    requires Orderly(s.notes)
    ensures var t := SetPhase(s, to, cause);
            && Entries(t.notes, c) == Entries(s.notes, c) + (if s.phase != to && Ends(StateChanged(s.phase, to, cause), c) then 1 else 0)
            && Announcements(t.notes, c) == Announcements(s.notes, c)
            && Orderly(t.notes)
  {
    NoteCounts(s.notes, StateChanged(s.phase, to, cause), c);
  }

  lemma BeginAccounts(s: State, origin: Origin, c: int)
    requires Accounted(s, c)
    ensures Accounted(BeginStart(s, origin), c)
  {
    PhaseCounts(s, Starting, ByStart, c);
  }

  lemma LaunchAccounts(s: State, origin: Origin, spawned: bool, c: int)
    requires Accounted(s, c)
    ensures Accounted(Launch(s, origin, spawned), c)
  {
    PhaseCounts(s, Running, ByStart, c);
  }

  lemma LogAccounts(s: State, origin: Origin, spawned: bool, c: int)
    requires Accounted(s, c)
    ensures Accounted(AfterLog(s, origin, spawned), c)
  {
    var calls := CallsOf(s, origin);
    if calls.logging > 0 && !WasStable(s) {
      LaunchAccounts(WithCalls(s, origin, calls.(logging := calls.logging - 1)), origin, spawned, c);
    }
  }

  lemma ResetAccounts(s: State, origin: Origin, spawned: bool, c: int)
    requires Accounted(s, c)
    ensures Accounted(AfterReset(s, origin, spawned), c)
  {
    var calls := CallsOf(s, origin);
    if calls.resetting > 0 {
      var s1 := WithCalls(s, origin, calls.(resetting := calls.resetting - 1));
      LaunchAccounts(s1.(restartCount := 0, resets := s.resets + 1), origin, spawned, c);
    }
  }

  lemma FailureAccounts(s: State, origin: Origin, c: int)
    requires Accounted(s, c)
    ensures Accounted(SettleFailure(s, origin), c)
  {
    PhaseCounts(s, Stopped, ByFailedStart, c);
  }

  lemma StopAccounts(s: State, c: int)
    requires Accounted(s, c)
    ensures Accounted(ProceedStop(s), c) && Accounted(FinishStop(s), c)
  {
    PhaseCounts(s, Stopping, ByStopping, c);
    PhaseCounts(s, Stopped, ByStop(Current(s)), c);
  }

  lemma AnnouncementAccounts(s: State, child: int, c: int)
    requires Accounted(s, c)
    ensures Accounted(AnnounceStop(s, child), c)
  {
    NoteCounts(s.notes, ProcessStopped(child), c);
  }

  lemma {:induction false} ExitAccounts(o: Options, s: State, i: nat, code: Option<int>, signal: Option<int>, c: int)
    requires Accounted(s, c)
    ensures Accounted(HandleExit(o, s, i, code, signal), c)
  {
    var restart := s.phase.Running? && o.autoRestart && ShouldRestart(o, s, code, signal);
    if s.phase.Running? && (code != Some(0) || restart) {
      CrashAccounts(s.(endTime := Some(s.now)), i, restart, c);
    } else if !s.phase.Stopped? {
      EndAccounts(s.(endTime := Some(s.now)), i, c);
    }
  }

  lemma CrashAccounts(s: State, i: nat, restart: bool, c: int)
    requires Accounted(s, c) && s.phase.Running?
    ensures Accounted(Emit(SetPhase(s, Crashed, ByExit(i)), ProcessCrashed(restart)), c)
  {
    PhaseCounts(s, Crashed, ByExit(i), c);
    NoteCounts(SetPhase(s, Crashed, ByExit(i)).notes, ProcessCrashed(restart), c);
  }

  lemma EndAccounts(s: State, i: nat, c: int)
    requires Accounted(s, c) && !s.phase.Stopped?
    ensures Accounted(Emit(SetPhase(s, Stopped, ByExit(i)), ProcessStopped(i)), c)
  {
    PhaseCounts(s, Stopped, ByExit(i), c);
    NoteCounts(SetPhase(s, Stopped, ByExit(i)).notes, ProcessStopped(i), c);
  }

  lemma ResumeAccounts(s: State, c: int)
    requires Accounted(s, c)
    ensures Accounted(ResumeCallback(s), c)
  {
    if s.resuming > 0 {
      BeginAccounts(s.(resuming := s.resuming - 1), Timer, c);
    }
  }

  lemma {:induction false} DeathAccounts(o: Options, s: State, i: nat, c: int)
    requires Accounted(s, c)
    ensures Accounted(DeliverExit(o, s, i), c) && Accounted(DeliverError(s, i), c)
  {
    if i < |s.children| && s.children[i].Dead? {
      ExitAccounts(o, s.(children := s.children[i := Reaped]), i, s.children[i].code, s.children[i].signal, c);
      if s.phase.Running? || s.phase.Starting? {
        PhaseCounts(s, Crashed, ByError, c);
      }
    }
  }

  lemma ReportAccounts(s: State, c: int)
    requires Accounted(s, c)
    ensures Accounted(AnnounceStart(s), c) && Accounted(AnnounceRestartFailure(s), c)
  {
    NoteCounts(s.notes, ProcessStarted, c);
    NoteCounts(s.notes, RestartFailed, c);
  }

  lemma NothingNoted(o: Options, s: State, e: Event)
    requires e.CallStop? || e.TimerFires? || e.ChildDies? || e.Output? || e.Tick?
    ensures var t := Step(o, s, e);
            t.notes == s.notes && t.stopNotes == s.stopNotes && t.phase == s.phase && |t.children| == |s.children|
  {
  }

  lemma StepAccounts(o: Options, s: State, e: Event, c: int)
    requires Accounted(s, c)
    ensures Accounted(Step(o, s, e), c)
  {
    match e
    case CallStart => BeginAccounts(s, Caller, c);
    case StartLogged(origin, spawned) => LogAccounts(s, origin, spawned, c);
    case StartReset(origin, spawned) => ResetAccounts(s, origin, spawned, c);
    case StartFails(origin) => FailureAccounts(s, origin, c);
    case StartAnnounces => ReportAccounts(s, c);
    case StopProceeds => StopAccounts(s, c);
    case StopReturns => StopAccounts(s, c);
    case StopAnnounces(child) => AnnouncementAccounts(s, child, c);
    case CallbackResumes => ResumeAccounts(s, c);
    case RestartFailureAnnounces => ReportAccounts(s, c);
    case ExitDelivered(i) => DeathAccounts(o, s, i, c);
    case ErrorDelivered(i) => DeathAccounts(o, s, i, c);
    case _ => NothingNoted(o, s, e);
  }

  lemma {:induction false} RunAccounts(o: Options, run: seq<Event>, c: int)
    ensures Accounted(Exec(o, INITIAL, run), c)
  {
    if run != [] {
      RunAccounts(o, run[..|run| - 1], c);
      StepAccounts(o, Exec(o, INITIAL, run[..|run| - 1]), run[|run| - 1], c);
    }
  }

  /** In every run, for every child: the entries into Stopped at its end are as many as the process_stopped
      emitted for it and those a stop() past its state change is about to emit. Stopped is entered at a
      child's end or by a failed start only, and Crashed from Running or Starting only. */
  lemma {:induction false} EveryStopIsAnnounced(o: Options, run: seq<Event>, c: int)
    ensures var s := Exec(o, INITIAL, run);
            && Entries(s.notes, c) == Announcements(s.notes, c) + s.stopNotes[c]
            && forall n :: n in s.notes && n.StateChanged? ==>
                 && (n.to.Stopped? ==> n.cause.ByStop? || n.cause.ByExit? || n.cause.ByFailedStart?)
                 && (n.to.Crashed? ==> n.from.Running? || n.from.Starting?)
  {
    RunAccounts(o, run, c);
    var s := Exec(o, INITIAL, run);
    forall n | n in s.notes
      ensures IsOrderly(n)
    {
      OrderlyNotes(s.notes, n);
    }
  }

  // ---------- Twice for one child ----------

  /** A stop past its guards proceeds to its state change when the child it would kill has had its end. */
  predicate LateStop(s: State, e: Event, c: int) {
    e.StopProceeds? && s.requests > 0 && Current(s) == c && Entries(s.notes, c) > 0
  }

  /** The exit handler takes its crash branch. */
  predicate Crashes(o: Options, s: State, code: Option<int>, signal: Option<int>) {
    s.phase.Running? && (code != Some(0) || (o.autoRestart && ShouldRestart(o, s, code, signal)))
  }

  /** The exit handler takes its announcing branch. */
  predicate AnnouncesExit(o: Options, s: State, i: nat) {
    && i < |s.children| && s.children[i].Dead? && !s.phase.Stopped?
    && !Crashes(o, s, s.children[i].code, s.children[i].signal)
  }

  /** An exit reaches that branch when a stop has had the end of the same child before. */
  predicate LateExit(o: Options, s: State, e: Event, c: int) {
    e.ExitDelivered? && e.which == c && AnnouncesExit(o, s, e.which) && Entries(s.notes, c) > 0
  }

  predicate Late(o: Options, s: State, e: Event, c: int) {
    LateStop(s, e, c) || LateExit(o, s, e, c)
  }

  ghost predicate Once(notes: seq<Note>, phase: Phase, current: int, c: int) {
    Entries(notes, c) <= 1 && (phase.Stopping? && current == c ==> Entries(notes, c) == 0)
  }

  /** One end at most, and none of the child that a stop under way is killing. */
  ghost predicate OnceAtMost(s: State, c: int) {
    Once(s.notes, s.phase, Current(s), c)
  }

  /** A change of state into anything but Stopping adds at most the entry it stands for. */
  lemma PhaseKeepsOnce(s: State, to: Phase, cause: Cause, c: int)
    requires OnceAtMost(s, c) && !to.Stopping?
    requires s.phase != to && Ends(StateChanged(s.phase, to, cause), c) ==> Entries(s.notes, c) == 0
    ensures OnceAtMost(SetPhase(s, to, cause), c) && !SetPhase(s, to, cause).phase.Stopping?
  {
    NoteCounts(s.notes, StateChanged(s.phase, to, cause), c);
  }

  lemma EmitKeepsOnce(s: State, n: Note, c: int)
    requires OnceAtMost(s, c) && !n.StateChanged?
    ensures OnceAtMost(Emit(s, n), c)
  {
    NoteCounts(s.notes, n, c);
  }

  lemma BeginKeepsOnce(s: State, origin: Origin, c: int)
    requires OnceAtMost(s, c)
    ensures OnceAtMost(BeginStart(s, origin), c)
  {
    PhaseKeepsOnce(s, Starting, ByStart, c);
  }

  lemma LaunchKeepsOnce(s: State, origin: Origin, spawned: bool, c: int)
    requires OnceAtMost(s, c)
    ensures OnceAtMost(Launch(s, origin, spawned), c)
  {
    NoteCounts(s.notes, StateChanged(s.phase, Running, ByStart), c);
  }

  lemma LogKeepsOnce(s: State, origin: Origin, spawned: bool, c: int)
    requires OnceAtMost(s, c)
    ensures OnceAtMost(AfterLog(s, origin, spawned), c)
  {
    var calls := CallsOf(s, origin);
    if calls.logging > 0 && !WasStable(s) {
      LaunchKeepsOnce(WithCalls(s, origin, calls.(logging := calls.logging - 1)), origin, spawned, c);
    }
  }

  lemma ResetKeepsOnce(s: State, origin: Origin, spawned: bool, c: int)
    requires OnceAtMost(s, c)
    ensures OnceAtMost(AfterReset(s, origin, spawned), c)
  {
    var calls := CallsOf(s, origin);
    if calls.resetting > 0 {
      var s1 := WithCalls(s, origin, calls.(resetting := calls.resetting - 1));
      LaunchKeepsOnce(s1.(restartCount := 0, resets := s.resets + 1), origin, spawned, c);
    }
  }

  lemma FailureKeepsOnce(s: State, origin: Origin, c: int)
    requires OnceAtMost(s, c)
    ensures OnceAtMost(SettleFailure(s, origin), c)
  {
    PhaseKeepsOnce(s, Stopped, ByFailedStart, c);
  }

  lemma ProceedKeepsOnce(s: State, c: int)
    requires OnceAtMost(s, c) && !LateStop(s, StopProceeds, c)
    ensures OnceAtMost(ProceedStop(s), c)
  {
    NoteCounts(s.notes, StateChanged(s.phase, Stopping, ByStopping), c);
  }

  lemma FinishKeepsOnce(s: State, c: int)
    requires OnceAtMost(s, c)
    ensures OnceAtMost(FinishStop(s), c)
  {
    if s.phase.Stopping? {
      PhaseKeepsOnce(s, Stopped, ByStop(Current(s)), c);
    }
  }

  lemma EndKeepsOnce(s: State, i: nat, c: int)
    requires OnceAtMost(s, c) && (i == c ==> Entries(s.notes, c) == 0)
    ensures OnceAtMost(Emit(SetPhase(s, Stopped, ByExit(i)), ProcessStopped(i)), c)
  {
    PhaseKeepsOnce(s, Stopped, ByExit(i), c);
    EmitKeepsOnce(SetPhase(s, Stopped, ByExit(i)), ProcessStopped(i), c);
  }

  lemma CrashKeepsOnce(s: State, i: nat, restart: bool, c: int)
    requires OnceAtMost(s, c)
    ensures OnceAtMost(Emit(SetPhase(s, Crashed, ByExit(i)), ProcessCrashed(restart)), c)
  {
    PhaseKeepsOnce(s, Crashed, ByExit(i), c);
    EmitKeepsOnce(SetPhase(s, Crashed, ByExit(i)), ProcessCrashed(restart), c);
  }

  lemma ExitKeepsOnce(o: Options, s: State, i: nat, code: Option<int>, signal: Option<int>, c: int)
    requires OnceAtMost(s, c)
    requires i == c && !s.phase.Stopped? && !Crashes(o, s, code, signal) ==> Entries(s.notes, c) == 0
    ensures OnceAtMost(HandleExit(o, s, i, code, signal), c)
  {
    var s1 := s.(endTime := Some(s.now));
    if Crashes(o, s, code, signal) {
      CrashKeepsOnce(s1, i, o.autoRestart && ShouldRestart(o, s, code, signal), c);
    } else if !s.phase.Stopped? {
      EndKeepsOnce(s1, i, c);
    }
  }

  lemma DeathKeepsOnce(o: Options, s: State, i: nat, c: int)
    requires OnceAtMost(s, c) && !LateExit(o, s, ExitDelivered(i), c)
    ensures OnceAtMost(DeliverExit(o, s, i), c)
  {
    if i < |s.children| && s.children[i].Dead? {
      ExitKeepsOnce(o, s.(children := s.children[i := Reaped]), i, s.children[i].code, s.children[i].signal, c);
    }
  }

  lemma ErrorKeepsOnce(s: State, i: nat, c: int)
    requires OnceAtMost(s, c)
    ensures OnceAtMost(DeliverError(s, i), c)
  {
    PhaseKeepsOnce(s, Crashed, ByError, c);
  }

  lemma ResumeKeepsOnce(s: State, c: int)
    requires OnceAtMost(s, c)
    ensures OnceAtMost(ResumeCallback(s), c)
  {
    if s.resuming > 0 {
      BeginKeepsOnce(s.(resuming := s.resuming - 1), Timer, c);
    }
  }

  lemma ReportKeepsOnce(s: State, child: int, c: int)
    requires OnceAtMost(s, c)
    ensures OnceAtMost(AnnounceStart(s), c) && OnceAtMost(AnnounceRestartFailure(s), c) && OnceAtMost(AnnounceStop(s, child), c)
  {
    EmitKeepsOnce(s, ProcessStarted, c);
    EmitKeepsOnce(s, RestartFailed, c);
    EmitKeepsOnce(s, ProcessStopped(child), c);
  }

  lemma {:induction false} StartStepKeepsOnce(o: Options, s: State, e: Event, c: int)
    requires OnceAtMost(s, c) && !e.StopProceeds? && !e.StopReturns? && !e.StopAnnounces? && !e.ExitDelivered? && !e.ErrorDelivered?
    ensures OnceAtMost(Step(o, s, e), c)
  {
    match e
    case CallStart => BeginKeepsOnce(s, Caller, c);
    case StartLogged(origin, spawned) => LogKeepsOnce(s, origin, spawned, c);
    case StartReset(origin, spawned) => ResetKeepsOnce(s, origin, spawned, c);
    case StartFails(origin) => FailureKeepsOnce(s, origin, c);
    case StartAnnounces => ReportKeepsOnce(s, c, c);
    case CallbackResumes => ResumeKeepsOnce(s, c);
    case RestartFailureAnnounces => ReportKeepsOnce(s, c, c);
    case _ => NothingNoted(o, s, e);
  }

  lemma {:induction false} StepKeepsOnce(o: Options, s: State, e: Event, c: int)
    requires OnceAtMost(s, c) && !Late(o, s, e, c)
    ensures OnceAtMost(Step(o, s, e), c)
  {
    match e
    case StopProceeds => ProceedKeepsOnce(s, c);
    case StopReturns => FinishKeepsOnce(s, c);
    case StopAnnounces(child) => ReportKeepsOnce(s, child, c);
    case ExitDelivered(i) => DeathKeepsOnce(o, s, i, c);
    case ErrorDelivered(i) => ErrorKeepsOnce(s, i, c);
    case _ => StartStepKeepsOnce(o, s, e, c);
  }

  ghost predicate NeverLate(o: Options, run: seq<Event>, c: int) {
    run != [] ==> NeverLate(o, run[..|run| - 1], c) && !Late(o, Exec(o, INITIAL, run[..|run| - 1]), run[|run| - 1], c)
  }

  lemma {:induction false} RunKeepsOnce(o: Options, run: seq<Event>, c: int)
    requires NeverLate(o, run, c)
    ensures OnceAtMost(Exec(o, INITIAL, run), c)
  {
    if run != [] {
      RunKeepsOnce(o, run[..|run| - 1], c);
      StepKeepsOnce(o, Exec(o, INITIAL, run[..|run| - 1]), run[|run| - 1], c);
    }
  }

  /** At every moment of the run, also when a stop waiting for its kill returns just then, child `c` has had
      one end at most. */
  ghost predicate EndsOnceThroughout(o: Options, run: seq<Event>, c: int) {
    var s := Exec(o, INITIAL, run);
    && Entries(s.notes, c) <= 1
    && Entries(FinishStop(s).notes, c) <= 1
    && (run != [] ==> EndsOnceThroughout(o, run[..|run| - 1], c))
  }

  lemma LateStopEndsAgain(s: State, c: int)
    requires LateStop(s, StopProceeds, c)
    ensures Entries(FinishStop(ProceedStop(s)).notes, c) == Entries(s.notes, c) + 1
  {
    NoteCounts(s.notes, StateChanged(s.phase, Stopping, ByStopping), c);
    NoteCounts(ProceedStop(s).notes, StateChanged(Stopping, Stopped, ByStop(c)), c);
  }

  lemma LateExitEndsAgain(o: Options, s: State, i: nat)
    requires AnnouncesExit(o, s, i)
    ensures Entries(DeliverExit(o, s, i).notes, i) == Entries(s.notes, i) + 1
  {
    var s1 := s.(children := s.children[i := Reaped], endTime := Some(s.now));
    NoteCounts(s.notes, StateChanged(s.phase, Stopped, ByExit(i)), i);
    NoteCounts(SetPhase(s1, Stopped, ByExit(i)).notes, ProcessStopped(i), i);
  }

  lemma MovesOn(o: Options, front: seq<Event>, e: Event)
    ensures Exec(o, INITIAL, front + [e]) == Step(o, Exec(o, INITIAL, front), e)
  {
    assert (front + [e])[..|front|] == front;
  }

  lemma LateStopBreaks(o: Options, front: seq<Event>, e: Event, c: int)
    requires LateStop(Exec(o, INITIAL, front), e, c)
    ensures !EndsOnceThroughout(o, front + [e], c)
  {
    MovesOn(o, front, e);
    LateStopEndsAgain(Exec(o, INITIAL, front), c);
  }

  lemma LateExitBreaks(o: Options, front: seq<Event>, e: Event, c: int)
    requires LateExit(o, Exec(o, INITIAL, front), e, c)
    ensures !EndsOnceThroughout(o, front + [e], c)
  {
    MovesOn(o, front, e);
    LateExitEndsAgain(o, Exec(o, INITIAL, front), e.which);
  }

  /** In every run, for every child: its end is announced at most once, by stop() calls and the exit handler
      together, if and only if no stop gets to its state change when the child it would kill has had its
      end, and no exit of the child reaches the announcing branch when a stop has had its end. */
  lemma {:induction false} StoppedOnceExactlyWhen(o: Options, run: seq<Event>, c: int)
    ensures EndsOnceThroughout(o, run, c) <==> NeverLate(o, run, c)
  {
    if run != [] {
      StoppedOnceExactlyWhen(o, run[..|run| - 1], c);
    }
    if NeverLate(o, run, c) {
      RunKeepsOnce(o, run, c);
      FinishKeepsOnce(Exec(o, INITIAL, run), c);
    } else {
      var front, e := run[..|run| - 1], run[|run| - 1];
      assert run == front + [e];
      if LateStop(Exec(o, INITIAL, front), e, c) {
        LateStopBreaks(o, front, e, c);
      } else if LateExit(o, Exec(o, INITIAL, front), e, c) {
        LateExitBreaks(o, front, e, c);
      }
    }
  }

  // ---------- The ways to be announced twice ----------

  /** What stop() does after its first await, from any state. */
  lemma {:induction false} StopEnds(s: State, i: nat)
    requires s.requests > 0 && i == Current(s)
    ensures var t := AnnounceStop(FinishStop(ProceedStop(s)), i);
            && t.notes == (if s.phase.Stopping? then s.notes else s.notes + [StateChanged(s.phase, Stopping, ByStopping)])
                          + [StateChanged(Stopping, Stopped, ByStop(i)), ProcessStopped(i)]
            && t.phase.Stopped? && t.children == s.children
  {
    var u := ProceedStop(s);
    var v := FinishStop(u);
    assert v.stopNotes == s.stopNotes + multiset{i};
    assert v.notes == u.notes + [StateChanged(Stopping, Stopped, ByStop(i))];
  }

  /** What the exit handler does outside its crash branch. */
  lemma ExitEnds(o: Options, s: State, i: nat, code: Option<int>, signal: Option<int>)
    requires i < |s.children| && s.children[i] == Dead(code, signal)
    requires !s.phase.Stopped? && !Crashes(o, s, code, signal)
    ensures var t := DeliverExit(o, s, i);
            && t.notes == s.notes + [StateChanged(s.phase, Stopped, ByExit(i)), ProcessStopped(i)]
            && t.phase.Stopped? && t.requests == s.requests && |t.children| == |s.children|
  {
  }

  lemma StopSteps(o: Options, s: State, i: nat)
    ensures Exec(o, s, [StopProceeds, StopReturns, StopAnnounces(i)]) == AnnounceStop(FinishStop(ProceedStop(s)), i)
  {
    ExecThree(o, s, StopProceeds, StopReturns, StopAnnounces(i));
  }

  /** A clean exit during the first await of stop() is announced by the exit handler and by stop(). */
  lemma ExitDuringStopIsAnnouncedTwice(o: Options, s: State, i: nat)
    requires s.phase.Running? && s.requests > 0
    requires i == Current(s) && s.children[i].Dead? && s.children[i].code == Some(0)
    requires !o.autoRestart || !ShouldRestart(o, s, s.children[i].code, s.children[i].signal)
    ensures Exec(o, s, [ExitDelivered(i)] + [StopProceeds, StopReturns, StopAnnounces(i)]).notes
         == s.notes + [StateChanged(Running, Stopped, ByExit(i)), ProcessStopped(i)]
            + [StateChanged(Stopped, Stopping, ByStopping)] + [StateChanged(Stopping, Stopped, ByStop(i)), ProcessStopped(i)]
  {
    ExecJoins(o, s, [ExitDelivered(i)], [StopProceeds, StopReturns, StopAnnounces(i)]);
    ExecOne(o, s, ExitDelivered(i));
    var t := DeliverExit(o, s, i);
    ExitEnds(o, s, i, s.children[i].code, s.children[i].signal);
    StopSteps(o, t, i);
    StopEnds(t, i);
  }

  lemma ExitAfterStart(o: Options, s: State, i: nat, code: Option<int>, signal: Option<int>)
    requires s.phase.Stopped? && i < |s.children| && s.children[i].Alive?
    ensures var t := Exec(o, s, [CallStart, ChildDies(i, code, signal), ExitDelivered(i)]);
            && t.notes == s.notes + [StateChanged(Stopped, Starting, ByStart)] + [StateChanged(Starting, Stopped, ByExit(i)), ProcessStopped(i)]
            && |t.children| == |s.children|
  {
    ExecThree(o, s, CallStart, ChildDies(i, code, signal), ExitDelivered(i));
    ExitEnds(o, Die(BeginStart(s, Caller), i, code, signal), i, code, signal);
  }

  lemma StartAfterExit(o: Options, s: State, i: nat)
    requires s.phase.Running? && i < |s.children| && s.children[i].Alive?
    requires !o.autoRestart || !ShouldRestart(o, s, Some(0), None)
    ensures var t := Exec(o, s, [ChildDies(i, Some(0), None), ExitDelivered(i), CallStart]);
            && t.notes == s.notes + [StateChanged(Running, Stopped, ByExit(i)), ProcessStopped(i)] + [StateChanged(Stopped, Starting, ByStart)]
            && t.phase.Starting? && t.requests == s.requests && |t.children| == |s.children|
  {
    ExecThree(o, s, ChildDies(i, Some(0), None), ExitDelivered(i), CallStart);
    ExitEnds(o, Die(s, i, Some(0), None), i, Some(0), None);
  }

  /** A stop whose kill times out announces the child, and so does its exit when it comes after the next
      start. */
  lemma LateExitIsAnnouncedTwice(o: Options, s: State, i: nat, code: Option<int>, signal: Option<int>)
    requires s.phase.Running? && s.requests > 0 && i == Current(s) && s.children[i].Alive?
    ensures var t := Exec(o, s, [StopProceeds, StopReturns, StopAnnounces(i)] + [CallStart, ChildDies(i, code, signal), ExitDelivered(i)]);
            && t.notes == s.notes + [StateChanged(Running, Stopping, ByStopping)] + [StateChanged(Stopping, Stopped, ByStop(i)), ProcessStopped(i)]
                          + [StateChanged(Stopped, Starting, ByStart)] + [StateChanged(Starting, Stopped, ByExit(i)), ProcessStopped(i)]
            && |t.children| == |s.children|
  {
    var a, b := [StopProceeds, StopReturns, StopAnnounces(i)], [CallStart, ChildDies(i, code, signal), ExitDelivered(i)];
    ExecJoins(o, s, a, b);
    StopSteps(o, s, i);
    StopEnds(s, i);
    ExitAfterStart(o, Exec(o, s, a), i, code, signal);
  }

  lemma AnnouncedOnceMore(notes: seq<Note>, n: Note, i: int)
    requires !n.ProcessStopped?
    ensures Announcements(notes + [n], i) == Announcements(notes, i)
    ensures Announcements(notes + [n, ProcessStopped(i)], i) == Announcements(notes, i) + 1
  {
    NoteCounts(notes, n, i);
    NoteCounts(notes + [n], ProcessStopped(i), i);
    assert notes + [n, ProcessStopped(i)] == notes + [n] + [ProcessStopped(i)];
  }

  lemma AnnouncedTwice(notes: seq<Note>, i: int)
    ensures Announcements(notes + [StateChanged(Running, Stopping, ByStopping)] + [StateChanged(Stopping, Stopped, ByStop(i)), ProcessStopped(i)]
                          + [StateChanged(Stopped, Starting, ByStart)] + [StateChanged(Starting, Stopped, ByExit(i)), ProcessStopped(i)], i)
         == Announcements(notes, i) + 2
  {
    var a := notes + [StateChanged(Running, Stopping, ByStopping)];
    var b := a + [StateChanged(Stopping, Stopped, ByStop(i)), ProcessStopped(i)];
    AnnouncedOnceMore(notes, StateChanged(Running, Stopping, ByStopping), i);
    AnnouncedOnceMore(a, StateChanged(Stopping, Stopped, ByStop(i)), i);
    AnnouncedOnceMore(b, StateChanged(Stopped, Starting, ByStart), i);
    AnnouncedOnceMore(b + [StateChanged(Stopped, Starting, ByStart)], StateChanged(Starting, Stopped, ByExit(i)), i);
  }

  lemma FirstStart(o: Options)
    ensures var s := Exec(o, INITIAL, [CallStart, StartLogged(Caller, true), CallStop]);
            && s.phase.Running? && s.requests == 1 && s.children == [Alive]
            && s.notes == [StateChanged(Stopped, Starting, ByStart), StateChanged(Starting, Running, ByStart)]
  {
    ExecThree(o, INITIAL, CallStart, StartLogged(Caller, true), CallStop);
    FirstSpawn();
  }

  lemma FirstSpawn()
    ensures var s := AfterLog(BeginStart(INITIAL, Caller), Caller, true);
            && s.phase.Running? && s.requests == 0 && s.children == [Alive]
            && s.notes == [StateChanged(Stopped, Starting, ByStart), StateChanged(Starting, Running, ByStart)]
  {
    var s := BeginStart(INITIAL, Caller);
    assert s.notes == [StateChanged(Stopped, Starting, ByStart)] && s.byCaller.logging == 1 && !WasStable(s);
  }

  /** Such a run from the beginning, with one child in all. */
  lemma OneChildEndsTwice(o: Options)
    ensures var t := Exec(o, INITIAL, [CallStart, StartLogged(Caller, true), CallStop]
                                      + ([StopProceeds, StopReturns, StopAnnounces(0)] + [CallStart, ChildDies(0, Some(1), None), ExitDelivered(0)]));
            |t.children| == 1 && Announcements(t.notes, 0) == 2
  {
    var a := [CallStart, StartLogged(Caller, true), CallStop];
    var b := [StopProceeds, StopReturns, StopAnnounces(0)] + [CallStart, ChildDies(0, Some(1), None), ExitDelivered(0)];
    ExecJoins(o, INITIAL, a, b);
    FirstStart(o);
    var s := Exec(o, INITIAL, a);
    LateExitIsAnnouncedTwice(o, s, 0, Some(1), None);
    AnnouncedTwice(s.notes, 0);
    AnnouncedOnceMore([], StateChanged(Stopped, Starting, ByStart), 0);
    AnnouncedOnceMore([StateChanged(Stopped, Starting, ByStart)], StateChanged(Starting, Running, ByStart), 0);
    assert s.notes == [] + [StateChanged(Stopped, Starting, ByStart)] + [StateChanged(Starting, Running, ByStart)];
  }

  /** A stop that a start overtakes announces the child whose exit has been announced. */
  lemma OvertakenStopIsAnnouncedTwice(o: Options, s: State, i: nat)
    requires s.phase.Running? && s.requests > 0 && i == Current(s) && s.children[i].Alive?
    requires !o.autoRestart || !ShouldRestart(o, s, Some(0), None)
    ensures var t := Exec(o, s, [ChildDies(i, Some(0), None), ExitDelivered(i), CallStart] + [StopProceeds, StopReturns, StopAnnounces(i)]);
            && t.notes == s.notes + [StateChanged(Running, Stopped, ByExit(i)), ProcessStopped(i)] + [StateChanged(Stopped, Starting, ByStart)]
                          + [StateChanged(Starting, Stopping, ByStopping)] + [StateChanged(Stopping, Stopped, ByStop(i)), ProcessStopped(i)]
            && |t.children| == |s.children|
  {
    var a, b := [ChildDies(i, Some(0), None), ExitDelivered(i), CallStart], [StopProceeds, StopReturns, StopAnnounces(i)];
    ExecJoins(o, s, a, b);
    StartAfterExit(o, s, i);
    StopSteps(o, Exec(o, s, a), i);
    StopEnds(Exec(o, s, a), i);
  }
}
