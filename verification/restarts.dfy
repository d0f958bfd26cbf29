/** The restart budget: a bound on automatic spawns, and the end of crash loops. */
module Restarts {
  import opened Wrappers
  import opened Supervisor

  /** Restarts scheduled but not yet turned into a spawn or dropped. */
  function Outstanding(s: State): nat {
    (if s.timer then 1 else 0) + s.resuming + s.byTimer.logging + s.byTimer.resetting
  }

  /** maxRestarts for the start and again for every stability reset. */
  function Allowance(maxRestarts: nat, resets: nat): nat {
    if resets == 0 then maxRestarts else Allowance(maxRestarts, resets - 1) + maxRestarts
  }

  lemma {:induction false} AllowanceIsProduct(maxRestarts: nat, resets: nat)
    ensures Allowance(maxRestarts, resets) == maxRestarts * (resets + 1)
  {
    if resets > 0 {
      AllowanceIsProduct(maxRestarts, resets - 1);
      assert maxRestarts * resets + maxRestarts == maxRestarts * (resets + 1);
    }
  }

  ghost predicate WithinBudget(o: Options, s: State) {
    && WithinAllowance(o.maxRestarts, s.restartCount, s.scheduled, s.resets)
    && s.autoSpawns + Outstanding(s) <= s.scheduled
  }

  ghost predicate WithinAllowance(max: nat, restartCount: nat, scheduled: nat, resets: nat) {
    restartCount <= max && scheduled + (max - restartCount) <= Allowance(max, resets)
  }

  lemma ResetKeepsAllowance(max: nat, restartCount: nat, scheduled: nat, resets: nat)
    requires WithinAllowance(max, restartCount, scheduled, resets)
    ensures WithinAllowance(max, 0, scheduled, resets + 1)
  {
  }

  lemma LogUsesOutstanding(s: State, origin: Origin, spawned: bool)
    ensures var t := AfterLog(s, origin, spawned);
            && t.autoSpawns + Outstanding(t) <= s.autoSpawns + Outstanding(s)
            && t.scheduled == s.scheduled && t.restartCount == s.restartCount && t.resets == s.resets
  {
  }

  lemma ResetUsesOutstanding(s: State, origin: Origin, spawned: bool)
    requires CallsOf(s, origin).resetting > 0
    ensures var t := AfterReset(s, origin, spawned);
            && t.autoSpawns + Outstanding(t) <= s.autoSpawns + Outstanding(s)
            && t.scheduled == s.scheduled && t.restartCount == 0 && t.resets == s.resets + 1
  {
  }

  lemma StartKeepsBudget(o: Options, s: State, origin: Origin, spawned: bool)
    requires WithinBudget(o, s)
    ensures WithinBudget(o, AfterLog(s, origin, spawned)) && WithinBudget(o, AfterReset(s, origin, spawned))
  {
    LogUsesOutstanding(s, origin, spawned);
    if CallsOf(s, origin).resetting > 0 {
      ResetUsesOutstanding(s, origin, spawned);
      ResetKeepsAllowance(o.maxRestarts, s.restartCount, s.scheduled, s.resets);
    }
  }

  lemma ExitKeepsBudget(o: Options, s: State, i: nat, code: Option<int>, signal: Option<int>)
    requires WithinBudget(o, s)
    ensures WithinBudget(o, HandleExit(o, s, i, code, signal))
  {
  }

  /** Calls of start(), from the caller or from a restart callback. */
  lemma BeginKeepsBudget(o: Options, s: State)
    requires WithinBudget(o, s)
    ensures WithinBudget(o, BeginStart(s, Caller)) && WithinBudget(o, ResumeCallback(s))
  {
  }

  lemma FailureKeepsBudget(o: Options, s: State, origin: Origin)
    requires WithinBudget(o, s)
    ensures WithinBudget(o, SettleFailure(s, origin))
  {
  }

  lemma OthersKeepBudget(o: Options, s: State, e: Event)
    requires WithinBudget(o, s) && !e.StartLogged? && !e.StartReset? && !e.ExitDelivered?
    requires !e.CallStart? && !e.CallbackResumes? && !e.StartFails?
    ensures WithinBudget(o, Step(o, s, e))
  {
  }

  lemma {:induction false} StepKeepsBudget(o: Options, s: State, e: Event)
    requires WithinBudget(o, s)
    ensures WithinBudget(o, Step(o, s, e))
  {
    match e
    case CallStart => BeginKeepsBudget(o, s);
    case CallbackResumes => BeginKeepsBudget(o, s);
    case StartFails(origin) => FailureKeepsBudget(o, s, origin);
    case StartLogged(origin, spawned) => StartKeepsBudget(o, s, origin, spawned);
    case StartReset(origin, spawned) => StartKeepsBudget(o, s, origin, spawned);
    case ExitDelivered(i) =>
      if i < |s.children| && s.children[i].Dead? {
        ExitKeepsBudget(o, s.(children := s.children[i := Reaped]), i, s.children[i].code, s.children[i].signal);
      }
    case _ => OthersKeepBudget(o, s, e);
  }

  lemma {:induction false} RunKeepsBudget(o: Options, run: seq<Event>)
    ensures WithinBudget(o, Exec(o, INITIAL, run))
  {
    if run != [] {
      RunKeepsBudget(o, run[..|run| - 1]);
      StepKeepsBudget(o, Exec(o, INITIAL, run[..|run| - 1]), run[|run| - 1]);
    }
  }

  /** In every run the restart counter stays within maxRestarts, and the restart callback has spawned
      at most maxRestarts children per stability reset, plus maxRestarts. */
  lemma {:induction false} RestartBudget(o: Options, run: seq<Event>)
    ensures var s := Exec(o, INITIAL, run);
            s.restartCount <= o.maxRestarts && s.autoSpawns <= o.maxRestarts * (s.resets + 1)
  {
    RunKeepsBudget(o, run);
    AllowanceIsProduct(o.maxRestarts, Exec(o, INITIAL, run).resets);
  }

  /** No exit is delivered more than five minutes after the last successful start. */
  predicate ShortLived(s: State, e: Event) {
    e.ExitDelivered? && s.lastStart.Some? ==> s.now - s.lastStart.value <= STABILITY_THRESHOLD_MS
  }

  ghost predicate AllShortLived(o: Options, run: seq<Event>) {
    run != [] ==> AllShortLived(o, run[..|run| - 1]) && ShortLived(Exec(o, INITIAL, run[..|run| - 1]), run[|run| - 1])
  }

  ghost predicate NeverStable(s: State) {
    && s.resets == 0 && s.byCaller.resetting == 0 && s.byTimer.resetting == 0
    && !WasStable(s)
    && (s.lastStart.None? ==> s.children == [])
  }

  lemma ShortStartNeverResets(s: State, origin: Origin, spawned: bool)
    requires NeverStable(s)
    ensures NeverStable(AfterLog(s, origin, spawned)) && NeverStable(AfterReset(s, origin, spawned))
  {
  }

  lemma ShortExitNeverResets(o: Options, s: State, i: nat, code: Option<int>, signal: Option<int>)
    requires s.resets == 0 && s.byCaller.resetting == 0 && s.byTimer.resetting == 0
    requires s.lastStart.Some? && s.now - s.lastStart.value <= STABILITY_THRESHOLD_MS
    ensures NeverStable(HandleExit(o, s, i, code, signal))
  {
  }

  /** Whatever neither goes on with a start nor delivers an exit leaves the times of the last run alone. */
  lemma OthersNeverReset(o: Options, s: State, e: Event)
    requires NeverStable(s) && !e.StartLogged? && !e.StartReset? && !e.ExitDelivered?
    requires !e.CallStart? && !e.CallbackResumes? && !e.StartFails?
    ensures NeverStable(Step(o, s, e))
  {
  }

  lemma CallNeverResets(s: State, origin: Origin)
    requires NeverStable(s)
    ensures NeverStable(BeginStart(s, origin)) && NeverStable(SettleFailure(s, origin))
  {
  }

  lemma {:induction false} ShortStepNeverResets(o: Options, s: State, e: Event)
    requires NeverStable(s) && ShortLived(s, e)
    ensures NeverStable(Step(o, s, e))
  {
    match e
    case CallStart => CallNeverResets(s, Caller);
    case CallbackResumes =>
      if s.resuming > 0 {
        CallNeverResets(s.(resuming := s.resuming - 1), Timer);
      }
    case StartFails(origin) => CallNeverResets(s, origin);
    case StartLogged(origin, spawned) => ShortStartNeverResets(s, origin, spawned);
    case StartReset(origin, spawned) => ShortStartNeverResets(s, origin, spawned);
    case ExitDelivered(i) =>
      if i < |s.children| && s.children[i].Dead? {
        ShortExitNeverResets(o, s.(children := s.children[i := Reaped]), i, s.children[i].code, s.children[i].signal);
      }
    case _ => OthersNeverReset(o, s, e);
  }

  lemma {:induction false} ShortRunsNeverReset(o: Options, run: seq<Event>)
    requires AllShortLived(o, run)
    ensures NeverStable(Exec(o, INITIAL, run))
  {
    if run != [] {
      ShortRunsNeverReset(o, run[..|run| - 1]);
      ShortStepNeverResets(o, Exec(o, INITIAL, run[..|run| - 1]), run[|run| - 1]);
    }
  }

  /** A crash loop ends: if every run of the child lasts at most five minutes, the restart callback
      spawns at most maxRestarts children over the whole execution. */
  lemma {:induction false} CrashLoopsEnd(o: Options, run: seq<Event>)
    requires AllShortLived(o, run)
    ensures Exec(o, INITIAL, run).autoSpawns <= o.maxRestarts
  {
    RunKeepsBudget(o, run);
    ShortRunsNeverReset(o, run);
  }
}
