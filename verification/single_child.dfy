/** When the supervisor keeps at most one child: over whole runs, and for one accepted start together
    with everything that may follow it. */
module SingleChild {
  import opened Wrappers
  import opened Supervisor

  predicate AllReaped(children: seq<Child>) {
    forall i :: 0 <= i < |children| ==> children[i].Reaped?
  }

  predicate AtMostOneUnreaped(children: seq<Child>) {
    forall i, j :: 0 <= i < j < |children| ==> children[i].Reaped? || children[j].Reaped?
  }

  predicate IsAcceptedStart(s: State, e: Event) {
    (e.CallStart? || (e.CallbackResumes? && s.resuming > 0)) && AcceptsStart(s)
  }

  /** An accepted start comes after the exits of all earlier children were delivered, and while no other
      start() is on its way to a spawn. */
  predicate ClearStart(s: State, e: Event) {
    IsAcceptedStart(s, e) ==> AllReaped(s.children) && Unspawned(s) == 0
  }

  ghost predicate AllClear(o: Options, run: seq<Event>) {
    run != [] ==> AllClear(o, run[..|run| - 1]) && ClearStart(Exec(o, INITIAL, run[..|run| - 1]), run[|run| - 1])
  }

  /** At every moment of the run, however the start() calls under way go on, one child at most. */
  ghost predicate OneChildThroughout(o: Options, run: seq<Event>) {
    ResumptionsKeepOne(o, Exec(o, INITIAL, run)) && (run != [] ==> OneChildThroughout(o, run[..|run| - 1]))
  }

  ghost predicate ResumptionsKeepOne(o: Options, s: State) {
    forall run: seq<Event> :: OnlyResumptions(run) ==> AtMostOneUnreaped(Exec(o, s, run).children)
  }

  ghost predicate OneChild(s: State) {
    && (forall i :: 0 <= i < |s.children| - 1 ==> s.children[i].Reaped?)
    && Unspawned(s) <= 1
    && (Unspawned(s) == 1 ==> AllReaped(s.children))
  }

  lemma BeginKeepsOneChild(s: State, origin: Origin)
    requires OneChild(s) && (AcceptsStart(s) ==> AllReaped(s.children) && Unspawned(s) == 0)
    ensures OneChild(BeginStart(s, origin))
  {
  }

  lemma LogKeepsOneChild(s: State, origin: Origin, spawned: bool)
    requires OneChild(s)
    ensures OneChild(AfterLog(s, origin, spawned))
  {
  }

  lemma ResetKeepsOneChild(s: State, origin: Origin, spawned: bool)
    requires OneChild(s)
    ensures OneChild(AfterReset(s, origin, spawned))
  {
  }

  lemma ExitKeepsOneChild(o: Options, s: State, i: nat)
    requires OneChild(s)
    ensures OneChild(DeliverExit(o, s, i))
  {
    if i < |s.children| && s.children[i].Dead? {
      assert i == |s.children| - 1;
    }
  }

  lemma DeathKeepsOneChild(s: State, i: nat, code: Option<int>, signal: Option<int>)
    requires OneChild(s)
    ensures OneChild(Die(s, i, code, signal))
  {
    if i < |s.children| && s.children[i].Alive? {
      assert i == |s.children| - 1;
    }
  }

  lemma {:induction false} StepKeepsOneChild(o: Options, s: State, e: Event)
    requires OneChild(s) && ClearStart(s, e)
    ensures OneChild(Step(o, s, e))
  {
    match e
    case CallStart =>
      BeginKeepsOneChild(s, Caller);
    case CallbackResumes =>
      if s.resuming > 0 {
        BeginKeepsOneChild(s.(resuming := s.resuming - 1), Timer);
      }
    case StartLogged(origin, spawned) =>
      LogKeepsOneChild(s, origin, spawned);
    case StartReset(origin, spawned) =>
      ResetKeepsOneChild(s, origin, spawned);
    case ExitDelivered(i) =>
      ExitKeepsOneChild(o, s, i);
    case ChildDies(i, code, signal) =>
      DeathKeepsOneChild(s, i, code, signal);
    case _ =>
      SameChildren(o, s, e);
  }

  lemma SameChildren(o: Options, s: State, e: Event)
    requires !e.CallStart? && !e.CallbackResumes? && !e.StartLogged? && !e.StartReset? && !e.ExitDelivered? && !e.ChildDies?
    ensures Step(o, s, e).children == s.children && Unspawned(Step(o, s, e)) == Unspawned(s)
  {
  }

  lemma {:induction false} RunKeepsOneChild(o: Options, run: seq<Event>)
    requires AllClear(o, run)
    ensures OneChild(Exec(o, INITIAL, run))
  {
    if run != [] {
      RunKeepsOneChild(o, run[..|run| - 1]);
      StepKeepsOneChild(o, Exec(o, INITIAL, run[..|run| - 1]), run[|run| - 1]);
    }
  }

  lemma {:induction false} ResumptionsKeepOneChild(o: Options, s: State, run: seq<Event>)
    requires OneChild(s) && OnlyResumptions(run)
    ensures OneChild(Exec(o, s, run))
  {
    if run != [] {
      var e := run[|run| - 1];
      assert e in run && OnlyResumptions(run[..|run| - 1]);
      ResumptionsKeepOneChild(o, s, run[..|run| - 1]);
      StepKeepsOneChild(o, Exec(o, s, run[..|run| - 1]), e);
    }
  }

  /** One more spawn beside an unreaped child, or two spawns, make two. */
  lemma SpawnsBreak(o: Options, t: State)
    requires Unspawned(t) >= 1 && (Unspawned(t) >= 2 || !AllReaped(t.children))
    ensures !ResumptionsKeepOne(o, t)
  {
    var run := SpawnsOne(o, t);
    var u := Exec(o, t, run);
    if AllReaped(t.children) {
      var more := SpawnsOne(o, u);
      ExecJoins(o, t, run, more);
      assert OnlyResumptions(run + more);
      var n := |t.children|;
      assert Exec(o, u, more).children[n].Alive? && Exec(o, u, more).children[n + 1].Alive?;
    } else {
      var i :| 0 <= i < |t.children| && !t.children[i].Reaped?;
      assert !u.children[i].Reaped? && !u.children[|t.children|].Reaped?;
    }
  }

  lemma UnclearStartBreaks(o: Options, s: State, e: Event)
    requires IsAcceptedStart(s, e) && (!AllReaped(s.children) || Unspawned(s) > 0)
    ensures !ResumptionsKeepOne(o, Step(o, s, e))
  {
    var t := Step(o, s, e);
    assert t.children == s.children && Unspawned(t) == Unspawned(s) + 1;
    SpawnsBreak(o, t);
  }

  /** In every run: at most one child is ever unreaped, however the start() calls under way go on, if
      and only if every accepted start finds all exits delivered and no other start on its way. */
  lemma {:induction false} OneChildExactlyWhen(o: Options, run: seq<Event>)
    ensures OneChildThroughout(o, run) <==> AllClear(o, run)
  {
    if run != [] {
      OneChildExactlyWhen(o, run[..|run| - 1]);
    }
    if AllClear(o, run) {
      RunKeepsOneChild(o, run);
      forall c: seq<Event> | OnlyResumptions(c)
        ensures AtMostOneUnreaped(Exec(o, Exec(o, INITIAL, run), c).children)
      {
        ResumptionsKeepOneChild(o, Exec(o, INITIAL, run), c);
      }
    } else if AllClear(o, run[..|run| - 1]) {
      UnclearStartBreaks(o, Exec(o, INITIAL, run[..|run| - 1]), run[|run| - 1]);
    }
  }

  // ---------- One start and all that may follow ----------

  predicate PromptStart(s: State, e: Event) {
    IsAcceptedStart(s, e) ==> AllReaped(s.children)
  }

  /** Further starts wait for exits, and nobody asks for a stop. */
  ghost predicate PromptFrom(o: Options, s: State, run: seq<Event>) {
    run != [] ==>
      && PromptFrom(o, s, run[..|run| - 1])
      && PromptStart(Exec(o, s, run[..|run| - 1]), run[|run| - 1])
      && !run[|run| - 1].CallStop?
  }

  ghost predicate PromptKeepsOne(o: Options, s: State) {
    forall run: seq<Event> :: PromptFrom(o, s, run) ==> AtMostOneUnreaped(Exec(o, s, run).children)
  }

  predicate Settled(s: State) {
    AllReaped(s.children) && Unspawned(s) == 0 && Failing(s) == 0 && s.requests == 0
  }

  /** Without stop requests a start is under way exactly in the state Starting. */
  ghost predicate OneStart(s: State) {
    && OneChild(s)
    && s.requests == 0
    && Unspawned(s) + Failing(s) == (if s.phase.Starting? then 1 else 0)
    && (s.phase.Starting? ==> AllReaped(s.children))
    && !s.phase.Stopping?
  }

  lemma LogKeepsOneStart(s: State, origin: Origin, spawned: bool)
    requires OneStart(s)
    ensures OneStart(AfterLog(s, origin, spawned))
  {
    LogKeepsOneChild(s, origin, spawned);
  }

  lemma ResetKeepsOneStart(s: State, origin: Origin, spawned: bool)
    requires OneStart(s)
    ensures OneStart(AfterReset(s, origin, spawned))
  {
    ResetKeepsOneChild(s, origin, spawned);
  }

  lemma FailureKeepsOneStart(s: State, origin: Origin)
    requires OneStart(s)
    ensures OneStart(SettleFailure(s, origin))
  {
  }

  lemma OthersKeepOneStart(o: Options, s: State, e: Event)
    requires OneStart(s) && !e.CallStop?
    requires !e.CallStart? && !e.CallbackResumes? && !e.StartLogged? && !e.StartReset? && !e.StartFails?
    ensures OneStart(Step(o, s, e))
  {
    if e.ExitDelivered? {
      ExitKeepsOneChild(o, s, e.which);
    } else if e.ChildDies? {
      DeathKeepsOneChild(s, e.which, e.code, e.signal);
    }
  }

  lemma {:induction false} StepKeepsOneStart(o: Options, s: State, e: Event)
    requires OneStart(s) && PromptStart(s, e) && !e.CallStop?
    ensures OneStart(Step(o, s, e))
  {
    match e
    case CallStart =>
      BeginKeepsOneChild(s, Caller);
    case CallbackResumes =>
      if s.resuming > 0 {
        BeginKeepsOneChild(s.(resuming := s.resuming - 1), Timer);
      }
    case StartLogged(origin, spawned) =>
      LogKeepsOneStart(s, origin, spawned);
    case StartReset(origin, spawned) =>
      ResetKeepsOneStart(s, origin, spawned);
    case StartFails(origin) =>
      FailureKeepsOneStart(s, origin);
    case _ =>
      OthersKeepOneStart(o, s, e);
  }

  lemma {:induction false} PromptRunKeepsOneStart(o: Options, s: State, run: seq<Event>)
    requires OneStart(s) && PromptFrom(o, s, run)
    ensures OneStart(Exec(o, s, run))
  {
    if run != [] {
      PromptRunKeepsOneStart(o, s, run[..|run| - 1]);
      StepKeepsOneStart(o, Exec(o, s, run[..|run| - 1]), run[|run| - 1]);
    }
  }

  lemma {:induction false} PromptJoins(o: Options, s: State, a: seq<Event>, b: seq<Event>)
    requires PromptFrom(o, s, a) && PromptFrom(o, Exec(o, s, a), b)
    ensures PromptFrom(o, s, a + b)
  {
    if b == [] {
      assert a + b == a;
    } else {
      var front := b[..|b| - 1];
      PromptJoins(o, s, a, front);
      ExecJoins(o, s, a, front);
      assert (a + b)[..|a + b| - 1] == a + front;
    }
  }

  lemma {:induction false} ResumptionsArePrompt(o: Options, s: State, run: seq<Event>)
    requires OnlyResumptions(run)
    ensures PromptFrom(o, s, run)
  {
    if run != [] {
      assert run[|run| - 1] in run && OnlyResumptions(run[..|run| - 1]);
      ResumptionsArePrompt(o, s, run[..|run| - 1]);
    }
  }

  lemma PromptOne(o: Options, s: State, e: Event)
    requires PromptStart(s, e) && !e.CallStop?
    ensures PromptFrom(o, s, [e]) && Exec(o, s, [e]) == Step(o, s, e)
  {
    ExecOne(o, s, e);
    var none := [e][..0];
    assert none == [] && PromptFrom(o, s, none) && Exec(o, s, none) == s;
  }

  /** A prompt way to a state whose starts break the property breaks it too. */
  lemma BreakCarriesBack(o: Options, s: State, way: seq<Event>)
    requires PromptFrom(o, s, way) && !ResumptionsKeepOne(o, Exec(o, s, way))
    ensures !PromptKeepsOne(o, s)
  {
    var t := Exec(o, s, way);
    var run: seq<Event> :| OnlyResumptions(run) && !AtMostOneUnreaped(Exec(o, t, run).children);
    ResumptionsArePrompt(o, t, run);
    PromptJoins(o, s, way, run);
    ExecJoins(o, s, way, run);
  }

  lemma SecondStartBreaks(o: Options, s: State, way: seq<Event>)
    requires PromptFrom(o, s, way)
    requires var t := Exec(o, s, way); AcceptsStart(t) && AllReaped(t.children) && Unspawned(t) > 0
    ensures !PromptKeepsOne(o, s)
  {
    var t := Exec(o, s, way);
    PromptOne(o, t, CallStart);
    PromptJoins(o, s, way, [CallStart]);
    ExecJoins(o, s, way, [CallStart]);
    UnclearStartBreaks(o, t, CallStart);
    BreakCarriesBack(o, s, way + [CallStart]);
  }

  /** An earlier start whose spawn failed brings the state back to Stopped under the new start. */
  lemma FailureLetsSecondStartIn(o: Options, t: State)
    requires t.phase.Starting? && AllReaped(t.children) && Unspawned(t) > 0 && Failing(t) > 0
    ensures !PromptKeepsOne(o, t)
  {
    var origin := if t.byCaller.failing > 0 then Caller else Timer;
    PromptOne(o, t, StartFails(origin));
    SecondStartBreaks(o, t, [StartFails(origin)]);
  }

  /** So does a stop that passed its guards before. */
  lemma StopLetsSecondStartIn(o: Options, t: State)
    requires t.phase.Starting? && AllReaped(t.children) && Unspawned(t) > 0 && t.requests > 0
    ensures !PromptKeepsOne(o, t)
  {
    var u := Step(o, t, StopProceeds);
    PromptOne(o, t, StopProceeds);
    PromptOne(o, u, StopReturns);
    PromptJoins(o, t, [StopProceeds], [StopReturns]);
    ExecJoins(o, t, [StopProceeds], [StopReturns]);
    SecondStartBreaks(o, t, [StopProceeds] + [StopReturns]);
  }

  lemma UnsettledStartBreaks(o: Options, s: State, origin: Origin)
    requires AcceptsStart(s) && !Settled(s)
    ensures !PromptKeepsOne(o, BeginStart(s, origin))
  {
    var t := BeginStart(s, origin);
    assert t.children == s.children && Unspawned(t) == Unspawned(s) + 1 && t.requests == s.requests && Failing(t) == Failing(s);
    if !AllReaped(s.children) || Unspawned(s) > 0 {
      SpawnsBreak(o, t);
      var none: seq<Event> := [];
      assert PromptFrom(o, t, none) && Exec(o, t, none) == t;
      BreakCarriesBack(o, t, none);
    } else if Failing(s) > 0 {
      FailureLetsSecondStartIn(o, t);
    } else {
      StopLetsSecondStartIn(o, t);
    }
  }

  /** For every state that accepts a start: all that can follow, with later starts waiting for exits and
      no new stop request, keeps at most one child, if and only if all exits are delivered, no other
      start is under way and no stop is between its guards and its state change. */
  lemma StartIsSafeExactlyWhen(o: Options, s: State, origin: Origin)
    requires AcceptsStart(s)
    ensures PromptKeepsOne(o, BeginStart(s, origin)) <==> Settled(s)
  {
    if Settled(s) {
      var t := BeginStart(s, origin);
      assert OneStart(t);
      forall run: seq<Event> | PromptFrom(o, t, run)
        ensures AtMostOneUnreaped(Exec(o, t, run).children)
      {
        PromptRunKeepsOneStart(o, t, run);
      }
    } else {
      UnsettledStartBreaks(o, s, origin);
    }
  }

  /** A stop whose kill times out returns with the child alive, and the next start spawns a second. */
  lemma LateExitAllowsTwoChildren(o: Options, s: State)
    requires s.phase.Running? && s.children != [] && s.children[|s.children| - 1].Alive?
    ensures var t := Exec(o, s, [CallStop, StopProceeds, StopReturns]);
            t.phase.Stopped? && t.children == s.children && !ResumptionsKeepOne(o, Step(o, t, CallStart))
  {
    ExecThree(o, s, CallStop, StopProceeds, StopReturns);
    UnclearStartBreaks(o, Exec(o, s, [CallStop, StopProceeds, StopReturns]), CallStart);
  }

  lemma StopRace(o: Options, s: State)
    requires s.phase.Crashed? && AllReaped(s.children)
    ensures var t := Exec(o, s, [CallStop, CallStart] + [StopProceeds, StopReturns]);
            t.phase.Stopped? && AllReaped(t.children) && Unspawned(t) > 0
  {
    ExecJoins(o, s, [CallStop, CallStart], [StopProceeds, StopReturns]);
    ExecTwo(o, s, CallStop, CallStart);
    var u := Exec(o, s, [CallStop, CallStart]);
    assert u.children == s.children && u.requests > 0 && Unspawned(u) > 0;
    ExecTwo(o, u, StopProceeds, StopReturns);
  }

  /** A start accepted while a stop is between its guards and its state change, and one more after the
      stop, both spawn, with every exit delivered before either. */
  lemma StopRaceAllowsTwoChildren(o: Options, s: State)
    requires s.phase.Crashed? && AllReaped(s.children)
    ensures var t := Exec(o, s, [CallStop, CallStart] + [StopProceeds, StopReturns]);
            t.phase.Stopped? && AllReaped(t.children) && !ResumptionsKeepOne(o, Step(o, t, CallStart))
  {
    StopRace(o, s);
    UnclearStartBreaks(o, Exec(o, s, [CallStop, CallStart] + [StopProceeds, StopReturns]), CallStart);
  }

  // ---------- With stop requests ----------

  ghost predicate PromptStartsIn(o: Options, s: State, run: seq<Event>) {
    run != [] ==> PromptStartsIn(o, s, run[..|run| - 1]) && PromptStart(Exec(o, s, run[..|run| - 1]), run[|run| - 1])
  }

  lemma {:induction false} PromptStartsJoin(o: Options, s: State, a: seq<Event>, b: seq<Event>)
    requires PromptStartsIn(o, s, a) && PromptStartsIn(o, Exec(o, s, a), b)
    ensures PromptStartsIn(o, s, a + b)
  {
    if b == [] {
      assert a + b == a;
    } else {
      var front := b[..|b| - 1];
      PromptStartsJoin(o, s, a, front);
      ExecJoins(o, s, a, front);
      assert (a + b)[..|a + b| - 1] == a + front;
    }
  }

  lemma PromptStartsTwo(o: Options, s: State, e: Event, f: Event)
    requires PromptStart(s, e) && PromptStart(Step(o, s, e), f)
    ensures PromptStartsIn(o, s, [e, f])
  {
    ExecOne(o, s, e);
    var none := [e][..0];
    assert none == [] && Exec(o, s, none) == s && [e, f][..1] == [e];
    assert PromptStartsIn(o, s, [e]);
  }

  lemma {:induction false} ResumptionsStartNothing(o: Options, s: State, run: seq<Event>)
    requires OnlyResumptions(run)
    ensures PromptStartsIn(o, s, run)
  {
    if run != [] {
      assert run[|run| - 1] in run && OnlyResumptions(run[..|run| - 1]);
      ResumptionsStartNothing(o, s, run[..|run| - 1]);
    }
  }

  /** A stop requested after a crash lets one start in while it waits and another when it is done. */
  lemma {:induction false} StopAfterCrash(o: Options, s: State) returns (run: seq<Event>)
    requires s.phase.Crashed? && AllReaped(s.children)
    ensures PromptStartsIn(o, s, run)
    ensures var t := Exec(o, s, run); AcceptsStart(t) && AllReaped(t.children) && Unspawned(t) > 0
  {
    var a, b := [CallStop, CallStart], [StopProceeds, StopReturns];
    ExecTwo(o, s, CallStop, CallStart);
    PromptStartsTwo(o, s, CallStop, CallStart);
    PromptStartsTwo(o, Exec(o, s, a), StopProceeds, StopReturns);
    PromptStartsJoin(o, s, a, b);
    StopRace(o, s);
    run := a + b;
  }

  lemma CrashAfterSpawn(o: Options, s: State)
    requires s.phase.Running? && s.children != [] && s.children[|s.children| - 1].Alive? && AllReaped(s.children[..|s.children| - 1])
    ensures var i, code := |s.children| - 1, Some(1);
            var t := Exec(o, s, [ChildDies(i, code, None), ExitDelivered(i)]);
            t.phase.Crashed? && AllReaped(t.children) && PromptStartsIn(o, s, [ChildDies(i, code, None), ExitDelivered(i)])
  {
    var i := |s.children| - 1;
    ExecTwo(o, s, ChildDies(i, Some(1), None), ExitDelivered(i));
    PromptStartsTwo(o, s, ChildDies(i, Some(1), None), ExitDelivered(i));
    var t := Exec(o, s, [ChildDies(i, Some(1), None), ExitDelivered(i)]);
    assert t.children == s.children[i := Reaped];
    forall j | 0 <= j < |t.children|
      ensures t.children[j].Reaped?
    {
      if j < i {
        assert s.children[..i][j].Reaped?;
      }
    }
  }

  /** No condition on one start is enough once stops may be requested after it: from every settled start
      a run in which each accepted start finds all exits delivered leads to two children. */
  lemma {:induction false} PromptStartsAreNotEnough(o: Options, s: State, origin: Origin) returns (run: seq<Event>)
    requires AcceptsStart(s) && Settled(s)
    ensures PromptStartsIn(o, BeginStart(s, origin), run)
    ensures var t := Exec(o, BeginStart(s, origin), run);
            AcceptsStart(t) && AllReaped(t.children) && !ResumptionsKeepOne(o, Step(o, t, CallStart))
  {
    var t0 := BeginStart(s, origin);
    var a := SpawnsOne(o, t0);
    var t1 := Exec(o, t0, a);
    ResumptionsStartNothing(o, t0, a);
    assert t1.children[..|t1.children| - 1] == s.children;
    CrashAfterSpawn(o, t1);
    var i := |t1.children| - 1;
    var b := [ChildDies(i, Some(1), None), ExitDelivered(i)];
    var t2 := Exec(o, t1, b);
    var c := StopAfterCrash(o, t2);
    PromptStartsJoin(o, t0, a, b);
    ExecJoins(o, t0, a, b);
    PromptStartsJoin(o, t0, a + b, c);
    ExecJoins(o, t0, a + b, c);
    run := a + b + c;
    UnclearStartBreaks(o, Exec(o, t0, run), CallStart);
  }
}
