/** When a stop is final, so that nothing is spawned until the caller starts again. */
module StopHolds {
  import opened Supervisor

  ghost predicate NoCallStart(run: seq<Event>) {
    CallStart !in run
  }

  /** Stopped or stopping, with nothing under way that could still spawn. */
  ghost predicate Down(s: State) {
    (s.phase.Stopped? || s.phase.Stopping?) && s.resuming == 0 && Unspawned(s) == 0
  }

  lemma DownStep(o: Options, s: State, e: Event)
    requires Down(s) && !e.CallStart?
    ensures Down(Step(o, s, e)) && |Step(o, s, e).children| == |s.children|
  {
  }

  lemma {:induction false} DownStaysDown(o: Options, s: State, run: seq<Event>)
    requires Down(s) && NoCallStart(run)
    ensures Down(Exec(o, s, run)) && |Exec(o, s, run).children| == |s.children|
  {
    if run != [] {
      assert forall e :: e in run[..|run| - 1] ==> e in run;
      DownStaysDown(o, s, run[..|run| - 1]);
      assert run[|run| - 1] in run;
      DownStep(o, Exec(o, s, run[..|run| - 1]), run[|run| - 1]);
    }
  }

  ghost predicate SpawnsNothing(o: Options, s: State) {
    forall run: seq<Event> :: NoCallStart(run) ==> |Exec(o, s, run).children| == |s.children|
  }

  lemma StartUnderWaySpawns(o: Options, t: State, way: seq<Event>)
    requires NoCallStart(way) && |Exec(o, t, way).children| == |t.children| && Unspawned(Exec(o, t, way)) > 0
    ensures !SpawnsNothing(o, t)
  {
    var run := SpawnsOne(o, Exec(o, t, way));
    ExecJoins(o, t, way, run);
    assert NoCallStart(way + run);
  }

  lemma WaitingCallbackSpawns(o: Options, t: State)
    requires t.phase.Stopping? && t.stops > 0 && t.resuming > 0
    ensures !SpawnsNothing(o, t)
  {
    ExecTwo(o, t, StopReturns, CallbackResumes);
    StartUnderWaySpawns(o, t, [StopReturns, CallbackResumes]);
  }

  /** When a stop proceeds to its state change: nothing is spawned from then on until the caller starts
      again, if and only if no restart callback and no start is under way at that moment. */
  lemma StopHoldsExactlyWhen(o: Options, s: State)
    requires s.requests > 0
    ensures SpawnsNothing(o, ProceedStop(s)) <==> s.resuming == 0 && Unspawned(s) == 0
  {
    var t := ProceedStop(s);
    if s.resuming == 0 && Unspawned(s) == 0 {
      assert Down(t);
      forall run: seq<Event> | NoCallStart(run)
        ensures |Exec(o, t, run).children| == |t.children|
      {
        DownStaysDown(o, t, run);
      }
    } else if Unspawned(s) > 0 {
      var none: seq<Event> := [];
      assert Exec(o, t, none) == t && Unspawned(t) == Unspawned(s);
      StartUnderWaySpawns(o, t, none);
    } else {
      WaitingCallbackSpawns(o, t);
    }
  }
}
