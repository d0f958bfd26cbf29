/** What a contender gets done: a free lock is taken, an old one is cleared away and taken, a fresh one is
    waited for ten times. */
module LockProgress {
  import opened Wrappers
  import opened FileLocking

  /** The world `w` with another time and lock file, and with one contender at another stage. */
  function At(w: World, who: nat, st: Stage, lock: Option<LockFile>, now: nat): World
    requires who < |w.stages|
  {
    World(now, lock, w.kinds, w.stages[who := st])
  }

  lemma Here(w: World, who: nat)
    requires who < |w.stages|
    ensures At(w, who, w.stages[who], w.lock, w.now) == w
  {
  }

  lemma Acts(w: World, who: nat, st: Stage, lock: Option<LockFile>, now: nat, a: Action)
    requires WellFormed(w) && who < |w.stages|
    ensures var r := StepOf(who, w.kinds[who], st, lock, now, a);
            Step(At(w, who, st, lock, now), Act(who, a)) == At(w, who, r.0, r.1, now)
  {
    var r := StepOf(who, w.kinds[who], st, lock, now, a);
    assert w.stages[who := st][who := r.0] == w.stages[who := r.0];
  }

  predicate Resting(st: Stage) {
    st.Idle? || st.Refused? || st.Threw?
  }

  lemma {:induction false} ExecJoins(w: World, a: seq<Label>, b: seq<Label>)
    requires WellFormed(w)
    ensures Exec(w, a + b) == Exec(Exec(w, a), b)
  {
    if b == [] {
      assert a + b == a;
    } else {
      ExecJoins(w, a, b[..|b| - 1]);
      assert (a + b)[..|a + b| - 1] == a + b[..|b| - 1];
    }
  }

  lemma ExecSnoc(w: World, run: seq<Label>, l: Label)
    requires WellFormed(w)
    ensures Exec(w, run + [l]) == Step(Exec(w, run), l)
  {
    assert (run + [l])[..|run|] == run;
  }

  /** One more action of the contender after a run that led to the given stage. */
  lemma Then(w: World, run: seq<Label>, who: nat, st: Stage, lock: Option<LockFile>, now: nat, a: Action, next: Stage, left: Option<LockFile>)
    requires WellFormed(w) && who < |w.stages| && Exec(w, run) == At(w, who, st, lock, now)
    requires StepOf(who, w.kinds[who], st, lock, now, a) == (next, left)
    ensures Exec(w, run + [Act(who, a)]) == At(w, who, next, left, now)
  {
    ExecSnoc(w, run, Act(who, a));
    Acts(w, who, st, lock, now, a);
  }

  lemma Nothing(w: World, who: nat)
    requires WellFormed(w) && who < |w.stages|
    ensures Exec(w, []) == At(w, who, w.stages[who], w.lock, w.now)
  {
    Here(w, who);
  }

  lemma First(w: World, who: nat, a: Action)
    requires WellFormed(w) && who < |w.stages|
    ensures var r := StepOf(who, w.kinds[who], w.stages[who], w.lock, w.now, a);
            Exec(w, [Act(who, a)]) == At(w, who, r.0, r.1, w.now)
  {
    Nothing(w, who);
    var r := StepOf(who, w.kinds[who], w.stages[who], w.lock, w.now, a);
    Then(w, [], who, w.stages[who], w.lock, w.now, a, r.0, r.1);
    assert [] + [Act(who, a)] == [Act(who, a)];
  }

  /** A contender that finds no lock file holds the lock after its first create, and gives it back. */
  lemma FreeLockIsTaken(w: World, who: nat)
    requires WellFormed(w) && who < |w.stages| && Resting(w.stages[who]) && w.lock.None?
    ensures Exec(w, [Act(who, Begin)] + [Act(who, Create)]) == At(w, who, Holding(w.now), Some(LockFile(who, w.now)), w.now)
    ensures Exec(w, [Act(who, Begin)] + [Act(who, Create)] + [Act(who, Release)]) == At(w, who, Idle, None, w.now)
  {
    First(w, who, Begin);
    assert Exec(w, [Act(who, Begin)]) == At(w, who, Creating(0, w.now), None, w.now);
    Then(w, [Act(who, Begin)], who, Creating(0, w.now), None, w.now, Create, Holding(w.now), Some(LockFile(who, w.now)));
    Then(w, [Act(who, Begin)] + [Act(who, Create)], who, Holding(w.now), Some(LockFile(who, w.now)), w.now, Release, Idle, None);
  }

  /** A create that fails for another reason than an existing file ends the attempt: the monitor throws, the
      command-line tool gives up. */
  lemma OtherFailuresEndIt(w: World, who: nat)
    requires WellFormed(w) && who < |w.stages| && w.stages[who].Creating?
    ensures Exec(w, [Act(who, CreateFails)]) == At(w, who, if w.kinds[who].Monitor? then Threw else Refused, w.lock, w.now)
  {
    First(w, who, CreateFails);
  }

  /** The steps of a round that finds a lock file, with `ms` between the reading and the decision. */
  function Look(who: nat, ms: nat): seq<Label> {
    [Act(who, Create)] + [Act(who, Read)] + [Tick(ms)] + [Act(who, Decide)]
  }

  /** A lock file is taken for stale if and only if its stamp is more than 30 seconds old at the decision. */
  lemma StaleExactlyWhen(w: World, who: nat, ms: nat)
    requires WellFormed(w) && who < |w.stages| && w.stages[who].Creating? && w.lock.Some?
    ensures var k := w.stages[who].attempt;
            Exec(w, Look(who, ms)) == At(w, who, if w.now + ms - w.lock.value.stamp > 30000 then Unlinking(k) else Waiting(k), w.lock, w.now + ms)
  {
    var k, seen := w.stages[who].attempt, w.lock.value.stamp;
    First(w, who, Create);
    var run := [Act(who, Create)] + [Act(who, Read)];
    Then(w, [Act(who, Create)], who, Reading(k), w.lock, w.now, Read, Deciding(k, seen, w.now), w.lock);
    ExecSnoc(w, run, Tick(ms));
    var next := if w.now + ms - seen > 30000 then Unlinking(k) else Waiting(k);
    Then(w, run + [Tick(ms)], who, Deciding(k, seen, w.now), w.lock, w.now + ms, Decide, next, w.lock);
  }

  /** A lock file that is gone when it is to be read is waited for like a fresh one. */
  lemma VanishedLockIsRetried(w: World, who: nat)
    requires WellFormed(w) && who < |w.stages| && w.stages[who].Reading? && w.lock.None?
    ensures Exec(w, [Act(who, Read)]) == At(w, who, Waiting(w.stages[who].attempt), None, w.now)
  {
    First(w, who, Read);
  }

  /** After a stale lock is unlinked, or a wait, comes the next of ten creates, or the refusal. */
  lemma NextRound(w: World, who: nat)
    requires WellFormed(w) && who < |w.stages|
    ensures var k := if w.stages[who].Unlinking? || w.stages[who].Waiting? then w.stages[who].attempt else 0;
            var next := if k < 9 then Creating(k + 1, w.now) else Refused;
            && (w.stages[who].Unlinking? ==> Exec(w, [Act(who, Unlink)]) == At(w, who, next, None, w.now))
            && (w.stages[who].Waiting? ==> Exec(w, [Act(who, Wake)]) == At(w, who, next, w.lock, w.now))
  {
    First(w, who, Unlink);
    First(w, who, Wake);
  }

  lemma AtTwice(w: World, who: nat, st: Stage, lock: Option<LockFile>, now: nat, st2: Stage, lock2: Option<LockFile>, now2: nat)
    requires who < |w.stages|
    ensures At(At(w, who, st, lock, now), who, st2, lock2, now2) == At(w, who, st2, lock2, now2)
  {
    assert w.stages[who := st][who := st2] == w.stages[who := st2];
  }

  /** A round that finds a stale lock, its unlinking, and the next create. */
  function Takeover(who: nat): seq<Label> {
    Look(who, 0) + [Act(who, Unlink)] + [Act(who, Create)]
  }

  lemma UnlinksAndTakes(w: World, who: nat)
    requires WellFormed(w) && who < |w.stages|
    ensures Step(Step(At(w, who, Unlinking(0), w.lock, w.now), Act(who, Unlink)), Act(who, Create))
         == At(w, who, Holding(w.now), Some(LockFile(who, w.now)), w.now)
  {
    Acts(w, who, Unlinking(0), w.lock, w.now, Unlink);
    Acts(w, who, Creating(1, w.now), None, w.now, Create);
  }

  lemma TwoMore(w: World, run: seq<Label>, a: Label, b: Label)
    requires WellFormed(w)
    ensures Exec(w, run + [a] + [b]) == Step(Step(Exec(w, run), a), b)
  {
    ExecSnoc(w, run, a);
    ExecSnoc(w, run + [a], b);
  }

  lemma TakesOver(w: World, who: nat)
    requires WellFormed(w) && who < |w.stages| && w.stages[who] == Creating(0, w.now)
    requires w.lock.Some? && w.now - w.lock.value.stamp > 30000
    ensures Exec(w, Look(who, 0) + [Act(who, Unlink)] + [Act(who, Create)]) == At(w, who, Holding(w.now), Some(LockFile(who, w.now)), w.now)
  {
    var run := Look(who, 0);
    assert Exec(w, run) == At(w, who, Unlinking(0), w.lock, w.now) by {
      StaleExactlyWhen(w, who, 0);
    }
    TwoMore(w, run, Act(who, Unlink), Act(who, Create));
    UnlinksAndTakes(w, who);
  }

  /** A lock left behind for more than 30 seconds is cleared away and taken in the second attempt. */
  lemma StaleLockIsTakenOver(w: World, who: nat)
    requires WellFormed(w) && who < |w.stages| && Resting(w.stages[who])
    requires w.lock.Some? && w.now - w.lock.value.stamp > 30000
    ensures Exec(w, [Act(who, Begin)] + Takeover(who)) == At(w, who, Holding(w.now), Some(LockFile(who, w.now)), w.now)
  {
    First(w, who, Begin);
    var t := At(w, who, Creating(0, w.now), w.lock, w.now);
    ExecJoins(w, [Act(who, Begin)], Takeover(who));
    TakesOver(t, who);
    AtTwice(w, who, Creating(0, w.now), w.lock, w.now, Holding(w.now), Some(LockFile(who, w.now)), w.now);
  }

  /** Rounds from attempt `k` on against a lock that stays fresh. */
  function Rounds(who: nat, k: nat): seq<Label>
    decreases 10 - k
  {
    if k >= 10 then [] else Look(who, 0) + [Act(who, Wake)] + Rounds(who, k + 1)
  }

  lemma {:induction false} RoundsEnd(w: World, who: nat, k: nat)
    requires WellFormed(w) && who < |w.stages| && k <= 10
    requires w.lock.Some? && w.now - w.lock.value.stamp <= 30000
    requires if k < 10 then w.stages[who].Creating? && w.stages[who].attempt == k else w.stages[who].Refused?
    ensures Exec(w, Rounds(who, k)) == At(w, who, Refused, w.lock, w.now)
    decreases 10 - k
  {
    if k == 10 {
      Nothing(w, who);
    } else {
      var next := if k < 9 then Creating(k + 1, w.now) else Refused;
      StaleExactlyWhen(w, who, 0);
      Then(w, Look(who, 0), who, Waiting(k), w.lock, w.now, Wake, next, w.lock);
      ExecJoins(w, Look(who, 0) + [Act(who, Wake)], Rounds(who, k + 1));
      RoundsEnd(At(w, who, next, w.lock, w.now), who, k + 1);
      AtTwice(w, who, next, w.lock, w.now, Refused, w.lock, w.now);
    }
  }

  /** A fresh lock is respected: a contender that keeps finding it is refused after ten rounds, and the lock
      file is still there. */
  lemma FreshLockIsRespected(w: World, who: nat)
    requires WellFormed(w) && who < |w.stages| && Resting(w.stages[who])
    requires w.lock.Some? && w.now - w.lock.value.stamp <= 30000
    ensures Exec(w, [Act(who, Begin)] + Rounds(who, 0)) == At(w, who, Refused, w.lock, w.now)
  {
    First(w, who, Begin);
    ExecJoins(w, [Act(who, Begin)], Rounds(who, 0));
    RoundsEnd(Exec(w, [Act(who, Begin)]), who, 0);
    AtTwice(w, who, Creating(0, w.now), w.lock, w.now, Refused, w.lock, w.now);
  }
}
