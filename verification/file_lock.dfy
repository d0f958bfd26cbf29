/** The lock file that the process monitor and the command-line tool both use around a log reset.
    Any number of contenders run the acquire loop, split at its awaits: exclusive create, read of an
    existing lock, the stale decision, unlink of a stale lock, and the wait before the next attempt.
    Time is in milliseconds and may pass between any two steps. */
module FileLocking {
  import opened Wrappers

  const MAX_RETRIES: nat := 10
  const LOCK_STALE_MS: nat := 30000
  const LATE: nat := LOCK_STALE_MS + 1

  datatype Kind = Monitor | Cli

  /** Where a contender stands. `stamp` is the clock reading the contender puts into the lock file,
      taken when the create is issued; `seen` is the stamp read from somebody's lock file. */
  datatype Stage =
    | Idle
    | Creating(attempt: nat, stamp: nat)
    | Reading(attempt: nat)
    | Deciding(attempt: nat, seen: nat, readAt: nat)
    | Unlinking(attempt: nat)
    | Waiting(attempt: nat)
    | Holding(stamp: nat)
    | Refused
    | Threw

  datatype LockFile = LockFile(owner: nat, stamp: nat)
  datatype World = World(now: nat, lock: Option<LockFile>, kinds: seq<Kind>, stages: seq<Stage>)
  datatype Action = Begin | Create | CreateFails | Read | Decide | Unlink | Wake | Release | Crash
  datatype Label = Tick(ms: nat) | Act(who: nat, action: Action)

  ghost predicate WellFormed(w: World) {
    |w.kinds| == |w.stages|
  }

  function Start(kinds: seq<Kind>): World {
    World(0, None, kinds, seq(|kinds|, _ => Idle))
  }

  function NextAttempt(attempt: nat, now: nat): Stage {
    if attempt + 1 < MAX_RETRIES then Creating(attempt + 1, now) else Refused
  }

  /** One contender's action: its new stage and the new lock file. An action that is not the
      contender's next one changes nothing. A crash may come at any stage and leaves the lock file. */
  function StepOf(who: nat, kind: Kind, st: Stage, lock: Option<LockFile>, now: nat, a: Action): (Stage, Option<LockFile>) {
    match (a, st)
    case (Begin, Idle) => (Creating(0, now), lock)
    case (Begin, Refused) => (Creating(0, now), lock)
    case (Begin, Threw) => (Creating(0, now), lock)
    case (Create, Creating(k, s)) =>
      if lock.None? then (Holding(s), Some(LockFile(who, s))) else (Reading(k), lock)
    case (CreateFails, Creating(k, s)) => (if kind.Monitor? then Threw else Refused, lock)
    case (Read, Reading(k)) => (if lock.Some? then Deciding(k, lock.value.stamp, now) else Waiting(k), lock)
    case (Decide, Deciding(k, s, _)) => (if now - s > LOCK_STALE_MS then Unlinking(k) else Waiting(k), lock)
    case (Unlink, Unlinking(k)) => (NextAttempt(k, now), None)
    case (Wake, Waiting(k)) => (NextAttempt(k, now), lock)
    case (Release, Holding(_)) => (Idle, None)
    case (Crash, _) => (Idle, lock)
    case _ => (st, lock)
  }

  function Step(w: World, l: Label): (w': World)
    requires WellFormed(w)
    ensures WellFormed(w') && w'.kinds == w.kinds
  {
    match l
    case Tick(ms) => w.(now := w.now + ms)
    case Act(who, a) =>
      if who < |w.stages| then
        var (st, lock) := StepOf(who, w.kinds[who], w.stages[who], w.lock, w.now, a);
        w.(stages := w.stages[who := st], lock := lock)
      else w
  }

  function Exec(w: World, run: seq<Label>): (w': World)
    requires WellFormed(w)
    ensures WellFormed(w') && w'.kinds == w.kinds
  {
    if run == [] then w else Step(Exec(w, run[..|run| - 1]), run[|run| - 1])
  }

  /** How long a lock is held at most, how long a contender sits at most between reading somebody's lock
      file and comparing its stamp with the clock, and whether contenders may die. */
  datatype Limits = Limits(hold: nat, delay: nat, crashes: bool)

  ghost predicate Bounded(w: World, b: Limits) {
    forall i :: 0 <= i < |w.stages| ==> Prompt(w.stages[i], w.now, b)
  }

  ghost predicate Prompt(st: Stage, now: nat, b: Limits) {
    && (st.Holding? ==> now - st.stamp <= b.hold)
    && (st.Deciding? ==> now - st.readAt <= b.delay)
  }

  predicate Allowed(l: Label, b: Limits) {
    l.Act? && l.action.Crash? ==> b.crashes
  }

  ghost predicate AlwaysBounded(w: World, run: seq<Label>, b: Limits)
    requires WellFormed(w)
  {
    Bounded(Exec(w, run), b) && (run != [] ==> AlwaysBounded(w, run[..|run| - 1], b) && Allowed(run[|run| - 1], b))
  }

  /** At most one holder, and the lock file on disk is the holder's own. */
  ghost predicate Safe(w: World) {
    && (forall i, j :: 0 <= i < |w.stages| && 0 <= j < |w.stages| && w.stages[i].Holding? && w.stages[j].Holding? ==> i == j)
    && (forall i :: 0 <= i < |w.stages| && w.stages[i].Holding? ==> w.lock == Some(LockFile(i, w.stages[i].stamp)))
  }

  ghost predicate Reachable(w: World, b: Limits) {
    exists kinds: seq<Kind>, run: seq<Label> :: AlwaysBounded(Start(kinds), run, b) && Exec(Start(kinds), run) == w
  }

  ghost predicate SafeUnder(b: Limits) {
    forall w: World :: Reachable(w, b) ==> Safe(w)
  }

  // ---------- Mutual exclusion ----------

  ghost predicate Inv(w: World, b: Limits) {
    && Safe(w)
    && (w.lock.Some? ==> w.lock.value.owner < |w.stages| && w.stages[w.lock.value.owner] == Holding(w.lock.value.stamp))
    && (forall i :: 0 <= i < |w.stages| ==>
         && !w.stages[i].Unlinking?
         && (w.stages[i].Deciding? ==> w.stages[i].readAt <= w.stages[i].seen + b.hold))
  }

  lemma StepKeepsInv(w: World, l: Label, b: Limits)
    requires WellFormed(w) && Inv(w, b) && Bounded(w, b) && !(l.Act? && l.action.Crash?) && b.hold + b.delay <= LOCK_STALE_MS
    ensures Inv(Step(w, l), b)
  {
    if l.Act? && l.who < |w.stages| {
      var (st, lock) := StepOf(l.who, w.kinds[l.who], w.stages[l.who], w.lock, w.now, l.action);
      assert !st.Unlinking?;
      assert st.Deciding? ==> st.readAt <= st.seen + b.hold;
    }
  }

  lemma {:induction false} RunKeepsInv(kinds: seq<Kind>, run: seq<Label>, b: Limits)
    requires AlwaysBounded(Start(kinds), run, b) && !b.crashes && b.hold + b.delay <= LOCK_STALE_MS
    ensures Inv(Exec(Start(kinds), run), b)
  {
    if run != [] {
      RunKeepsInv(kinds, run[..|run| - 1], b);
      StepKeepsInv(Exec(Start(kinds), run[..|run| - 1]), run[|run| - 1], b);
    }
  }

  // ---------- The interleaving that breaks it ----------

  lemma ReachNext(w: World, l: Label, next: World, b: Limits)
    requires Reachable(w, b) && WellFormed(w)
    requires Step(w, l) == next && Bounded(next, b) && Allowed(l, b)
    ensures Reachable(next, b)
  {
    var kinds: seq<Kind>, run: seq<Label> :| AlwaysBounded(Start(kinds), run, b) && Exec(Start(kinds), run) == w;
    assert (run + [l])[..|run + [l]| - 1] == run;
    assert Exec(Start(kinds), run + [l]) == next;
  }

  lemma ReachStart(kinds: seq<Kind>, b: Limits)
    ensures Reachable(Start(kinds), b)
  {
    assert AlwaysBounded(Start(kinds), [], b);
    assert Exec(Start(kinds), []) == Start(kinds);
  }

  /** Three contenders; only the clock, the lock file and the stages move. */
  ghost predicate ReachableThree(now: nat, lock: Option<LockFile>, s0: Stage, s1: Stage, s2: Stage, b: Limits) {
    Reachable(World(now, lock, [Monitor, Monitor, Cli], [s0, s1, s2]), b)
  }

  lemma Pass(now: nat, lock: Option<LockFile>, s0: Stage, s1: Stage, s2: Stage, b: Limits, ms: nat)
    requires ReachableThree(now, lock, s0, s1, s2, b)
    requires Prompt(s0, now + ms, b) && Prompt(s1, now + ms, b) && Prompt(s2, now + ms, b)
    ensures ReachableThree(now + ms, lock, s0, s1, s2, b)
  {
    var w := World(now, lock, [Monitor, Monitor, Cli], [s0, s1, s2]);
    ReachNext(w, Tick(ms), w.(now := now + ms), b);
  }

  lemma Move(now: nat, lock: Option<LockFile>, s0: Stage, s1: Stage, s2: Stage, b: Limits, who: nat, a: Action)
    returns (st: Stage, lock': Option<LockFile>)
    requires ReachableThree(now, lock, s0, s1, s2, b)
    requires Prompt(s0, now, b) && Prompt(s1, now, b) && Prompt(s2, now, b)
    requires who < 3
    requires Prompt(StepOf(who, Monitor, [s0, s1, s2][who], lock, now, a).0, now, b) && !a.CreateFails? && Allowed(Act(who, a), b)
    ensures (st, lock') == StepOf(who, Monitor, [s0, s1, s2][who], lock, now, a)
    ensures ReachableThree(now, lock', if who == 0 then st else s0, if who == 1 then st else s1, if who == 2 then st else s2, b)
  {
    var w := World(now, lock, [Monitor, Monitor, Cli], [s0, s1, s2]);
    var r := StepOf(who, Monitor, [s0, s1, s2][who], lock, now, a);
    st, lock' := r.0, r.1;
    var after := [if who == 0 then st else s0, if who == 1 then st else s1, if who == 2 then st else s2];
    assert w.stages[who := st] == after;
    ReachNext(w, Act(who, a), World(now, lock', w.kinds, after), b);
  }

  lemma FirstHolds(b: Limits)
    ensures ReachableThree(0, Some(LockFile(0, 0)), Holding(0), Idle, Idle, b)
  {
    assert Start([Monitor, Monitor, Cli]) == World(0, None, [Monitor, Monitor, Cli], [Idle, Idle, Idle]);
    ReachStart([Monitor, Monitor, Cli], b);
    var st, lock := Move(0, None, Idle, Idle, Idle, b, 0, Begin);
    st, lock := Move(0, None, Creating(0, 0), Idle, Idle, b, 0, Create);
  }

  /** Contender 1 reads contender 0's lock when it is `hold` old ... */
  lemma ReaderSeesOldLock(b: Limits)
    ensures ReachableThree(b.hold, None, Idle, Deciding(0, 0, b.hold), Idle, b)
  {
    var mine := Some(LockFile(0, 0));
    FirstHolds(b);
    var st, lock := Move(0, mine, Holding(0), Idle, Idle, b, 1, Begin);
    st, lock := Move(0, mine, Holding(0), Creating(0, 0), Idle, b, 1, Create);
    Pass(0, mine, Holding(0), Reading(0), Idle, b, b.hold);
    st, lock := Move(b.hold, mine, Holding(0), Reading(0), Idle, b, 1, Read);
    st, lock := Move(b.hold, mine, Holding(0), Deciding(0, 0, b.hold), Idle, b, 0, Release);
  }

  /** ... sits on what it has read for another `delay`, while contender 2 takes the released lock ... */
  lemma ThirdHolds(b: Limits)
    ensures var t := b.hold + b.delay; ReachableThree(t, Some(LockFile(2, t)), Idle, Deciding(0, 0, b.hold), Holding(t), b)
  {
    var t := b.hold + b.delay;
    var reader := Deciding(0, 0, b.hold);
    ReaderSeesOldLock(b);
    Pass(b.hold, None, Idle, reader, Idle, b, b.delay);
    var st, lock := Move(t, None, Idle, reader, Idle, b, 2, Begin);
    st, lock := Move(t, None, Idle, reader, Creating(0, t), b, 2, Create);
  }

  /** ... and then removes contender 2's fresh lock as stale: contenders 1 and 2 both hold. */
  lemma OverlapIsReachable(b: Limits)
    requires b.hold + b.delay > LOCK_STALE_MS
    ensures ReachableThree(b.hold + b.delay, Some(LockFile(1, b.hold + b.delay)), Idle, Holding(b.hold + b.delay), Holding(b.hold + b.delay), b)
  {
    var t := b.hold + b.delay;
    var theirs := Some(LockFile(2, t));
    ThirdHolds(b);
    var st, lock := Move(t, theirs, Idle, Deciding(0, 0, b.hold), Holding(t), b, 1, Decide);
    st, lock := Move(t, theirs, Idle, Unlinking(0), Holding(t), b, 1, Unlink);
    st, lock := Move(t, None, Idle, Creating(1, t), Holding(t), b, 1, Create);
  }

  /** A holder dies; much later two others have each read its lock file and found it stale. */
  lemma DeadLockIsFoundStale(b: Limits)
    requires b.crashes
    ensures ReachableThree(LATE, Some(LockFile(0, 0)), Idle, Unlinking(0), Unlinking(0), b)
  {
    var dead := Some(LockFile(0, 0));
    FirstHolds(b);
    var st, lock := Move(0, dead, Holding(0), Idle, Idle, b, 0, Crash);
    Pass(0, dead, Idle, Idle, Idle, b, LATE);
    SecondFindsStale(b);
    st, lock := Move(LATE, dead, Idle, Unlinking(0), Idle, b, 2, Begin);
    st, lock := Move(LATE, dead, Idle, Unlinking(0), Creating(0, LATE), b, 2, Create);
    st, lock := Move(LATE, dead, Idle, Unlinking(0), Reading(0), b, 2, Read);
    st, lock := Move(LATE, dead, Idle, Unlinking(0), Deciding(0, 0, LATE), b, 2, Decide);
  }

  lemma SecondFindsStale(b: Limits)
    requires b.crashes && ReachableThree(LATE, Some(LockFile(0, 0)), Idle, Idle, Idle, b)
    ensures ReachableThree(LATE, Some(LockFile(0, 0)), Idle, Unlinking(0), Idle, b)
  {
    var dead := Some(LockFile(0, 0));
    var st, lock := Move(LATE, dead, Idle, Idle, Idle, b, 1, Begin);
    st, lock := Move(LATE, dead, Idle, Creating(0, LATE), Idle, b, 1, Create);
    st, lock := Move(LATE, dead, Idle, Reading(0), Idle, b, 1, Read);
    st, lock := Move(LATE, dead, Idle, Deciding(0, 0, LATE), Idle, b, 1, Decide);
  }

  /** One removes it and takes the lock; then the other removes the fresh lock and takes it as well. However
      short holds and delays are, a holder that died lets two contenders in. */
  lemma DeadHolderLetsTwoIn(b: Limits)
    requires b.crashes
    ensures ReachableThree(LATE, Some(LockFile(2, LATE)), Idle, Holding(LATE), Holding(LATE), b)
  {
    var dead := Some(LockFile(0, 0));
    var theirs := Some(LockFile(1, LATE));
    DeadLockIsFoundStale(b);
    var st, lock := Move(LATE, dead, Idle, Unlinking(0), Unlinking(0), b, 1, Unlink);
    st, lock := Move(LATE, None, Idle, Creating(1, LATE), Unlinking(0), b, 1, Create);
    st, lock := Move(LATE, theirs, Idle, Holding(LATE), Unlinking(0), b, 2, Unlink);
    st, lock := Move(LATE, None, Idle, Holding(LATE), Creating(1, LATE), b, 2, Create);
  }

  lemma TwoHoldersAreUnsafe(now: nat, lock: Option<LockFile>, b: Limits)
    requires ReachableThree(now, lock, Idle, Holding(now), Holding(now), b)
    ensures !SafeUnder(b)
  {
    var w := World(now, lock, [Monitor, Monitor, Cli], [Idle, Holding(now), Holding(now)]);
    assert w.stages[1].Holding? && w.stages[2].Holding?;
  }

  /** Mutual exclusion holds in every interleaving of any number of contenders exactly when no contender
      dies and the longest hold and the longest read-to-decision delay together fit into the stale limit. */
  lemma LockIsSafeExactlyWhen(b: Limits)
    ensures SafeUnder(b) <==> !b.crashes && b.hold + b.delay <= 30000
  {
    if b.crashes {
      DeadHolderLetsTwoIn(b);
      TwoHoldersAreUnsafe(LATE, Some(LockFile(2, LATE)), b);
    } else if b.hold + b.delay > LOCK_STALE_MS {
      OverlapIsReachable(b);
      TwoHoldersAreUnsafe(b.hold + b.delay, Some(LockFile(1, b.hold + b.delay)), b);
    } else {
      forall w: World | Reachable(w, b)
        ensures Safe(w)
      {
        var kinds: seq<Kind>, run: seq<Label> :| AlwaysBounded(Start(kinds), run, b) && Exec(Start(kinds), run) == w;
        RunKeepsInv(kinds, run, b);
      }
    }
  }

  // ---------- Run by run ----------

  /** A contender removes as stale the lock file of one that holds. */
  predicate RemovesLiveLock(w: World, l: Label) {
    && l.Act? && l.action.Unlink? && l.who < |w.stages| && w.stages[l.who].Unlinking?
    && w.lock.Some? && w.lock.value.owner < |w.stages| && w.stages[w.lock.value.owner] == Holding(w.lock.value.stamp)
  }

  ghost predicate AlwaysSafe(kinds: seq<Kind>, run: seq<Label>) {
    Safe(Exec(Start(kinds), run)) && (run != [] ==> AlwaysSafe(kinds, run[..|run| - 1]))
  }

  ghost predicate NeverRemovesLive(kinds: seq<Kind>, run: seq<Label>) {
    run != [] ==>
      && NeverRemovesLive(kinds, run[..|run| - 1])
      && !RemovesLiveLock(Exec(Start(kinds), run[..|run| - 1]), run[|run| - 1])
  }

  lemma StepKeepsSafe(w: World, l: Label)
    requires WellFormed(w) && Safe(w)
    ensures Safe(Step(w, l)) <==> !RemovesLiveLock(w, l)
  {
    if RemovesLiveLock(w, l) {
      var owner := w.lock.value.owner;
      assert owner != l.who;
      assert Step(w, l).stages[owner] == w.stages[owner];
    }
  }

  /** A remark on single runs: whatever the timing and whoever dies, removing a live holder's lock as stale is
      the only step that breaks exclusion. */
  lemma {:induction false} RunIsSafeExactlyWhen(kinds: seq<Kind>, run: seq<Label>)
    ensures AlwaysSafe(kinds, run) <==> NeverRemovesLive(kinds, run)
  {
    if run != [] {
      RunIsSafeExactlyWhen(kinds, run[..|run| - 1]);
      if AlwaysSafe(kinds, run[..|run| - 1]) {
        StepKeepsSafe(Exec(Start(kinds), run[..|run| - 1]), run[|run| - 1]);
      }
    }
  }

  // ---------- Acquire ends ----------

  /** Upper bound on the steps of the acquire loop still ahead of a contender. */
  function Rank(st: Stage): int {
    match st
    case Creating(k, _) => 4 * (MAX_RETRIES - k)
    case Reading(k) => 4 * (MAX_RETRIES - k) - 1
    case Deciding(k, _, _) => 4 * (MAX_RETRIES - k) - 2
    case Unlinking(k) => 4 * (MAX_RETRIES - k) - 3
    case Waiting(k) => 4 * (MAX_RETRIES - k) - 3
    case _ => 0
  }

  predicate Acquiring(st: Stage) {
    st.Creating? || st.Reading? || st.Deciding? || st.Unlinking? || st.Waiting?
  }

  /** Exclusive creates already issued by the current acquire call, read off the attempt counter. */
  function Issued(st: Stage): nat {
    match st
    case Creating(k, _) => k
    case Reading(k) => k + 1
    case Deciding(k, _, _) => k + 1
    case Unlinking(k) => k + 1
    case Waiting(k) => k + 1
    case _ => 0
  }

  ghost predicate InAcquire(st: Stage) {
    Acquiring(st) ==> st.attempt < MAX_RETRIES
  }

  /** The steps contender `who` really takes in the run. */
  ghost function OwnSteps(w: World, run: seq<Label>, who: nat): nat
    requires WellFormed(w) && who < |w.kinds|
  {
    if run == [] then 0
    else
      var before, l := Exec(w, run[..|run| - 1]), run[|run| - 1];
      OwnSteps(w, run[..|run| - 1], who) + (if l.Act? && l.who == who && Step(before, l).stages[who] != before.stages[who] then 1 else 0)
  }

  /** The exclusive creates contender `who` issues in the run. */
  ghost function Creates(w: World, run: seq<Label>, who: nat): nat
    requires WellFormed(w) && who < |w.kinds|
  {
    if run == [] then 0
    else
      var before, l := Exec(w, run[..|run| - 1]), run[|run| - 1];
      Creates(w, run[..|run| - 1], who) + (if l == Act(who, Create) && before.stages[who].Creating? then 1 else 0)
  }

  ghost predicate WithinOneCall(run: seq<Label>, who: nat) {
    Act(who, Begin) !in run && Act(who, Release) !in run && Act(who, Crash) !in run
  }

  /** Whatever the others do, one acquire call takes at most 40 steps of its own, issues at most ten
      creates, and gives up through exhaustion only after exactly ten. */
  lemma {:induction false} AcquireEnds(w: World, run: seq<Label>, who: nat)
    requires WellFormed(w) && who < |w.kinds| && w.stages[who].Creating? && w.stages[who].attempt == 0
    requires WithinOneCall(run, who)
    ensures var st := Exec(w, run).stages[who];
            && InAcquire(st)
            && OwnSteps(w, run, who) + Rank(st) <= 40
            && Creates(w, run, who) <= 10
            && (Acquiring(st) ==> Creates(w, run, who) == Issued(st))
            && (st.Refused? && Act(who, CreateFails) !in run ==> Creates(w, run, who) == 10)
  {
    if run != [] {
      var front := run[..|run| - 1];
      assert forall l :: l in front ==> l in run;
      AcquireEnds(w, front, who);
      var l := run[|run| - 1];
      assert l in run;
      OwnStepDescends(Exec(w, front), l, who);
    }
  }

  lemma OwnStepDescends(w: World, l: Label, who: nat)
    requires WellFormed(w) && who < |w.kinds| && InAcquire(w.stages[who])
    requires l != Act(who, Begin) && l != Act(who, Release) && l != Act(who, Crash)
    ensures var st, st' := w.stages[who], Step(w, l).stages[who];
            && InAcquire(st')
            && (st' != st ==> l.Act? && l.who == who && Rank(st') < Rank(st))
            && (Acquiring(st') ==> Acquiring(st) && Issued(st') == Issued(st) + (if l == Act(who, Create) && st.Creating? then 1 else 0))
            && (st'.Refused? && st != st' ==> l == Act(who, CreateFails) || Issued(st) == MAX_RETRIES)
            && (l == Act(who, Create) && st.Creating? ==> Issued(st) < MAX_RETRIES)
  {
  }
}
