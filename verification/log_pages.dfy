/** Reading the logs page by page while the store goes on being written: rows stored between two pages
    push the others back, and clean-ups take the oldest away. */
module LogPages {
  import opened Wrappers
  import opened Sorting
  import opened LogStore

  function ApplyAll(s: State, ops: seq<Op>): State
    decreases |ops|
  {
    if ops == [] then s else ApplyAll(Apply(s, ops[0]), ops[1..])
  }

  /** The client of Walk, with `between[k]` happening to the store between its pages k and k + 1. */
  function WalkDuring(s: State, between: seq<seq<Op>>, instance: string, limit: int, offset: nat): seq<LogRow>
    decreases |between|
  {
    var all := Ordered(s.rows, instance);
    var page := PageOf(all, limit, offset);
    if !page.hasMore then page.logs
    else if between == [] then page.logs + Walk(all, limit, offset + |page.logs|)
    else page.logs + WalkDuring(ApplyAll(s, between[0]), between[1..], instance, limit, offset + |page.logs|)
  }

  /** A clean-up that leaves a row leaves all newer ones. */
  ghost predicate OldestGoFirst(op: Op) {
    op.CleanupOp? ==> forall a: LogRow, b: LogRow :: op.keep(a) && a.sequence < b.sequence ==> op.keep(b)
  }

  /** The row is there before and after each of the operations. */
  ghost predicate Survives(s: State, ops: seq<Op>, r: LogRow)
    decreases |ops|
  {
    r in s.rows && (ops != [] ==> OldestGoFirst(ops[0]) && Survives(Apply(s, ops[0]), ops[1..], r))
  }

  ghost predicate SurvivesWalk(s: State, between: seq<seq<Op>>, r: LogRow)
    decreases |between|
  {
    r in s.rows && (between != [] ==> Survives(s, between[0], r) && SurvivesWalk(ApplyAll(s, between[0]), between[1..], r))
  }

  // ---------- Positions ----------

  function Reversed(rows: seq<LogRow>): seq<LogRow> {
    if rows == [] then [] else Reversed(rows[1..]) + [rows[0]]
  }

  lemma {:induction false} ReversedAt(rows: seq<LogRow>, k: nat)
    ensures |Reversed(rows)| == |rows|
    ensures k < |rows| ==> Reversed(rows)[k] == rows[|rows| - 1 - k]
  {
    if rows != [] {
      ReversedAt(rows[1..], if k < |rows| - 1 then k else 0);
    }
  }

  lemma {:induction false} InsertsLast(x: LogRow, rows: seq<LogRow>)
    requires forall i :: 0 <= i < |rows| ==> x.sequence < rows[i].sequence
    ensures Insert(x, rows, Newest()) == rows + [x]
  {
    if rows != [] {
      InsertsLast(x, rows[1..]);
      assert rows == [rows[0]] + rows[1..];
    }
  }

  lemma {:induction false} SortReverses(rows: seq<LogRow>)
    requires Increasing(rows)
    ensures Sort(rows, Newest()) == Reversed(rows)
  {
    if rows != [] {
      SortReverses(rows[1..]);
      var t := Reversed(rows[1..]);
      forall i | 0 <= i < |t|
        ensures rows[0].sequence < t[i].sequence
      {
        ReversedAt(rows[1..], i);
      }
      InsertsLast(rows[0], t);
    }
  }

  /** The instance's rows in the order of storing. */
  function Mine(rows: seq<LogRow>, instance: string): seq<LogRow> {
    Filter(rows, BelongsTo(instance))
  }

  /** The i-th newest row of the instance. */
  lemma OrderedAt(s: State, instance: string, i: nat)
    requires Consistent(s)
    ensures |Ordered(s.rows, instance)| == |Mine(s.rows, instance)|
    ensures i < |Mine(s.rows, instance)| ==>
              Ordered(s.rows, instance)[i] == Mine(s.rows, instance)[|Mine(s.rows, instance)| - 1 - i]
  {
    FilterIncreases(s.rows, BelongsTo(instance));
    SortReverses(Mine(s.rows, instance));
    ReversedAt(Mine(s.rows, instance), i);
  }

  lemma {:induction false} ClearOfOthers(rows: seq<LogRow>, cleared: string, instance: string)
    requires cleared != instance
    ensures Mine(Filter(rows, NotOf(cleared)), instance) == Mine(rows, instance)
  {
    if rows != [] {
      ClearOfOthers(rows[1..], cleared, instance);
      if rows[0].instance != cleared {
        assert Filter(rows, NotOf(cleared))[1..] == Filter(rows[1..], NotOf(cleared));
      }
    }
  }

  lemma {:induction false} AllKept(rows: seq<LogRow>, keep: LogRow -> bool)
    requires forall i :: 0 <= i < |rows| ==> keep(rows[i])
    ensures Filter(rows, keep) == rows
  {
    if rows != [] {
      AllKept(rows[1..], keep);
    }
  }

  /** A clean-up takes away the oldest rows of every instance. */
  lemma {:induction false} CleanupDropsOldest(rows: seq<LogRow>, keep: LogRow -> bool, instance: string) returns (k: nat)
    requires Increasing(rows) && OldestGoFirst(CleanupOp(keep))
    ensures k <= |Mine(rows, instance)| && Mine(Filter(rows, keep), instance) == Mine(rows, instance)[k..]
  {
    if rows == [] {
      k := 0;
    } else if keep(rows[0]) {
      AllKept(rows, keep);
      k := 0;
    } else {
      k := CleanupDropsOldest(rows[1..], keep, instance);
      if rows[0].instance == instance {
        assert Mine(rows, instance)[1..] == Mine(rows[1..], instance);
        k := k + 1;
      }
    }
  }

  /** Rows that stay are never moved towards the newer end: `drop` of the oldest went, `more` came. */
  lemma ApplyShifts(s: State, op: Op, instance: string) returns (drop: nat, more: seq<LogRow>)
    requires Consistent(s) && OldestGoFirst(op) && op != ClearOp(instance)
    ensures drop <= |Mine(s.rows, instance)|
    ensures Mine(Apply(s, op).rows, instance) == Mine(s.rows, instance)[drop..] + more
    ensures forall i :: 0 <= i < |more| ==> more[i].sequence >= s.counter
  {
    drop, more := 0, [];
    match op
    case StoreOp(log, refused) =>
      if !refused {
        var added := [LogRow(log.instance, log.message, s.counter)];
        more := AppendShifts(s.rows, added, instance, s.counter);
      }
    case BatchOp(logs, failsAt) =>
      if !(failsAt.Some? && failsAt.value < |logs|) {
        more := AppendShifts(s.rows, Numbered(logs, s.counter), instance, s.counter);
      }
    case ClearOp(cleared) =>
      ClearOfOthers(s.rows, cleared, instance);
    case CleanupOp(keep) =>
      drop := CleanupDropsOldest(s.rows, keep, instance);
    case ReopenOp =>
  }

  lemma AppendShifts(rows: seq<LogRow>, added: seq<LogRow>, instance: string, counter: int) returns (more: seq<LogRow>)
    requires forall i :: 0 <= i < |added| ==> added[i].sequence >= counter
    ensures Mine(rows + added, instance) == Mine(rows, instance) + more
    ensures forall i :: 0 <= i < |more| ==> more[i].sequence >= counter
  {
    FilterAppends(rows, added, BelongsTo(instance));
    FilterMembers(added, BelongsTo(instance));
    more := Mine(added, instance);
    forall i | 0 <= i < |more|
      ensures more[i].sequence >= counter
    {
      assert more[i] in more;
    }
  }

  lemma ClearRemoves(rows: seq<LogRow>, r: LogRow)
    ensures r !in Filter(rows, NotOf(r.instance))
  {
    FilterMembers(rows, NotOf(r.instance));
  }

  lemma StaysMine(rows: seq<LogRow>, r: LogRow)
    requires r in rows
    ensures r in Mine(rows, r.instance)
  {
    FilterMembers(rows, BelongsTo(r.instance));
  }

  /** A row that survives an operation has at least as many newer rows of its instance as before. */
  lemma SurvivorMovesBack(s: State, op: Op, r: LogRow, i: nat) returns (j: nat)
    requires Consistent(s) && OldestGoFirst(op) && r in Apply(s, op).rows
    requires i < |Ordered(s.rows, r.instance)| && Ordered(s.rows, r.instance)[i] == r
    ensures i <= j < |Ordered(Apply(s, op).rows, r.instance)| && Ordered(Apply(s, op).rows, r.instance)[j] == r
  {
    ClearRemoves(s.rows, r);
    var drop, more := ApplyShifts(s, op, r.instance);
    var t := Apply(s, op);
    var mine, now := Mine(s.rows, r.instance), Mine(t.rows, r.instance);
    ApplyKeepsConsistent(s, op);
    OrderedAt(s, r.instance, i);
    var p := |mine| - 1 - i;
    StaysMine(t.rows, r);
    RowIsBelow(s, r, p);
    FoundBehind(mine, drop, more, now, p, s.counter);
    j := |now| - 1 - (p - drop);
    OrderedAt(t, r.instance, j);
  }

  lemma RowIsBelow(s: State, r: LogRow, p: nat)
    requires Consistent(s) && p < |Mine(s.rows, r.instance)| && Mine(s.rows, r.instance)[p] == r
    ensures Increasing(Mine(s.rows, r.instance)) && r.sequence < s.counter
  {
    FilterIncreases(s.rows, BelongsTo(r.instance));
    FilterMembers(s.rows, BelongsTo(r.instance));
    assert r in Mine(s.rows, r.instance);
  }

  lemma FoundBehind(mine: seq<LogRow>, drop: nat, more: seq<LogRow>, now: seq<LogRow>, p: nat, counter: int)
    requires Increasing(mine) && p < |mine| && drop <= |mine| && mine[p].sequence < counter
    requires now == mine[drop..] + more && mine[p] in now
    requires forall i :: 0 <= i < |more| ==> more[i].sequence >= counter
    ensures drop <= p && now[p - drop] == mine[p]
  {
    var k :| 0 <= k < |now| && now[k] == mine[p];
    assert k < |mine| - drop;
    assert now[k] == mine[k + drop];
  }

  lemma {:induction false} SurvivorMovesBackOften(s: State, ops: seq<Op>, r: LogRow, i: nat) returns (j: nat)
    requires Consistent(s) && Survives(s, ops, r)
    requires i < |Ordered(s.rows, r.instance)| && Ordered(s.rows, r.instance)[i] == r
    ensures Consistent(ApplyAll(s, ops))
    ensures i <= j < |Ordered(ApplyAll(s, ops).rows, r.instance)| && Ordered(ApplyAll(s, ops).rows, r.instance)[j] == r
    decreases |ops|
  {
    if ops == [] {
      j := i;
    } else {
      ApplyKeepsConsistent(s, ops[0]);
      var k := SurvivorMovesBack(s, ops[0], r, i);
      j := SurvivorMovesBackOften(Apply(s, ops[0]), ops[1..], r, k);
    }
  }

  // ---------- The walk ----------

  /** A row at or behind the offset is still to be read. */
  lemma {:induction false} WalkFinds(s: State, between: seq<seq<Op>>, r: LogRow, limit: int, offset: nat, i: nat)
    requires Consistent(s) && SurvivesWalk(s, between, r)
    requires offset <= i < |Ordered(s.rows, r.instance)| && Ordered(s.rows, r.instance)[i] == r
    ensures r in WalkDuring(s, between, r.instance, limit, offset)
    decreases |between|
  {
    var all := Ordered(s.rows, r.instance);
    var page := PageOf(all, limit, offset);
    PageIsNextStretch(all, limit, offset);
    var next := offset + |page.logs|;
    if i < next {
      assert all[offset..][i - offset] == r;
      assert (page.logs + all[next..])[i - offset] == page.logs[i - offset];
    } else if between == [] {
      WalkReadsTheRest(all, limit, next);
      assert all[next..][i - next] == r;
    } else {
      var j := SurvivorMovesBackOften(s, between[0], r, i);
      WalkFinds(ApplyAll(s, between[0]), between[1..], r, limit, next, j);
    }
  }

  /** In every run of the store, whatever is stored, refused, cleared, cleaned up or reopened between the
      pages of a walk: each row of the instance that is there from the first page to the last is returned
      at least once, for every limit. Clean-ups must take the oldest rows first. */
  lemma SurvivorsAreReturned(run: seq<Op>, between: seq<seq<Op>>, r: LogRow, limit: int)
    requires SurvivesWalk(Exec(run), between, r)
    ensures r in WalkDuring(Exec(run), between, r.instance, limit, 0)
  {
    var s := Exec(run);
    NextNumberIsFresh(run);
    StaysMine(s.rows, r);
    var mine := Mine(s.rows, r.instance);
    var p :| 0 <= p < |mine| && mine[p] == r;
    OrderedAt(s, r.instance, |mine| - 1 - p);
    WalkFinds(s, between, r, limit, 0, |mine| - 1 - p);
  }

  /** A stored log comes first when it is read back, with its own text and number. */
  lemma StoredLogComesFirst(run: seq<Op>, log: ProcessLog)
    ensures var s, t := Exec(run), Exec(run + [StoreOp(log, false)]);
            && Ordered(t.rows, log.instance) == [LogRow(log.instance, log.message, s.counter)] + Ordered(s.rows, log.instance)
            && t.counter == s.counter + 1
  {
    assert (run + [StoreOp(log, false)])[..|run|] == run;
    NextNumberIsFresh(run);
    NextNumberIsFresh(run + [StoreOp(log, false)]);
    NewRowComesFirst(Exec(run).rows, LogRow(log.instance, log.message, Exec(run).counter));
  }

  /** Opening a store again goes on behind the last row, or from one in an empty table. */
  lemma ReopeningContinues(run: seq<Op>)
    ensures var s := Exec(run);
            Apply(s, ReopenOp) == State(s.rows, if s.rows == [] then 1 else s.rows[|s.rows| - 1].sequence + 1)
  {
    NextNumberIsFresh(run);
    if Exec(run).rows != [] {
      MaxIsLast(Exec(run).rows);
    }
  }

  /** A store that the database refuses leaves no row, but uses up its number. */
  lemma RefusedStoreUsesItsNumber(s: State, log: ProcessLog)
    ensures Apply(s, StoreOp(log, true)) == State(s.rows, s.counter + 1)
  {
  }

  lemma NewRowComesFirst(rows: seq<LogRow>, r: LogRow)
    requires Increasing(rows + [r])
    ensures Ordered(rows + [r], r.instance) == [r] + Ordered(rows, r.instance)
  {
    assert Increasing(rows) by {
      assert forall i :: 0 <= i < |rows| ==> rows[i] == (rows + [r])[i];
    }
    FilterAppends(rows, [r], BelongsTo(r.instance));
    assert [r][1..] == [] && Mine(rows + [r], r.instance) == Mine(rows, r.instance) + [r];
    FilterIncreases(rows + [r], BelongsTo(r.instance));
    FilterIncreases(rows, BelongsTo(r.instance));
    SortReverses(Mine(rows + [r], r.instance));
    SortReverses(Mine(rows, r.instance));
    ReversedAppends(Mine(rows, r.instance), r);
  }

  lemma {:induction false} ReversedAppends(rows: seq<LogRow>, r: LogRow)
    ensures Reversed(rows + [r]) == [r] + Reversed(rows)
  {
    if rows == [] {
      assert [r][1..] == [];
    } else {
      ReversedAppends(rows[1..], r);
      assert (rows + [r])[1..] == rows[1..] + [r];
    }
  }

  /** A batch comes back newest first; a batch that fails leaves nothing but the numbers it drew. */
  lemma BatchIsAllOrNothing(s: State, logs: seq<ProcessLog>, failsAt: Option<nat>)
    ensures var t := Apply(s, BatchOp(logs, failsAt));
            if failsAt.Some? && failsAt.value < |logs| then t.rows == s.rows && t.counter == s.counter + failsAt.value + 1
            else
              && t.counter == s.counter + |logs| && |t.rows| == |s.rows| + |logs| && s.rows <= t.rows
              && forall i :: 0 <= i < |logs| ==> t.rows[|s.rows| + i] == LogRow(logs[i].instance, logs[i].message, s.counter + i)
  {
  }

  /** Page by page: `limit` rows from `offset` on, or 100 for a limit of zero, or all for a negative one, or as
      many as there are; hasMore tells whether that leaves any. */
  lemma PageHolds(all: seq<LogRow>, limit: int, offset: nat)
    ensures var page, n := PageOf(all, limit, offset), if limit == 0 then 100 else limit;
            && page.totalCount == |all| && (page.hasMore <==> offset + |page.logs| < |all|)
            && (offset >= |all| ==> page.logs == [])
            && (offset < |all| && (n < 0 || n >= |all| - offset) ==> page.logs == all[offset..])
            && (offset < |all| && 0 <= n < |all| - offset ==> page.logs == all[offset..offset + n])
  {
  }
}
