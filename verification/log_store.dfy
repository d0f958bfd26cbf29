/** The log store: every row gets the next number of a counter that survives failed batches, clears,
    clean-ups and reopening; logs are read back page by page, newest first. */
module LogStore {
  import opened Wrappers
  import opened Sorting

  datatype LogRow = LogRow(instance: string, message: string, sequence: int)
  datatype ProcessLog = ProcessLog(instance: string, message: string)

  /** The table and the in-memory counter, which holds the next number. */
  datatype State = State(rows: seq<LogRow>, counter: int)

  const DEFAULT_LIMIT := 100

  function MaxSequence(rows: seq<LogRow>): int {
    if rows == [] then 0
    else
      var m := MaxSequence(rows[..|rows| - 1]);
      if |rows| == 1 || rows[|rows| - 1].sequence > m then rows[|rows| - 1].sequence else m
  }

  function Open(rows: seq<LogRow>): State {
    State(rows, MaxSequence(rows) + 1)
  }

  function Numbered(logs: seq<ProcessLog>, first: int): seq<LogRow> {
    seq(|logs|, i requires 0 <= i < |logs| => LogRow(logs[i].instance, logs[i].message, first + i))
  }

  /** storeLogs; `failsAt` is the position of the first insert the database refuses, if any. A failed
      batch is rolled back, but the numbers it drew stay used. */
  function StoreBatch(s: State, logs: seq<ProcessLog>, failsAt: Option<nat>): State {
    if failsAt.Some? && failsAt.value < |logs| then s.(counter := s.counter + failsAt.value + 1)
    else State(s.rows + Numbered(logs, s.counter), s.counter + |logs|)
  }

  function BelongsTo(instance: string): LogRow -> bool {
    (r: LogRow) => r.instance == instance
  }

  function NotOf(instance: string): LogRow -> bool {
    (r: LogRow) => r.instance != instance
  }

  /** `keep` says which rows the retention clean-up leaves. */
  datatype Op =
    | StoreOp(log: ProcessLog, refused: bool)
    | BatchOp(logs: seq<ProcessLog>, failsAt: Option<nat>)
    | ClearOp(instance: string)
    | CleanupOp(keep: LogRow -> bool)
    | ReopenOp

  function Apply(s: State, op: Op): State {
    match op
    case StoreOp(log, refused) =>
      if refused then s.(counter := s.counter + 1)
      else State(s.rows + [LogRow(log.instance, log.message, s.counter)], s.counter + 1)
    case BatchOp(logs, failsAt) => StoreBatch(s, logs, failsAt)
    case ClearOp(instance) => s.(rows := Filter(s.rows, NotOf(instance)))
    case CleanupOp(keep) => s.(rows := Filter(s.rows, keep))
    case ReopenOp => Open(s.rows)
  }

  function Exec(run: seq<Op>): State {
    if run == [] then Open([]) else Apply(Exec(run[..|run| - 1]), run[|run| - 1])
  }

  // ---------- Sequence numbers ----------

  function SequenceOf(r: LogRow): int {
    r.sequence
  }

  /** Stored numbers are positive, increase strictly, and stay below the counter. */
  ghost predicate Consistent(s: State) {
    && Increasing(s.rows)
    && (forall i :: 0 <= i < |s.rows| ==> 1 <= s.rows[i].sequence < s.counter)
    && s.counter >= 1
  }

  ghost predicate Increasing(rows: seq<LogRow>) {
    forall i, j :: 0 <= i < j < |rows| ==> rows[i].sequence < rows[j].sequence
  }

  lemma {:induction false} FilterIncreases(rows: seq<LogRow>, p: LogRow -> bool)
    requires Increasing(rows)
    ensures Increasing(Filter(rows, p))
  {
    if rows != [] {
      FilterIncreases(rows[1..], p);
      FilterMembers(rows[1..], p);
      var t := Filter(rows[1..], p);
      forall j | 0 <= j < |t|
        ensures rows[0].sequence < t[j].sequence
      {
        assert t[j] in t;
        var k :| 0 <= k < |rows[1..]| && rows[1..][k] == t[j];
        assert rows[k + 1] == t[j];
      }
    }
  }

  lemma {:induction false} MaxIsLast(rows: seq<LogRow>)
    requires Increasing(rows) && rows != []
    ensures MaxSequence(rows) == rows[|rows| - 1].sequence
  {
    if |rows| > 1 {
      MaxIsLast(rows[..|rows| - 1]);
    }
  }

  lemma FilterKeepsConsistent(s: State, p: LogRow -> bool)
    requires Consistent(s)
    ensures Consistent(s.(rows := Filter(s.rows, p)))
  {
    FilterIncreases(s.rows, p);
    FilterMembers(s.rows, p);
    var t := Filter(s.rows, p);
    forall i | 0 <= i < |t|
      ensures 1 <= t[i].sequence < s.counter
    {
      assert t[i] in t;
    }
  }

  lemma BatchKeepsConsistent(s: State, logs: seq<ProcessLog>, failsAt: Option<nat>)
    requires Consistent(s)
    ensures Consistent(StoreBatch(s, logs, failsAt))
  {
  }

  lemma ApplyKeepsConsistent(s: State, op: Op)
    requires Consistent(s)
    ensures Consistent(Apply(s, op))
  {
    match op
    case StoreOp(log, refused) =>
    case BatchOp(logs, failsAt) =>
      BatchKeepsConsistent(s, logs, failsAt);
    case ClearOp(instance) =>
      FilterKeepsConsistent(s, NotOf(instance));
    case CleanupOp(keep) =>
      FilterKeepsConsistent(s, keep);
    case ReopenOp =>
      if s.rows != [] {
        MaxIsLast(s.rows);
      }
  }

  /** With one writer, over every run of stores, failed batches, clears, clean-ups and reopenings, the
      next number exceeds every stored one and stored numbers are pairwise distinct, so the table's
      uniqueness constraint is never hit. */
  lemma {:induction false} NextNumberIsFresh(run: seq<Op>)
    ensures Consistent(Exec(run))
  {
    if run != [] {
      NextNumberIsFresh(run[..|run| - 1]);
      ApplyKeepsConsistent(Exec(run[..|run| - 1]), run[|run| - 1]);
    }
  }

  // ---------- Pages ----------

  function Newest(): (LogRow, LogRow) -> bool {
    (a: LogRow, b: LogRow) => a.sequence >= b.sequence
  }

  /** The instance's rows, highest number first. */
  function Ordered(rows: seq<LogRow>, instance: string): seq<LogRow> {
    Sort(Filter(rows, BelongsTo(instance)), Newest())
  }

  /** SQL's LIMIT and OFFSET: a negative limit means no limit, a negative offset none. */
  function Slice(rows: seq<LogRow>, limit: int, offset: int): seq<LogRow> {
    var from := if offset < 0 then 0 else if offset > |rows| then |rows| else offset;
    if limit < 0 || limit > |rows| - from then rows[from..] else rows[from..from + limit]
  }

  datatype Page = Page(logs: seq<LogRow>, hasMore: bool, totalCount: nat, lastSequence: int)

  /** A page cut from the instance's ordered rows; a limit of zero means the default. */
  function PageOf(all: seq<LogRow>, limit: int, offset: int): Page {
    var logs := Slice(all, if limit == 0 then DEFAULT_LIMIT else limit, offset);
    Page(logs, offset + |logs| < |all|, |all|, MaxSequence(logs))
  }

  /** A client that asks for the next page, behind the rows it has, as long as there is more. */
  function Walk(all: seq<LogRow>, limit: int, offset: nat): seq<LogRow>
    decreases |all| - offset
  {
    var page := PageOf(all, limit, offset);
    if page.hasMore then page.logs + Walk(all, limit, offset + |page.logs|) else page.logs
  }

  /** A page is the next stretch of the rows; hasMore is true exactly when rows follow it. */
  lemma PageIsNextStretch(all: seq<LogRow>, limit: int, offset: nat)
    requires offset <= |all|
    ensures var page := PageOf(all, limit, offset);
            && offset + |page.logs| <= |all|
            && page.logs + all[offset + |page.logs|..] == all[offset..]
            && (page.hasMore <==> offset + |page.logs| < |all|)
  {
  }

  lemma {:induction false} WalkReadsTheRest(all: seq<LogRow>, limit: int, offset: nat)
    requires offset <= |all|
    ensures Walk(all, limit, offset) == all[offset..]
    decreases |all| - offset
  {
    PageIsNextStretch(all, limit, offset);
    var page := PageOf(all, limit, offset);
    if page.hasMore {
      WalkReadsTheRest(all, limit, offset + |page.logs|);
    }
  }

  lemma NewestIsPreorder()
    ensures TotalPreorder(Newest())
  {
  }

  lemma {:induction false} MaxOfDescending(rows: seq<LogRow>)
    requires rows != [] && forall i, j :: 0 <= i < j < |rows| ==> rows[i].sequence >= rows[j].sequence
    ensures MaxSequence(rows) == rows[0].sequence
  {
    if |rows| > 1 {
      MaxOfDescending(rows[..|rows| - 1]);
    }
  }

  /** The cursor of a page is the number of its newest row, or zero on an empty page. */
  lemma CursorIsNewest(rows: seq<LogRow>, instance: string, limit: int, offset: nat)
    requires offset <= |Ordered(rows, instance)|
    ensures var all := Ordered(rows, instance); var page := PageOf(all, limit, offset);
            && (page.logs == [] ==> page.lastSequence == 0)
            && (page.logs != [] ==> page.lastSequence == page.logs[0].sequence == all[offset].sequence)
            && (forall r :: r in page.logs ==> r.sequence <= page.lastSequence)
  {
    var all := Ordered(rows, instance);
    NewestIsPreorder();
    SortSorts(Filter(rows, BelongsTo(instance)), Newest());
    assert forall i, j :: 0 <= i < j < |all| ==> Newest()(all[i], all[j]);
    CursorOfOrdered(all, limit, offset);
  }

  lemma CursorOfOrdered(all: seq<LogRow>, limit: int, offset: nat)
    requires offset <= |all| && forall i, j :: 0 <= i < j < |all| ==> all[i].sequence >= all[j].sequence
    ensures var page := PageOf(all, limit, offset);
            && (page.logs == [] ==> page.lastSequence == 0)
            && (page.logs != [] ==> page.lastSequence == page.logs[0].sequence == all[offset].sequence)
            && (forall r :: r in page.logs ==> r.sequence <= page.lastSequence)
  {
    var page := PageOf(all, limit, offset);
    if page.logs != [] {
      MaxOfDescending(page.logs);
    }
  }

  /** Walking the pages of an unchanging table from the start, with any limit (zero meaning the
      default), ends and returns each row of the instance exactly once, in descending order. */
  lemma PagesCoverEachRowOnce(run: seq<Op>, instance: string, limit: int)
    ensures var rows := Exec(run).rows; var walked := Walk(Ordered(rows, instance), limit, 0);
            && multiset(walked) == multiset(Filter(rows, BelongsTo(instance)))
            && (forall i, j :: 0 <= i < j < |walked| ==> walked[i].sequence > walked[j].sequence)
  {
    var rows := Exec(run).rows;
    NextNumberIsFresh(run);
    WalkReadsTheRest(Ordered(rows, instance), limit, 0);
    var mine := Filter(rows, BelongsTo(instance));
    FilterIncreases(rows, BelongsTo(instance));
    SortPermutes(mine, Newest());
    NewestIsPreorder();
    SortSorts(mine, Newest());
    SortKeepsDistinct(mine, Newest(), SequenceOf);
    var walked := Ordered(rows, instance);
    assert walked[0..] == walked;
    forall i, j | 0 <= i < j < |walked|
      ensures walked[i].sequence > walked[j].sequence
    {
      assert Newest()(walked[i], walked[j]);
      assert SequenceOf(walked[i]) != SequenceOf(walked[j]);
    }
  }

  // ---------- The store object ----------

  ghost predicate Below(rows: seq<LogRow>, counter: int) {
    forall r :: r in rows ==> r.sequence < counter
  }

  lemma {:induction false} MaxIsHighest(rows: seq<LogRow>)
    ensures Below(rows, MaxSequence(rows) + 1)
  {
    if rows != [] {
      var front, last := rows[..|rows| - 1], rows[|rows| - 1];
      assert rows == front + [last];
      MaxIsHighest(front);
    }
  }

  class LogStorage {
    var rows: seq<LogRow>
    var sequenceCounter: int

    /** Every stored number is below the counter, whatever table was opened. */
    ghost predicate Valid()
      reads this
    {
      Below(rows, sequenceCounter)
    }

    ghost function Now(): State
      reads this
    {
      State(rows, sequenceCounter)
    }

    /** Opens a store over an existing table. */
    constructor (rows: seq<LogRow>)
      ensures Valid() && Now() == Open(rows)
    {
      this.rows := rows;
      sequenceCounter := MaxSequence(rows) + 1;
      new;
      MaxIsHighest(rows);
    }

    method StoreLog(log: ProcessLog, refused: bool) returns (result: Option<int>)
      requires Valid()
      modifies this
      ensures Valid() && Now() == Apply(old(Now()), StoreOp(log, refused))
      ensures result == if refused then None else Some(old(sequenceCounter))
    {
      var sequence := sequenceCounter;
      sequenceCounter := sequenceCounter + 1;
      if refused {
        return None;
      }
      rows := rows + [LogRow(log.instance, log.message, sequence)];
      return Some(sequence);
    }

    /** All or nothing: either every log is stored, under consecutive numbers that are returned, or the
        table is as before. */
    method StoreLogs(logs: seq<ProcessLog>, failsAt: Option<nat>) returns (result: Option<seq<int>>)
      requires Valid()
      modifies this
      ensures Valid() && Now() == Apply(old(Now()), BatchOp(logs, failsAt))
      ensures result.None? <==> failsAt.Some? && failsAt.value < |logs|
      ensures result.None? ==> rows == old(rows)
      ensures result.Some? ==> |result.value| == |logs| && rows == old(rows) + Numbered(logs, old(sequenceCounter))
      ensures result.Some? ==> forall i :: 0 <= i < |logs| ==> result.value[i] == old(sequenceCounter) + i
    {
      var snapshot := rows;
      var sequences: seq<int> := [];
      for i := 0 to |logs|
        invariant Valid() && snapshot == old(rows)
        invariant failsAt.None? || i <= failsAt.value
        invariant Now() == State(old(rows) + Numbered(logs[..i], old(sequenceCounter)), old(sequenceCounter) + i)
        invariant |sequences| == i && forall j :: 0 <= j < i ==> sequences[j] == old(sequenceCounter) + j
      {
        var stored := StoreLog(logs[i], failsAt == Some(i));
        if stored.None? {
          rows := snapshot;
          assert Valid();
          return None;
        }
        sequences := sequences + [stored.value];
        assert Numbered(logs[..i + 1], old(sequenceCounter))
            == Numbered(logs[..i], old(sequenceCounter)) + [LogRow(logs[i].instance, logs[i].message, old(sequenceCounter) + i)];
      }
      assert logs[..|logs|] == logs;
      return Some(sequences);
    }

    method ClearLogs(instance: string) returns (clearedCount: nat)
      requires Valid()
      modifies this
      ensures Valid() && Now() == Apply(old(Now()), ClearOp(instance))
      ensures clearedCount == |Filter(old(rows), BelongsTo(instance))|
    {
      clearedCount := |Filter(rows, BelongsTo(instance))|;
      FilterMembers(rows, NotOf(instance));
      assert forall r :: r in Filter(rows, NotOf(instance)) ==> r in rows;
      rows := Filter(rows, NotOf(instance));
    }

    method GetLogs(instance: string, limit: int, offset: int) returns (page: Page)
      ensures page == PageOf(Ordered(rows, instance), limit, offset)
    {
      SortPermutes(Filter(rows, BelongsTo(instance)), Newest());
      var logs := Slice(Ordered(rows, instance), if limit == 0 then DEFAULT_LIMIT else limit, offset);
      var total := |Filter(rows, BelongsTo(instance))|;
      return Page(logs, offset + |logs| < total, total, MaxSequence(logs));
    }
  }
}
