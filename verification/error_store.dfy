/** The deduplicating error store: one table row per (instance, error hash) with an occurrence count,
    the retry wrapper around storing, and the read side that groups, sorts and summarizes. The hash of
    a message and its level is a parameter; nothing is assumed about it, injectivity included. */
module ErrorStore {
  import opened Sequences
  import opened Wrappers
  import opened Sorting

  datatype SimpleError = SimpleError(timestamp: string, level: int, message: string, rawOutput: string)
  datatype Row = Row(id: nat, instance: string, process: string, hash: string, timestamp: string, level: int,
                     message: string, rawOutput: string, count: nat, createdAt: string)

  datatype Table = Table(rows: seq<Row>, nextId: nat)

  type Hash = (string, int) -> string

  const MAX_ATTEMPTS: nat := 3

  predicate Matches(r: Row, instance: string, hash: string) {
    r.instance == instance && r.hash == hash
  }

  /** Position of the row for an instance and a hash, or the number of rows. */
  function FindRow(rows: seq<Row>, instance: string, hash: string): nat {
    FirstIndex(rows, (r: Row) => Matches(r, instance, hash))
  }

  function Touch(r: Row, e: SimpleError): Row {
    r.(count := r.count + 1, timestamp := e.timestamp, rawOutput := e.rawOutput)
  }

  /** `at` is the database's clock, which stamps a new row. */
  function Store(t: Table, instance: string, process: string, e: SimpleError, at: string, hash: Hash): Table {
    var h := hash(e.message, e.level);
    var i := FindRow(t.rows, instance, h);
    if i < |t.rows| then t.(rows := t.rows[i := Touch(t.rows[i], e)])
    else Table(t.rows + [Row(t.nextId, instance, process, h, e.timestamp, e.level, e.message, e.rawOutput, 1, at)], t.nextId + 1)
  }

  function Owns(instance: string): Row -> bool {
    (r: Row) => r.instance == instance
  }

  function Disowns(instance: string): Row -> bool {
    (r: Row) => r.instance != instance
  }

  function RowsOf(rows: seq<Row>, instance: string): seq<Row> {
    Filter(rows, Owns(instance))
  }

  function Others(rows: seq<Row>, instance: string): seq<Row> {
    Filter(rows, Disowns(instance))
  }

  function Clear(t: Table, instance: string): Table {
    t.(rows := Others(t.rows, instance))
  }

  /** `failures`: how many attempts in a row the database refuses. */
  datatype Op =
    | StoreOp(instance: string, process: string, error: SimpleError, at: string, failures: nat)
    | ClearOp(instance: string, refused: bool)

  predicate Succeeds(op: Op) {
    if op.StoreOp? then op.failures < MAX_ATTEMPTS else !op.refused
  }

  function Apply(t: Table, op: Op, hash: Hash): Table {
    if !Succeeds(op) then t
    else match op
      case StoreOp(instance, process, e, at, _) => Store(t, instance, process, e, at, hash)
      case ClearOp(instance, _) => Clear(t, instance)
  }

  function Exec(run: seq<Op>, hash: Hash): Table {
    if run == [] then Table([], 1) else Apply(Exec(run[..|run| - 1], hash), run[|run| - 1], hash)
  }

  // ---------- One row per instance and hash ----------

  ghost predicate Unique(rows: seq<Row>) {
    forall i, j :: 0 <= i < j < |rows| ==> !(rows[i].instance == rows[j].instance && rows[i].hash == rows[j].hash)
  }

  lemma {:induction false} FilterKeepsUnique(rows: seq<Row>, p: Row -> bool)
    requires Unique(rows)
    ensures Unique(Filter(rows, p))
  {
    if rows != [] {
      FilterKeepsUnique(rows[1..], p);
      FilterMembers(rows[1..], p);
      var t := Filter(rows[1..], p);
      forall j | 0 <= j < |t|
        ensures !(rows[0].instance == t[j].instance && rows[0].hash == t[j].hash)
      {
        assert t[j] in t;
        var k :| 0 <= k < |rows[1..]| && rows[1..][k] == t[j];
        assert rows[k + 1] == t[j];
      }
    }
  }

  lemma {:induction false} RowsAreUnique(run: seq<Op>, hash: Hash)
    ensures Unique(Exec(run, hash).rows)
  {
    if run != [] {
      RowsAreUnique(run[..|run| - 1], hash);
      var t, op := Exec(run[..|run| - 1], hash), run[|run| - 1];
      if op.ClearOp? {
        FilterKeepsUnique(t.rows, Disowns(op.instance));
      }
    }
  }

  // ---------- What a stored error leaves ----------

  /** The row of an error that was stored before: as it was, but counted once more and with the newest time and
      output. */
  ghost predicate CountedAgain(was: Row, now: Row, e: SimpleError) {
    && now.count == was.count + 1 && now.timestamp == e.timestamp && now.rawOutput == e.rawOutput
    && now.id == was.id && now.instance == was.instance && now.process == was.process && now.hash == was.hash
    && now.level == was.level && now.message == was.message && now.createdAt == was.createdAt
  }

  /** Storing an error, with at most two refusals before, changes or adds exactly one row, the one of its
      instance and hash; with three or more it changes nothing. */
  lemma StoreChangesOneRow(t: Table, instance: string, process: string, e: SimpleError, at: string, failures: nat, hash: Hash) returns (i: nat)
    ensures failures >= 3 ==> Apply(t, StoreOp(instance, process, e, at, failures), hash) == t
    ensures failures <= 2 ==>
              var u, h := Apply(t, StoreOp(instance, process, e, at, failures), hash), hash(e.message, e.level);
              && i <= |t.rows| && i < |u.rows| && |u.rows| == (if i < |t.rows| then |t.rows| else i + 1)
              && (forall j :: 0 <= j < |t.rows| && j != i ==> u.rows[j] == t.rows[j])
              && u.rows[i].instance == instance && u.rows[i].hash == h
              && (i < |t.rows| ==> CountedAgain(t.rows[i], u.rows[i], e) && u.nextId == t.nextId)
              && (i == |t.rows| ==>
                   && u.rows[i] == Row(t.nextId, instance, process, h, e.timestamp, e.level, e.message, e.rawOutput, 1, at)
                   && u.nextId == t.nextId + 1
                   && forall j :: 0 <= j < |t.rows| ==> !(t.rows[j].instance == instance && t.rows[j].hash == h))
  {
    i := FindRow(t.rows, instance, hash(e.message, e.level));
  }

  // ---------- Occurrences ----------

  function Occurrences(rows: seq<Row>): nat {
    if rows == [] then 0 else rows[0].count + Occurrences(rows[1..])
  }

  lemma {:induction false} OccurrencesAppend(a: seq<Row>, b: seq<Row>)
    ensures Occurrences(a + b) == Occurrences(a) + Occurrences(b)
  {
    if a == [] {
      assert a + b == b;
    } else {
      OccurrencesAppend(a[1..], b);
      assert (a + b)[1..] == a[1..] + b;
    }
  }

  /** Touching one row changes the instance's rows in that row only. */
  lemma {:induction false} TouchOne(rows: seq<Row>, i: nat, r: Row, instance: string)
    requires i < |rows| && r.instance == rows[i].instance
    ensures r.instance != instance ==> RowsOf(rows[i := r], instance) == RowsOf(rows, instance)
    ensures r.instance == instance ==>
              Occurrences(RowsOf(rows[i := r], instance)) + rows[i].count == Occurrences(RowsOf(rows, instance)) + r.count
  {
    if i == 0 {
      assert rows[i := r][1..] == rows[1..];
    } else {
      TouchOne(rows[1..], i - 1, r, instance);
      assert rows[i := r][1..] == rows[1..][i - 1 := r];
    }
  }

  lemma {:induction false} FilterOfOthers(rows: seq<Row>, cleared: string, instance: string)
    ensures cleared == instance ==> RowsOf(Others(rows, cleared), instance) == []
    ensures cleared != instance ==> RowsOf(Others(rows, cleared), instance) == RowsOf(rows, instance)
  {
    if rows != [] {
      FilterOfOthers(rows[1..], cleared, instance);
      if rows[0].instance != cleared {
        assert Others(rows, cleared)[1..] == Others(rows[1..], cleared);
      }
    }
  }

  lemma RowsOfAppend(rows: seq<Row>, r: Row, instance: string)
    ensures RowsOf(rows + [r], instance) == if r.instance == instance then RowsOf(rows, instance) + [r] else RowsOf(rows, instance)
  {
    var mine := Owns(instance);
    FilterAppends(rows, [r], mine);
    assert [r][1..] == [];
    assert RowsOf(rows, instance) + [] == RowsOf(rows, instance);
  }

  /** What one operation does to the occurrences of an instance; other instances keep their rows. */
  lemma ApplyCounts(t: Table, op: Op, hash: Hash, instance: string)
    ensures op.instance != instance || !Succeeds(op) ==> RowsOf(Apply(t, op, hash).rows, instance) == RowsOf(t.rows, instance)
    ensures op.instance == instance && op.StoreOp? && Succeeds(op) ==>
              Occurrences(RowsOf(Apply(t, op, hash).rows, instance)) == Occurrences(RowsOf(t.rows, instance)) + 1
    ensures op.instance == instance && op.ClearOp? && Succeeds(op) ==> RowsOf(Apply(t, op, hash).rows, instance) == []
  {
    if op.ClearOp? {
      FilterOfOthers(t.rows, op.instance, instance);
    } else {
      var h := hash(op.error.message, op.error.level);
      var i := FindRow(t.rows, op.instance, h);
      if i < |t.rows| {
        TouchOne(t.rows, i, Touch(t.rows[i], op.error), instance);
      } else {
        var r := Row(t.nextId, op.instance, op.process, h, op.error.timestamp, op.error.level, op.error.message, op.error.rawOutput, 1, op.at);
        RowsOfAppend(t.rows, r, instance);
        OccurrencesAppend(RowsOf(t.rows, instance), [r]);
        assert [r][1..] == [] && Occurrences([r]) == 1;
      }
    }
  }

  /** Successful stores of an instance since its last successful clear. */
  function StoredSinceClear(run: seq<Op>, instance: string): nat {
    if run == [] then 0
    else
      var before, op := StoredSinceClear(run[..|run| - 1], instance), run[|run| - 1];
      if op.instance != instance || !Succeeds(op) then before
      else if op.StoreOp? then before + 1
      else 0
  }

  /** In every run, for every instance, the occurrence counts add up to the successful stores since the
      last clear, whatever collisions the hash has and however often the database refuses. */
  lemma {:induction false} OccurrencesAreConserved(run: seq<Op>, hash: Hash, instance: string)
    ensures Occurrences(RowsOf(Exec(run, hash).rows, instance)) == StoredSinceClear(run, instance)
  {
    if run != [] {
      OccurrencesAreConserved(run[..|run| - 1], hash, instance);
      ApplyCounts(Exec(run[..|run| - 1], hash), run[|run| - 1], hash, instance);
    }
  }

  /** A clear removes the rows of its instance and keeps all others in order; a refused one does nothing. */
  lemma ClearRemovesTheInstance(t: Table, instance: string, hash: Hash)
    ensures Apply(t, ClearOp(instance, true), hash) == t
    ensures var u := Apply(t, ClearOp(instance, false), hash);
            && RowsOf(u.rows, instance) == [] && u.nextId == t.nextId
            && forall other :: other != instance ==> RowsOf(u.rows, other) == RowsOf(t.rows, other)
  {
    forall other: string
      ensures other == instance ==> RowsOf(Others(t.rows, instance), other) == []
      ensures other != instance ==> RowsOf(Others(t.rows, instance), other) == RowsOf(t.rows, other)
    {
      FilterOfOthers(t.rows, instance, other);
    }
  }

  // ---------- The read side ----------

  /** SQLite's BINARY comparison of texts. */
  predicate TextLe(a: string, b: string) {
    a == "" || (b != "" && (a[0] < b[0] || (a[0] == b[0] && TextLe(a[1..], b[1..]))))
  }

  lemma {:induction false} TextLeTotal(a: string, b: string)
    ensures TextLe(a, b) || TextLe(b, a)
  {
    if a != "" && b != "" && a[0] == b[0] {
      TextLeTotal(a[1..], b[1..]);
    }
  }

  lemma {:induction false} TextLeTransitive(a: string, b: string, c: string)
    requires TextLe(a, b) && TextLe(b, c)
    ensures TextLe(a, c)
  {
    if a != "" && a[0] == b[0] && b[0] == c[0] {
      TextLeTransitive(a[1..], b[1..], c[1..]);
    }
  }

  /** One text is a beginning of the other, or smaller in the first character in which they differ. */
  lemma {:induction false} TextLeIsLexicographic(a: string, b: string)
    ensures TextLe(a, b) <==> a <= b || exists k :: SmallerAt(a, b, k)
  {
    if a != "" && b != "" && a[0] == b[0] {
      TextLeIsLexicographic(a[1..], b[1..]);
      assert a == [a[0]] + a[1..] && b == [b[0]] + b[1..];
      LaterDifference(a, b);
    } else if a != "" && b != "" {
      assert a[..0] == b[..0];
      assert a[0] < b[0] ==> SmallerAt(a, b, 0);
    }
  }

  ghost predicate SmallerAt(a: string, b: string, k: int) {
    0 <= k < |a| && k < |b| && a[..k] == b[..k] && a[k] < b[k]
  }

  lemma LaterDifference(a: string, b: string)
    requires a != "" && b != "" && a[0] == b[0]
    ensures (exists k :: SmallerAt(a, b, k)) <==> exists k :: SmallerAt(a[1..], b[1..], k)
  {
    forall k | SmallerAt(a, b, k)
      ensures SmallerAt(a[1..], b[1..], k - 1)
    {
      assert k > 0;
      assert a[1..][..k - 1] == a[..k][1..] && b[1..][..k - 1] == b[..k][1..];
    }
    forall k | SmallerAt(a[1..], b[1..], k)
      ensures SmallerAt(a, b, k + 1)
    {
      assert a[..k + 1] == [a[0]] + a[1..][..k] && b[..k + 1] == [b[0]] + b[1..][..k];
    }
  }

  function TextMax(a: string, b: string): string {
    if TextLe(a, b) then b else a
  }

  /** The aggregates of one GROUP BY error_hash group; the bare columns come from one of its rows. */
  function Merge(group: seq<Row>): Row
    requires group != []
  {
    if |group| == 1 then group[0]
    else
      var rest := Merge(group[1..]);
      group[0].(id := if group[0].id > rest.id then group[0].id else rest.id,
                timestamp := TextMax(group[0].timestamp, rest.timestamp),
                rawOutput := TextMax(group[0].rawOutput, rest.rawOutput),
                count := group[0].count + rest.count,
                createdAt := if TextLe(group[0].createdAt, rest.createdAt) then group[0].createdAt else rest.createdAt)
  }

  function SameHash(hash: string): Row -> bool {
    (r: Row) => r.hash == hash
  }

  function OtherHash(hash: string): Row -> bool {
    (r: Row) => r.hash != hash
  }

  function GroupByHash(rows: seq<Row>): seq<Row>
    decreases |rows|
  {
    if rows == [] then []
    else
      FilterMembers(rows[1..], OtherHash(rows[0].hash));
      [Merge([rows[0]] + Filter(rows[1..], SameHash(rows[0].hash)))] + GroupByHash(Filter(rows[1..], OtherHash(rows[0].hash)))
  }

  function Newer(): (Row, Row) -> bool {
    (a: Row, b: Row) => TextLe(b.timestamp, a.timestamp)
  }

  function SelectErrors(rows: seq<Row>, instance: string): seq<Row> {
    Sort(GroupByHash(RowsOf(rows, instance)), Newer())
  }

  lemma {:induction false} NoSameHash(rows: seq<Row>, hash: string)
    requires forall i :: 0 <= i < |rows| ==> rows[i].hash != hash
    ensures Filter(rows, SameHash(hash)) == [] && Filter(rows, OtherHash(hash)) == rows
  {
    if rows != [] {
      NoSameHash(rows[1..], hash);
    }
  }

  /** With one row per hash, grouping changes nothing. */
  lemma {:induction false} GroupingIsIdentity(rows: seq<Row>)
    requires forall i, j :: 0 <= i < j < |rows| ==> rows[i].hash != rows[j].hash
    ensures GroupByHash(rows) == rows
  {
    if rows != [] {
      NoSameHash(rows[1..], rows[0].hash);
      GroupingIsIdentity(rows[1..]);
      assert [rows[0]] + [] == [rows[0]];
    }
  }

  lemma MergeTwo(first: Row, rest: seq<Row>)
    requires rest != []
    ensures var r, m := Merge([first] + rest), Merge(rest);
            && r.id == (if first.id > m.id then first.id else m.id) && r.count == first.count + m.count
            && TextLe(first.timestamp, r.timestamp) && TextLe(m.timestamp, r.timestamp) && (r.timestamp == first.timestamp || r.timestamp == m.timestamp)
            && TextLe(first.rawOutput, r.rawOutput) && TextLe(m.rawOutput, r.rawOutput) && (r.rawOutput == first.rawOutput || r.rawOutput == m.rawOutput)
            && TextLe(r.createdAt, first.createdAt) && TextLe(r.createdAt, m.createdAt) && (r.createdAt == first.createdAt || r.createdAt == m.createdAt)
  {
    var m := Merge(rest);
    assert ([first] + rest)[1..] == rest;
    TextLeTotal(first.timestamp, m.timestamp);
    TextLeTotal(first.timestamp, first.timestamp);
    TextLeTotal(m.timestamp, m.timestamp);
    TextLeTotal(first.rawOutput, m.rawOutput);
    TextLeTotal(first.rawOutput, first.rawOutput);
    TextLeTotal(m.rawOutput, m.rawOutput);
    TextLeTotal(first.createdAt, m.createdAt);
    TextLeTotal(first.createdAt, first.createdAt);
    TextLeTotal(m.createdAt, m.createdAt);
  }

  /** The aggregates of a group bound its rows: greatest id, latest time, greatest output, earliest creation. */
  lemma {:induction false} MergeBounds(group: seq<Row>, i: nat)
    requires i < |group|
    ensures var r := Merge(group);
            && group[i].id <= r.id && TextLe(group[i].timestamp, r.timestamp)
            && TextLe(group[i].rawOutput, r.rawOutput) && TextLe(r.createdAt, group[i].createdAt)
  {
    if |group| == 1 {
      TextLeTotal(group[0].timestamp, group[0].timestamp);
      TextLeTotal(group[0].rawOutput, group[0].rawOutput);
      TextLeTotal(group[0].createdAt, group[0].createdAt);
    } else {
      var r, m := Merge(group), Merge(group[1..]);
      assert [group[0]] + group[1..] == group;
      MergeTwo(group[0], group[1..]);
      if i > 0 {
        MergeBounds(group[1..], i - 1);
        TextLeTransitive(group[i].timestamp, m.timestamp, r.timestamp);
        TextLeTransitive(group[i].rawOutput, m.rawOutput, r.rawOutput);
        TextLeTransitive(r.createdAt, m.createdAt, group[i].createdAt);
      }
    }
  }

  /** And each of them is that of some row of the group, which is counted as often as its rows together. */
  lemma {:induction false} MergeAttains(group: seq<Row>) returns (i: nat, j: nat, k: nat, l: nat)
    requires group != []
    ensures i < |group| && j < |group| && k < |group| && l < |group|
    ensures var r := Merge(group);
            && r.id == group[i].id && r.timestamp == group[j].timestamp && r.rawOutput == group[k].rawOutput
            && r.createdAt == group[l].createdAt && r.count == Occurrences(group) && r.hash == group[0].hash
  {
    i, j, k, l := 0, 0, 0, 0;
    if |group| == 1 {
      assert group[1..] == [];
    } else {
      var r, m := Merge(group), Merge(group[1..]);
      i, j, k, l := MergeAttains(group[1..]);
      assert [group[0]] + group[1..] == group;
      MergeTwo(group[0], group[1..]);
      i, j := if r.id == m.id then i + 1 else 0, if r.timestamp == m.timestamp then j + 1 else 0;
      k, l := if r.rawOutput == m.rawOutput then k + 1 else 0, if r.createdAt == m.createdAt then l + 1 else 0;
    }
  }

  lemma InstanceHashesDiffer(rows: seq<Row>, instance: string)
    requires Unique(rows)
    ensures forall i, j :: 0 <= i < j < |RowsOf(rows, instance)| ==> RowsOf(rows, instance)[i].hash != RowsOf(rows, instance)[j].hash
  {
    var mine := Owns(instance);
    FilterKeepsUnique(rows, mine);
    FilterMembers(rows, mine);
    var t := Filter(rows, mine);
    forall i, j | 0 <= i < j < |t|
      ensures t[i].hash != t[j].hash
    {
      assert t[i] in t && t[j] in t;
    }
  }

  lemma NewerIsPreorder()
    ensures TotalPreorder(Newer())
  {
    var le := Newer();
    forall a: Row, b: Row
      ensures le(a, b) || le(b, a)
    {
      TextLeTotal(a.timestamp, b.timestamp);
    }
    forall a: Row, b: Row, c: Row | le(a, b) && le(b, c)
      ensures le(a, c)
    {
      TextLeTransitive(c.timestamp, b.timestamp, a.timestamp);
    }
  }

  /** getErrors returns exactly the instance's rows, ungrouped, newest timestamp first, hashes distinct. */
  lemma SelectReturnsTheRows(rows: seq<Row>, instance: string)
    requires Unique(rows)
    ensures multiset(SelectErrors(rows, instance)) == multiset(RowsOf(rows, instance))
    ensures Sorted(SelectErrors(rows, instance), Newer())
    ensures forall i, j :: 0 <= i < j < |SelectErrors(rows, instance)| ==>
              TextLe(SelectErrors(rows, instance)[j].timestamp, SelectErrors(rows, instance)[i].timestamp)
    ensures DistinctBy(SelectErrors(rows, instance), HashOf)
  {
    InstanceHashesDiffer(rows, instance);
    var mine := RowsOf(rows, instance);
    GroupingIsIdentity(mine);
    SortPermutes(mine, Newer());
    NewerIsPreorder();
    SortSorts(mine, Newer());
    SortKeepsDistinct(mine, Newer(), HashOf);
    var errors := SelectErrors(rows, instance);
    assert forall i, j :: 0 <= i < j < |errors| ==> Newer()(errors[i], errors[j]);
  }

  function HashOf(r: Row): string {
    r.hash
  }

  lemma {:induction false} OccurrencesOfInsert(r: Row, rows: seq<Row>, le: (Row, Row) -> bool)
    ensures Occurrences(Insert(r, rows, le)) == r.count + Occurrences(rows)
  {
    if rows != [] && !le(r, rows[0]) {
      OccurrencesOfInsert(r, rows[1..], le);
    }
  }

  lemma {:induction false} OccurrencesOfSort(rows: seq<Row>, le: (Row, Row) -> bool)
    ensures Occurrences(Sort(rows, le)) == Occurrences(rows)
  {
    if rows != [] {
      OccurrencesOfSort(rows[1..], le);
      OccurrencesOfInsert(rows[0], Sort(rows[1..], le), le);
    }
  }

  // ---------- The summary ----------

  datatype Summary = Summary(totalErrors: nat, uniqueErrors: nat, repeatedErrors: int, errorsByLevel: map<int, nat>,
                             latestError: Option<string>, oldestError: Option<string>)

  function AtLevel(rows: seq<Row>, level: int): nat {
    if rows == [] then 0
    else AtLevel(rows[..|rows| - 1], level) + (if rows[|rows| - 1].level == level then rows[|rows| - 1].count else 0)
  }

  function LevelEntry(byLevel: map<int, nat>, level: int): nat {
    if level in byLevel then byLevel[level] else 0
  }

  /** The entries are the levels that occur, each with the occurrences at that level. */
  ghost predicate LevelsOf(byLevel: map<int, nat>, rows: seq<Row>) {
    && (forall level :: level in byLevel <==> level in Levels(rows))
    && (forall level :: LevelEntry(byLevel, level) == AtLevel(rows, level))
  }

  function Levels(rows: seq<Row>): set<int> {
    set r | r in rows :: r.level
  }

  function SumOf(byLevel: map<int, nat>, levels: seq<int>): nat {
    if levels == [] then 0 else LevelEntry(byLevel, levels[0]) + SumOf(byLevel, levels[1..])
  }

  function AtLevels(rows: seq<Row>, levels: seq<int>): nat {
    if levels == [] then 0 else AtLevel(rows, levels[0]) + AtLevels(rows, levels[1..])
  }

  lemma AtLevelExtends(rows: seq<Row>, r: Row, level: int)
    ensures AtLevel(rows + [r], level) == AtLevel(rows, level) + (if r.level == level then r.count else 0)
  {
    assert (rows + [r])[..|rows|] == rows;
  }

  lemma {:induction false} AtLevelsExtends(rows: seq<Row>, r: Row, levels: seq<int>)
    requires Distinct(levels)
    ensures AtLevels(rows + [r], levels) == AtLevels(rows, levels) + (if r.level in levels then r.count else 0)
  {
    if levels != [] {
      AtLevelsExtends(rows, r, levels[1..]);
      AtLevelExtends(rows, r, levels[0]);
    }
  }

  lemma {:induction false} AtLevelsOfNone(levels: seq<int>)
    ensures AtLevels([], levels) == 0
  {
    if levels != [] {
      AtLevelsOfNone(levels[1..]);
    }
  }

  lemma {:induction false} LevelsPartition(rows: seq<Row>, levels: seq<int>)
    requires Distinct(levels) && forall r :: r in rows ==> r.level in levels
    ensures AtLevels(rows, levels) == Occurrences(rows)
  {
    if rows == [] {
      AtLevelsOfNone(levels);
    } else {
      var front, last := rows[..|rows| - 1], rows[|rows| - 1];
      assert rows == front + [last];
      LevelsPartition(front, levels);
      OccurrencesFromEnd(rows);
      AtLevelsExtends(front, last, levels);
    }
  }

  lemma {:induction false} SumIsAtLevels(byLevel: map<int, nat>, rows: seq<Row>, levels: seq<int>)
    requires LevelsOf(byLevel, rows)
    ensures SumOf(byLevel, levels) == AtLevels(rows, levels)
  {
    if levels != [] {
      SumIsAtLevels(byLevel, rows, levels[1..]);
    }
  }

  /** Added up in any order, the entries by level give the total number of occurrences. */
  lemma LevelsAddUp(byLevel: map<int, nat>, rows: seq<Row>, levels: seq<int>)
    requires LevelsOf(byLevel, rows)
    requires Distinct(levels) && forall level :: level in byLevel <==> level in levels
    ensures SumOf(byLevel, levels) == Occurrences(rows)
  {
    forall r | r in rows
      ensures r.level in levels
    {
      assert r.level in Levels(rows);
    }
    SumIsAtLevels(byLevel, rows, levels);
    LevelsPartition(rows, levels);
  }

  lemma {:induction false} OccurrencesFromEnd(rows: seq<Row>)
    requires rows != []
    ensures Occurrences(rows) == Occurrences(rows[..|rows| - 1]) + rows[|rows| - 1].count
  {
    var last := [rows[|rows| - 1]];
    OccurrencesAppend(rows[..|rows| - 1], last);
    assert rows == rows[..|rows| - 1] + last && last[1..] == [];
  }

  lemma {:induction false} DistinctHashCount(rows: seq<Row>)
    requires DistinctBy(rows, HashOf)
    ensures |Hashes(rows)| == |rows|
  {
    if rows != [] {
      var n := |rows| - 1;
      DistinctHashCount(rows[..n]);
      var front := Hashes(rows[..n]);
      assert rows == rows[..n] + [rows[n]];
      assert Hashes(rows) == front + {HashOf(rows[n])};
      forall r | r in rows[..n]
        ensures HashOf(r) != HashOf(rows[n])
      {
        var k :| 0 <= k < n && rows[k] == r;
      }
    }
  }

  class ErrorStorage {
    var rows: seq<Row>
    var nextId: nat
    const hash: Hash

    ghost predicate Valid()
      reads this
    {
      Unique(rows)
    }

    ghost function Now(): Table
      reads this
    {
      Table(rows, nextId)
    }

    constructor (hash: Hash)
      ensures Valid() && this.hash == hash && Now() == Exec([], hash)
    {
      rows, nextId, this.hash := [], 1, hash;
    }

    /** One attempt; `refused` says that the database raises an error. */
    method StoreError(instance: string, process: string, e: SimpleError, at: string, refused: bool) returns (success: bool)
      requires Valid()
      modifies this
      ensures Valid() && success == !refused
      ensures Now() == if success then Store(old(Now()), instance, process, e, at, hash) else old(Now())
    {
      if refused {
        return false;
      }
      var errorHash := hash(e.message, e.level);
      var existing := FindRow(rows, instance, errorHash);
      if existing < |rows| {
        rows := rows[existing := Touch(rows[existing], e)];
      } else {
        rows := rows + [Row(nextId, instance, process, errorHash, e.timestamp, e.level, e.message, e.rawOutput, 1, at)];
        nextId := nextId + 1;
      }
      return true;
    }

    /** The manager's wrapper: tries again after a refusal, three attempts in all, and stores once. */
    method StoreErrorRetrying(instance: string, process: string, e: SimpleError, at: string, failures: nat) returns (success: bool)
      requires Valid()
      modifies this
      ensures Valid() && success == (failures < MAX_ATTEMPTS)
      ensures Now() == Apply(old(Now()), StoreOp(instance, process, e, at, failures), hash)
    {
      var attempt := 0;
      success := StoreError(instance, process, e, at, 0 < failures);
      while !success && attempt < MAX_ATTEMPTS - 1
        invariant Valid() && attempt < MAX_ATTEMPTS && success == (attempt >= failures)
        invariant !success ==> Now() == old(Now())
        invariant success ==> attempt <= failures && Now() == Store(old(Now()), instance, process, e, at, hash)
      {
        attempt := attempt + 1;
        success := StoreError(instance, process, e, at, attempt < failures);
      }
    }

    method ClearErrors(instance: string, refused: bool) returns (cleared: Option<nat>)
      requires Valid()
      modifies this
      ensures Valid() && Now() == Apply(old(Now()), ClearOp(instance, refused), hash)
      ensures cleared == if refused then None else Some(|RowsOf(old(rows), instance)|)
    {
      if refused {
        return None;
      }
      cleared := Some(|RowsOf(rows, instance)|);
      FilterKeepsUnique(rows, Disowns(instance));
      rows := Others(rows, instance);
    }

    method GetErrors(instance: string) returns (errors: seq<Row>)
      ensures errors == SelectErrors(rows, instance)
    {
      errors := SelectErrors(rows, instance);
    }

    method GetErrorSummary(instance: string) returns (s: Summary)
      requires Valid()
      ensures s.totalErrors == Occurrences(RowsOf(rows, instance))
      ensures s.uniqueErrors == |RowsOf(rows, instance)|
      ensures s.totalErrors == s.uniqueErrors + s.repeatedErrors
      ensures LevelsOf(s.errorsByLevel, SelectErrors(rows, instance))
      ensures Bounds(SelectErrors(rows, instance), s)
    {
      var errors := GetErrors(instance);
      SelectReturnsTheRows(rows, instance);
      SelectCounts(rows, instance);
      if errors == [] {
        return Summary(0, 0, 0, map[], None, None);
      }
      s := Summarize(errors);
    }
  }

  /** The summary reports the first and the last of the selected timestamps, if there are any. */
  ghost predicate Bounds(errors: seq<Row>, s: Summary) {
    && s.latestError == (if errors == [] then None else Some(errors[0].timestamp))
    && s.oldestError == (if errors == [] then None else Some(errors[|errors| - 1].timestamp))
  }

  lemma SelectMembers(rows: seq<Row>, instance: string, r: Row)
    requires Unique(rows)
    ensures r in SelectErrors(rows, instance) <==> r in RowsOf(rows, instance)
  {
    SelectReturnsTheRows(rows, instance);
    assert r in RowsOf(rows, instance) <==> r in multiset(RowsOf(rows, instance));
    assert r in SelectErrors(rows, instance) <==> r in multiset(SelectErrors(rows, instance));
  }

  /** The first selected timestamp is the latest of the instance's rows, the last one the oldest. */
  lemma SelectSpans(rows: seq<Row>, instance: string, r: Row)
    requires Unique(rows) && r in RowsOf(rows, instance)
    ensures var errors := SelectErrors(rows, instance);
            && errors != []
            && TextLe(errors[|errors| - 1].timestamp, r.timestamp) && TextLe(r.timestamp, errors[0].timestamp)
            && errors[0] in RowsOf(rows, instance) && errors[|errors| - 1] in RowsOf(rows, instance)
  {
    var errors := SelectErrors(rows, instance);
    SelectMembers(rows, instance, r);
    SelectMembers(rows, instance, errors[0]);
    SelectMembers(rows, instance, errors[|errors| - 1]);
    SelectReturnsTheRows(rows, instance);
    var k :| 0 <= k < |errors| && errors[k] == r;
    TextLeTotal(r.timestamp, r.timestamp);
    assert k > 0 ==> Newer()(errors[0], errors[k]);
    assert k < |errors| - 1 ==> Newer()(errors[k], errors[|errors| - 1]);
  }

  lemma SelectCounts(rows: seq<Row>, instance: string)
    requires Unique(rows)
    ensures Occurrences(SelectErrors(rows, instance)) == Occurrences(RowsOf(rows, instance))
    ensures |SelectErrors(rows, instance)| == |RowsOf(rows, instance)|
  {
    InstanceHashesDiffer(rows, instance);
    GroupingIsIdentity(RowsOf(rows, instance));
    OccurrencesOfSort(RowsOf(rows, instance), Newer());
    SortPermutes(RowsOf(rows, instance), Newer());
  }

  /** The accumulating loop of the summary: the total is unique plus repeated errors, and the levels
      that occur are listed with their occurrences. */
  method Summarize(errors: seq<Row>) returns (s: Summary)
    requires DistinctBy(errors, HashOf) && errors != []
    ensures Bounds(errors, s)
    ensures s.totalErrors == Occurrences(errors)
    ensures s.uniqueErrors == |errors|
    ensures s.totalErrors == s.uniqueErrors + s.repeatedErrors
    ensures LevelsOf(s.errorsByLevel, errors)
  {
    var byLevel: map<int, nat> := map[];
    var hashes: set<string> := {};
    var total := 0;
    for i := 0 to |errors|
      invariant total == Occurrences(errors[..i])
      invariant hashes == Hashes(errors[..i])
      invariant LevelsOf(byLevel, errors[..i])
    {
      var e := errors[i];
      assert errors[..i + 1] == errors[..i] + [e];
      StepSummary(errors[..i], e, byLevel);
      byLevel := byLevel[e.level := LevelEntry(byLevel, e.level) + e.count];
      hashes := hashes + {e.hash};
      total := total + e.count;
    }
    assert errors[..|errors|] == errors;
    DistinctHashCount(errors);
    return Summary(total, |hashes|, total - |errors|, byLevel, Some(errors[0].timestamp), Some(errors[|errors| - 1].timestamp));
  }

  function Hashes(rows: seq<Row>): set<string> {
    set r | r in rows :: HashOf(r)
  }

  lemma StepSummary(rows: seq<Row>, r: Row, byLevel: map<int, nat>)
    requires LevelsOf(byLevel, rows)
    ensures Occurrences(rows + [r]) == Occurrences(rows) + r.count
    ensures Hashes(rows + [r]) == Hashes(rows) + {r.hash}
    ensures LevelsOf(byLevel[r.level := LevelEntry(byLevel, r.level) + r.count], rows + [r])
  {
    OccurrencesFromEnd(rows + [r]);
    assert (rows + [r])[..|rows|] == rows;
    SetsExtend(rows, r);
    LevelsExtend(rows, r, byLevel);
  }

  lemma LevelsExtend(rows: seq<Row>, r: Row, byLevel: map<int, nat>)
    requires LevelsOf(byLevel, rows)
    ensures LevelsOf(byLevel[r.level := LevelEntry(byLevel, r.level) + r.count], rows + [r])
  {
    SetsExtend(rows, r);
    forall level
      ensures AtLevel(rows + [r], level) == AtLevel(rows, level) + (if r.level == level then r.count else 0)
    {
      AtLevelExtends(rows, r, level);
    }
  }

  lemma SetsExtend(rows: seq<Row>, r: Row)
    ensures Hashes(rows + [r]) == Hashes(rows) + {r.hash}
    ensures Levels(rows + [r]) == Levels(rows) + {r.level}
  {
    assert r in rows + [r];
    forall x | x in rows
      ensures HashOf(x) in Hashes(rows + [r]) && x.level in Levels(rows + [r])
    {
      assert x in rows + [r];
    }
    assert HashOf(r) in Hashes(rows + [r]) && r.level in Levels(rows + [r]);
  }
}
