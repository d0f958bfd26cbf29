/** The conversation migration: drop duplicate messages, sort by the time in the conversation id, and
    above a threshold drop internal memos. Python's int() on an id segment is a parameter. */
module Migration {
  import opened Wrappers
  import opened Sorting
  import Text

  const MIN_MESSAGES_FOR_CLEANUP: nat := 25

  /** Structured content is given by its JSON text. */
  datatype Content = Plain(text: string) | Structured(json: string)
  datatype Message = Message(conversationId: Option<string>, role: Option<string>, content: Content)

  type ToInt = string -> Option<int>

  function ContentText(c: Content): string {
    if c.Plain? then c.text else c.json
  }

  function First(s: string, n: nat): string {
    if |s| <= n then s else s[..n]
  }

  predicate HasId(m: Message) {
    m.conversationId.Some? && m.conversationId.value != ""
  }

  /** Messages without an id are told apart by role and start of content; the time part is always 0. */
  function Key(m: Message): string {
    if HasId(m) then m.conversationId.value
    else (if m.role.Some? then m.role.value else "unknown") + "_" + First(ContentText(m.content), 100) + "_" + "0"
  }

  function Timestamp(m: Message, toInt: ToInt): int {
    if HasId(m) && "conv-" <= m.conversationId.value then
      var parts := Text.Split(m.conversationId.value, '-');
      if |parts| >= 2 && toInt(parts[1]).Some? then toInt(parts[1]).value else 0
    else 0
  }

  function ByTime(toInt: ToInt): (Message, Message) -> bool {
    (a: Message, b: Message) => Timestamp(a, toInt) <= Timestamp(b, toInt)
  }

  predicate Contains(s: string, part: string) {
    part <= s || (s != "" && Contains(s[1..], part))
  }

  predicate IsMemo(m: Message) {
    Contains(ContentText(m.content), "**<Internal Memo>**") || Contains(ContentText(m.content), "Project Updates:")
  }

  function NotMemo(): Message -> bool {
    (m: Message) => !IsMemo(m)
  }

  function Keys(ms: seq<Message>): set<string> {
    set m | m in ms :: Key(m)
  }

  /** The first message of each key. */
  function Dedup(ms: seq<Message>): seq<Message> {
    if ms == [] then []
    else
      var front, last := ms[..|ms| - 1], ms[|ms| - 1];
      if Key(last) in Keys(front) then Dedup(front) else Dedup(front) + [last]
  }

  function Arrange(ms: seq<Message>, toInt: ToInt): seq<Message> {
    Sort(Dedup(ms), ByTime(toInt))
  }

  function Migrate(ms: seq<Message>, toInt: ToInt): seq<Message> {
    var unique := Arrange(ms, toInt);
    if |unique| > MIN_MESSAGES_FOR_CLEANUP then Filter(unique, NotMemo()) else unique
  }

  // ---------- Deduplication ----------

  lemma {:induction false} DedupIsDistinct(ms: seq<Message>)
    ensures DistinctBy(Dedup(ms), Key)
    ensures Keys(Dedup(ms)) == Keys(ms)
  {
    if ms != [] {
      var front, last := ms[..|ms| - 1], ms[|ms| - 1];
      DedupIsDistinct(front);
      assert ms == front + [last];
      KeysAppend(front, last);
      KeysAppend(Dedup(front), last);
      if Key(last) !in Keys(front) {
        forall i | 0 <= i < |Dedup(front)|
          ensures Key(Dedup(front)[i]) != Key(last)
        {
          assert Dedup(front)[i] in Dedup(front);
        }
      }
    }
  }

  lemma KeysAppend(ms: seq<Message>, m: Message)
    ensures Keys(ms + [m]) == Keys(ms) + {Key(m)}
  {
    forall k | k in Keys(ms) + {Key(m)}
      ensures k in Keys(ms + [m])
    {
      if k == Key(m) {
        assert m in ms + [m];
      } else {
        var x :| x in ms && k == Key(x);
        assert x in ms + [m];
      }
    }
  }

  lemma {:induction false} DistinctIsFixed(ms: seq<Message>)
    requires DistinctBy(ms, Key)
    ensures Dedup(ms) == ms
  {
    if ms != [] {
      var front, last := ms[..|ms| - 1], ms[|ms| - 1];
      DistinctIsFixed(front);
      forall m | m in front
        ensures Key(m) != Key(last)
      {
        var i :| 0 <= i < |front| && front[i] == m;
        assert ms[i] == m;
      }
      assert ms == front + [last];
    }
  }

  // ---------- The migration as a whole ----------

  lemma ByTimeIsPreorder(toInt: ToInt)
    ensures TotalPreorder(ByTime(toInt))
  {
  }

  lemma ArrangedIsClean(ms: seq<Message>, toInt: ToInt)
    ensures Sorted(Arrange(ms, toInt), ByTime(toInt)) && DistinctBy(Arrange(ms, toInt), Key)
    ensures multiset(Arrange(ms, toInt)) == multiset(Dedup(ms)) && |Arrange(ms, toInt)| == |Dedup(ms)|
  {
    DedupIsDistinct(ms);
    ByTimeIsPreorder(toInt);
    SortSorts(Dedup(ms), ByTime(toInt));
    SortKeepsDistinct(Dedup(ms), ByTime(toInt), Key);
    SortPermutes(Dedup(ms), ByTime(toInt));
  }

  /** The migrated messages are sorted by time with pairwise distinct keys. */
  lemma MigratedIsClean(ms: seq<Message>, toInt: ToInt)
    ensures Sorted(Migrate(ms, toInt), ByTime(toInt)) && DistinctBy(Migrate(ms, toInt), Key)
  {
    ArrangedIsClean(ms, toInt);
    FilterKeepsOrder(Arrange(ms, toInt), NotMemo(), ByTime(toInt));
    FilterKeepsDistinct(Arrange(ms, toInt), NotMemo(), Key);
  }

  lemma {:induction false} FilterTwice<T>(s: seq<T>, p: T -> bool)
    ensures Filter(Filter(s, p), p) == Filter(s, p)
  {
    if s != [] {
      FilterTwice(s[1..], p);
      if p(s[0]) {
        assert Filter(s, p)[1..] == Filter(s[1..], p);
      }
    }
  }

  /** Migrating the migrated messages again changes nothing. */
  lemma MigrationIsIdempotent(ms: seq<Message>, toInt: ToInt)
    ensures Migrate(Migrate(ms, toInt), toInt) == Migrate(ms, toInt)
  {
    var final := Migrate(ms, toInt);
    MigratedIsClean(ms, toInt);
    DistinctIsFixed(final);
    SortedIsFixed(final, ByTime(toInt));
    assert Arrange(final, toInt) == final;
    FilterTwice(Arrange(ms, toInt), NotMemo());
  }

  /** `m` occurs in `ms` before any other message of its key. */
  ghost predicate FirstOfKey(ms: seq<Message>, m: Message) {
    exists i :: 0 <= i < |ms| && ms[i] == m && forall j :: 0 <= j < i ==> Key(ms[j]) != Key(m)
  }

  lemma FirstOfKeyExtends(front: seq<Message>, last: Message, m: Message)
    ensures FirstOfKey(front + [last], m) <==> FirstOfKey(front, m) || (m == last && Key(last) !in Keys(front))
  {
    var all := front + [last];
    if FirstOfKey(all, m) {
      var i :| 0 <= i < |all| && all[i] == m && forall j :: 0 <= j < i ==> Key(all[j]) != Key(m);
      assert forall j :: 0 <= j < i ==> Key(front[j]) == Key(all[j]);
    }
    if FirstOfKey(front, m) {
      var i :| 0 <= i < |front| && front[i] == m && forall j :: 0 <= j < i ==> Key(front[j]) != Key(m);
      assert all[i] == m;
    }
    if m == last && Key(last) !in Keys(front) {
      assert forall j :: 0 <= j < |front| ==> front[j] in front && Key(front[j]) in Keys(front);
      assert all[|front|] == m;
    }
  }

  lemma {:induction false} DedupKeepsFirsts(ms: seq<Message>, m: Message)
    ensures m in Dedup(ms) <==> FirstOfKey(ms, m)
  {
    if ms != [] {
      var front, last := ms[..|ms| - 1], ms[|ms| - 1];
      assert ms == front + [last];
      DedupKeepsFirsts(front, m);
      FirstOfKeyExtends(front, last, m);
    }
  }

  lemma {:induction false} DedupCountsKeys(ms: seq<Message>)
    ensures |Dedup(ms)| == |Keys(ms)|
  {
    if ms != [] {
      var front, last := ms[..|ms| - 1], ms[|ms| - 1];
      assert ms == front + [last];
      DedupCountsKeys(front);
      KeysAppend(front, last);
      assert Key(last) in Keys(front) ==> Keys(front) + {Key(last)} == Keys(front);
    }
  }

  /** Nothing real is lost: a message survives exactly when it is the first of its key and either at
      most 25 keys occur or it is no memo. */
  lemma SurvivorsAreExactlyTheFirsts(ms: seq<Message>, toInt: ToInt, m: Message)
    ensures m in Migrate(ms, toInt) <==> FirstOfKey(ms, m) && (|Keys(ms)| > MIN_MESSAGES_FOR_CLEANUP ==> !IsMemo(m))
  {
    ArrangedIsClean(ms, toInt);
    DedupKeepsFirsts(ms, m);
    DedupCountsKeys(ms);
    var unique := Arrange(ms, toInt);
    assert m in unique <==> m in multiset(unique);
    assert m in Dedup(ms) <==> m in multiset(Dedup(ms));
    FilterMembers(unique, NotMemo());
  }

  /** Messages with the same time, those without one among them, keep their order. */
  lemma EqualTimesKeepOrder(ms: seq<Message>, toInt: ToInt, m: Message)
    ensures Filter(Arrange(ms, toInt), Alike(ByTime(toInt), m)) == Filter(Dedup(ms), Alike(ByTime(toInt), m))
  {
    ByTimeIsPreorder(toInt);
    SortStable(Dedup(ms), ByTime(toInt), m);
  }

  // ---------- The program ----------

  datatype MigrationResult = MigrationResult(originalCount: nat, deduplicatedCount: nat, finalCount: nat,
                                             duplicatesRemoved: int, oldMessagesRemoved: nat, uniqueConversationIds: set<string>,
                                             longestMessage: Option<Message>, finalMessages: seq<Message>)

  method DropDuplicates(messages: seq<Message>) returns (unique: seq<Message>)
    ensures unique == Dedup(messages)
  {
    var seen: set<string> := {};
    unique := [];
    for i := 0 to |messages|
      invariant seen == Keys(messages[..i])
      invariant unique == Dedup(messages[..i])
    {
      var key := Key(messages[i]);
      assert messages[..i + 1] == messages[..i] + [messages[i]];
      KeysAppend(messages[..i], messages[i]);
      if key !in seen {
        seen := seen + {key};
        unique := unique + [messages[i]];
      }
    }
    assert messages[..|messages|] == messages;
  }

  method SplitMemos(messages: seq<Message>) returns (real_: seq<Message>, memos: nat)
    ensures real_ == Filter(messages, NotMemo())
    ensures memos + |real_| == |messages|
  {
    real_, memos := [], 0;
    for i := 0 to |messages|
      invariant real_ == Filter(messages[..i], NotMemo())
      invariant memos + |real_| == i
    {
      assert messages[..i + 1] == messages[..i] + [messages[i]];
      FilterAppends(messages[..i], [messages[i]], NotMemo());
      assert [messages[i]][1..] == [];
      if IsMemo(messages[i]) {
        memos := memos + 1;
      } else {
        real_ := real_ + [messages[i]];
      }
    }
    assert messages[..|messages|] == messages;
  }

  function IdOf(m: Message): string {
    if HasId(m) then m.conversationId.value else ""
  }

  /** The ids that occur among the given messages. */
  function Ids(ms: seq<Message>): set<string> {
    set m | m in ms && HasId(m) :: IdOf(m)
  }

  /** The first of the longest messages, by the length of their JSON text. */
  ghost predicate IsFirstLongest(ms: seq<Message>, size: Message -> nat, i: nat)
    requires i < |ms|
  {
    && (forall j :: 0 <= j < |ms| ==> size(ms[j]) <= size(ms[i]))
    && (forall j :: 0 <= j < i ==> size(ms[j]) < size(ms[i]))
  }

  method FindLongest(messages: seq<Message>, size: Message -> nat) returns (longest: Option<Message>)
    ensures longest.None? <==> messages == []
    ensures longest.Some? ==> exists i :: 0 <= i < |messages| && longest.value == messages[i] && IsFirstLongest(messages, size, i)
  {
    if messages == [] {
      return None;
    }
    var best := 0;
    for i := 1 to |messages|
      invariant 0 <= best < i
      invariant forall j :: 0 <= j < i ==> size(messages[j]) <= size(messages[best])
      invariant forall j :: 0 <= j < best ==> size(messages[j]) < size(messages[best])
    {
      if size(messages[i]) > size(messages[best]) {
        best := i;
      }
    }
    assert IsFirstLongest(messages, size, best);
    return Some(messages[best]);
  }

  method CollectIds(messages: seq<Message>) returns (ids: set<string>)
    ensures ids == Ids(messages)
  {
    ids := {};
    for i := 0 to |messages|
      invariant ids == Ids(messages[..i])
    {
      IdsAppend(messages[..i], messages[i]);
      assert messages[..i + 1] == messages[..i] + [messages[i]];
      if HasId(messages[i]) {
        ids := ids + {messages[i].conversationId.value};
      }
    }
    assert messages[..|messages|] == messages;
  }

  lemma IdsAppend(ms: seq<Message>, m: Message)
    ensures Ids(ms + [m]) == Ids(ms) + (if HasId(m) then {IdOf(m)} else {})
  {
    assert m in ms + [m];
    forall x | x in ms && HasId(x)
      ensures IdOf(x) in Ids(ms + [m])
    {
      assert x in ms + [m];
    }
    assert HasId(m) ==> IdOf(m) in Ids(ms + [m]);
  }

  lemma SameIds(a: seq<Message>, b: seq<Message>)
    requires multiset(a) == multiset(b)
    ensures Ids(a) == Ids(b)
  {
    forall m
      ensures m in a <==> m in b
    {
      assert m in a <==> m in multiset(a);
      assert m in b <==> m in multiset(b);
    }
  }

  /** The counts account for every message: original = final + duplicates removed + memos removed; the
      ids are those of the messages kept before the memos go; the longest is looked for among all. */
  method ApplyMigrationAlgorithm(messages: seq<Message>, toInt: ToInt, size: Message -> nat) returns (r: MigrationResult)
    ensures r.uniqueConversationIds == Ids(Dedup(messages))
    ensures r.longestMessage.None? <==> messages == []
    ensures r.longestMessage.Some? ==>
              exists i :: 0 <= i < |messages| && r.longestMessage.value == messages[i] && IsFirstLongest(messages, size, i)
    ensures r.finalMessages == Migrate(messages, toInt)
    ensures r.originalCount == |messages| && r.deduplicatedCount == |Dedup(messages)| && r.finalCount == |r.finalMessages|
    ensures r.originalCount == r.finalCount + r.duplicatesRemoved + r.oldMessagesRemoved
    ensures r.duplicatesRemoved >= 0
  {
    var unique := DropDuplicates(messages);
    SortPermutes(unique, ByTime(toInt));
    unique := Sort(unique, ByTime(toInt));
    DedupShrinks(messages);
    var final, removed := unique, 0;
    if |unique| > MIN_MESSAGES_FOR_CLEANUP {
      final, removed := SplitMemos(unique);
    }
    var longest := FindLongest(messages, size);
    var ids := CollectIds(unique);
    SameIds(unique, Dedup(messages));
    return MigrationResult(|messages|, |unique|, |final|, |messages| - |unique|, removed, ids, longest, final);
  }

  lemma {:induction false} DedupShrinks(ms: seq<Message>)
    ensures |Dedup(ms)| <= |ms|
  {
    if ms != [] {
      DedupShrinks(ms[..|ms| - 1]);
    }
  }
}
