/** In what order, and which, messages come out of the migration, said of their ids and texts. */
module Chronology {
  import opened Wrappers
  import opened Migration
  import opened Sorting
  import Text

  // ---------- Times ----------

  /** The id is "conv-", a number that reads as `t`, and nothing more or a dash and anything. */
  ghost predicate Dated(m: Message, toInt: ToInt, number: string, rest: string, t: int) {
    && '-' !in number && (rest == "" || rest[0] == '-')
    && m.conversationId == Some("conv-" + number + rest)
    && toInt(number) == Some(t)
  }

  ghost predicate IsDated(m: Message, toInt: ToInt, t: int) {
    exists number: string, rest: string :: Dated(m, toInt, number, rest, t)
  }

  /** The time a message ranks at: that in its id, or zero without one. */
  ghost predicate RanksAt(m: Message, toInt: ToInt, t: int) {
    IsDated(m, toInt, t) || (t == 0 && forall u :: !IsDated(m, toInt, u))
  }

  lemma {:induction false} SplitOfPrefix(word: string, rest: string)
    requires '-' !in word
    ensures Text.Split(word + "-" + rest, '-') == [word] + Text.Split(rest, '-')
  {
    if word == "" {
      assert word + "-" + rest == ['-'] + rest;
      Text.SplitOfCons('-', rest, '-');
    } else {
      SplitOfPrefix(word[1..], rest);
      assert word + "-" + rest == [word[0]] + (word[1..] + "-" + rest);
      Text.SplitOfCons(word[0], word[1..] + "-" + rest, '-');
      assert word[0] in word && [word[0]] + word[1..] == word;
      assert ([word[1..]] + Text.Split(rest, '-'))[1..] == Text.Split(rest, '-');
    }
  }

  /** The second segment of "conv-", a number and a rest is the number. */
  lemma SecondSegment(number: string, rest: string)
    requires '-' !in number && (rest == "" || rest[0] == '-')
    ensures var parts := Text.Split("conv-" + number + rest, '-'); |parts| >= 2 && parts[1] == number
  {
    assert "conv-" + number + rest == "conv" + "-" + (number + rest);
    SplitOfPrefix("conv", number + rest);
    if rest == "" {
      assert number + rest == number;
      Text.SeparatorFree(number, '-');
    } else {
      assert number + rest == number + "-" + rest[1..];
      SplitOfPrefix(number, rest[1..]);
    }
  }

  /** Every text that begins with "conv-" is such an id. */
  lemma {:induction false} NumberAndRest(s: string) returns (number: string, rest: string)
    ensures s == number + rest && '-' !in number && (rest == "" || rest[0] == '-')
  {
    if s == "" || s[0] == '-' {
      number, rest := "", s;
    } else {
      number, rest := NumberAndRest(s[1..]);
      number := [s[0]] + number;
      assert s == [s[0]] + s[1..];
    }
  }

  lemma DatedHasTime(m: Message, toInt: ToInt, number: string, rest: string, t: int)
    requires Dated(m, toInt, number, rest, t)
    ensures Timestamp(m, toInt) == t
  {
    SecondSegment(number, rest);
    assert "conv-" + number + rest == "conv-" + (number + rest);
  }

  lemma UndatedIsZero(m: Message, toInt: ToInt)
    requires forall u :: !IsDated(m, toInt, u)
    ensures Timestamp(m, toInt) == 0
  {
    if HasId(m) && "conv-" <= m.conversationId.value {
      var id := m.conversationId.value;
      var number, rest := NumberAndRest(id[5..]);
      assert id == "conv-" + id[5..];
      assert id == "conv-" + number + rest;
      SecondSegment(number, rest);
      if toInt(number).Some? {
        assert Dated(m, toInt, number, rest, toInt(number).value);
        assert IsDated(m, toInt, toInt(number).value);
      }
    }
  }

  lemma RankIsTime(m: Message, toInt: ToInt, t: int)
    requires RanksAt(m, toInt, t)
    ensures Timestamp(m, toInt) == t
  {
    if IsDated(m, toInt, t) {
      var number: string, rest: string :| Dated(m, toInt, number, rest, t);
      DatedHasTime(m, toInt, number, rest, t);
    } else {
      UndatedIsZero(m, toInt);
    }
  }

  /** The migrated messages stand in the order of the times in their ids; those without one rank at zero. */
  lemma MigratedIsChronological(ms: seq<Message>, toInt: ToInt, i: nat, j: nat, s: int, t: int)
    requires i < |Migrate(ms, toInt)| && j < |Migrate(ms, toInt)|
    requires RanksAt(Migrate(ms, toInt)[i], toInt, s) && RanksAt(Migrate(ms, toInt)[j], toInt, t) && s < t
    ensures i < j
  {
    var final := Migrate(ms, toInt);
    MigratedIsClean(ms, toInt);
    assert j < i ==> ByTime(toInt)(final[j], final[i]);
    RankIsTime(final[i], toInt, s);
    RankIsTime(final[j], toInt, t);
  }

  // ---------- Duplicates and memos ----------

  /** The text that tells messages without an id apart. */
  ghost predicate Begins(m: Message, start: string) {
    var text := ContentText(m.content);
    start <= text && |start| <= 100 && (|start| < 100 ==> start == text)
  }

  lemma {:induction false} SameFrame(p: string, x: string, y: string, q: string)
    requires p + x + q == p + y + q
    ensures x == y
  {
    var s := p + x + q;
    assert |x| == |y|;
    assert s[|p|..|p| + |x|] == x && (p + y + q)[|p|..|p| + |y|] == y;
  }

  /** Messages with an id are duplicates of each other exactly if their ids are equal; messages without one and
      of one role exactly if their texts agree in the first 100 characters. */
  lemma DuplicatesExactlyWhen(a: Message, b: Message, x: string, y: string)
    requires Begins(a, x) && Begins(b, y)
    ensures HasId(a) && HasId(b) ==> (Key(a) == Key(b) <==> a.conversationId == b.conversationId)
    ensures !HasId(a) && !HasId(b) && a.role == b.role ==> (Key(a) == Key(b) <==> x == y)
  {
    if !HasId(a) && !HasId(b) && a.role == b.role && Key(a) == Key(b) {
      var who := (if a.role.Some? then a.role.value else "unknown") + "_";
      assert Key(a) == who + x + "_0" && Key(b) == who + y + "_0";
      SameFrame(who, x, y, "_0");
    }
  }

  lemma {:induction false} ContainsExactly(s: string, part: string)
    ensures Contains(s, part) <==> exists pre: string, post: string :: s == pre + part + post
  {
    if Contains(s, part) {
      if part <= s {
        assert s == "" + part + s[|part|..];
      } else {
        ContainsExactly(s[1..], part);
        var pre: string, post: string :| s[1..] == pre + part + post;
        assert s == [s[0]] + s[1..];
        assert s == ([s[0]] + pre) + part + post;
      }
    }
    if exists pre: string, post: string :: s == pre + part + post {
      var pre: string, post: string :| s == pre + part + post;
      if pre == "" {
        assert part <= s;
      } else {
        ContainsExactly(s[1..], part);
        assert s[1..] == pre[1..] + part + post;
      }
    }
  }

  ghost predicate Mentions(m: Message, words: string) {
    exists pre: string, post: string :: ContentText(m.content) == pre + words + post
  }

  /** Of more than 25 messages left, none that mentions the words of an internal memo stays, and all others do;
      of 25 or fewer all stay. */
  lemma MemosGoExactlyWhen(ms: seq<Message>, toInt: ToInt, m: Message)
    ensures m in Migrate(ms, toInt) <==>
              m in Dedup(ms) && (|Dedup(ms)| <= 25 || !(Mentions(m, "**<Internal Memo>**") || Mentions(m, "Project Updates:")))
  {
    SurvivorsAreExactlyTheFirsts(ms, toInt, m);
    DedupKeepsFirsts(ms, m);
    DedupCountsKeys(ms);
    ContainsExactly(ContentText(m.content), "**<Internal Memo>**");
    ContainsExactly(ContentText(m.content), "Project Updates:");
  }
}
