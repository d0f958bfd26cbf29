/** Where a path ends up in the file tree, said of the names and slashes it is written with. */
module TreePaths {
  import opened FileTree
  import opened Sequences
  import Text
  import Sorting

  /** A way to write a path: names in turn, with `gaps[k]` slashes before the k-th and the last number of
      slashes at the end. */
  datatype Spelling = Spelling(names: seq<string>, gaps: seq<nat>)

  function Slashes(n: nat): string {
    seq(n, _ => '/')
  }

  function Written(names: seq<string>, gaps: seq<nat>): string
    requires |gaps| == |names| + 1
  {
    if names == [] then Slashes(gaps[0]) else Slashes(gaps[0]) + (names[0] + Written(names[1..], gaps[1..]))
  }

  predicate IsName(name: string) {
    name != "" && '/' !in name
  }

  /** Names are not empty and hold no slash; slashes stand between any two, and may stand at either end. */
  ghost predicate Proper(s: Spelling) {
    && |s.gaps| == |s.names| + 1
    && (forall k :: 0 <= k < |s.names| ==> IsName(s.names[k]))
    && (forall k :: 1 <= k < |s.names| ==> s.gaps[k] >= 1)
  }

  function Path(s: Spelling): string
    requires Proper(s)
  {
    Written(s.names, s.gaps)
  }

  // ---------- Reading the names back ----------

  lemma {:induction false} LeadingSlashes(n: nat, s: string)
    ensures Segments(Slashes(n) + s) == Segments(s)
  {
    if n == 0 {
      assert Slashes(0) + s == s;
    } else {
      LeadingSlashes(n - 1, s);
      assert Slashes(n) + s == ['/'] + (Slashes(n - 1) + s);
      Text.SplitOfCons('/', Slashes(n - 1) + s, '/');
      var parts := Text.Split(Slashes(n - 1) + s, '/');
      assert ([""] + parts)[1..] == parts;
    }
  }

  /** A name in front of an end or a slash is the first segment. */
  lemma {:induction false} SplitAfterName(name: string, rest: string)
    requires '/' !in name && (rest == "" || rest[0] == '/')
    ensures Text.Split(rest, '/')[0] == ""
    ensures Text.Split(name + rest, '/') == [name] + Text.Split(rest, '/')[1..]
  {
    if name == "" {
      assert name + rest == rest;
    } else {
      SplitAfterName(name[1..], rest);
      assert name + rest == [name[0]] + (name[1..] + rest);
      Text.SplitOfCons(name[0], name[1..] + rest, '/');
      assert name[0] in name && name == [name[0]] + name[1..];
    }
  }

  lemma NameComesFirst(name: string, rest: string)
    requires IsName(name) && (rest == "" || rest[0] == '/')
    ensures Segments(name + rest) == [name] + Segments(rest)
  {
    SplitAfterName(name, rest);
    var parts := Text.Split(rest, '/');
    assert ([name] + parts[1..])[1..] == parts[1..];
  }

  lemma {:induction false} SegmentsAreTheNames(names: seq<string>, gaps: seq<nat>)
    requires Proper(Spelling(names, gaps))
    ensures Segments(Written(names, gaps)) == names
  {
    if names == [] {
      LeadingSlashes(gaps[0], "");
      assert Slashes(gaps[0]) + "" == Slashes(gaps[0]);
      assert Text.Split("", '/') == [""] && [""][1..] == [];
    } else {
      var rest := Written(names[1..], gaps[1..]);
      assert IsName(names[0]);
      assert Proper(Spelling(names[1..], gaps[1..])) by {
        assert forall k :: 0 <= k < |names| - 1 ==> names[1..][k] == names[k + 1] && gaps[1..][k] == gaps[k + 1];
      }
      assert rest == "" || rest[0] == '/';
      LeadingSlashes(gaps[0], names[0] + rest);
      NameComesFirst(names[0], rest);
      SegmentsAreTheNames(names[1..], gaps[1..]);
      assert [names[0]] + names[1..] == names;
    }
  }

  // ---------- The tree ----------

  ghost predicate AllProper(spellings: seq<Spelling>) {
    forall k :: 0 <= k < |spellings| ==> Proper(spellings[k])
  }

  function Paths(spellings: seq<Spelling>): seq<string>
    requires AllProper(spellings)
  {
    seq(|spellings|, k requires 0 <= k < |spellings| => Path(spellings[k]))
  }

  /** The last name of each path under directories with the other names, in turn; nothing for slashes only. */
  function Places(spellings: seq<Spelling>): multiset<Located>
    requires AllProper(spellings)
  {
    if spellings == [] then multiset{}
    else
      var s, n := spellings[|spellings| - 1], |spellings[|spellings| - 1].names|;
      Places(spellings[..|spellings| - 1]) + (if n == 0 then multiset{} else multiset{Located(s.names[..n - 1], s.names[n - 1], Path(s))})
  }

  lemma {:induction false} ExpectedArePlaces(spellings: seq<Spelling>)
    requires AllProper(spellings)
    ensures Expected(Paths(spellings)) == Places(spellings)
  {
    if spellings != [] {
      var front, s := spellings[..|spellings| - 1], spellings[|spellings| - 1];
      ExpectedArePlaces(front);
      SegmentsAreTheNames(s.names, s.gaps);
      assert Paths(spellings)[..|spellings| - 1] == Paths(front);
      assert s.names != [] ==> [] + s.names[..|s.names| - 1] == s.names[..|s.names| - 1];
    }
  }

  /** For every list of paths, each written with any number of slashes between its names and at its ends:
      the tree holds exactly the last name of each, with its path, under directories with the names
      before it. A path of slashes only leaves nothing. */
  lemma PathsGoWhereTheirNamesSay(spellings: seq<Spelling>, le: NameOrder)
    requires AllProper(spellings)
    ensures Flatten(BuildFileTree(Paths(spellings), le), []) == Places(spellings)
  {
    TreeHoldsExactlyThePaths(Paths(spellings), le);
    ExpectedArePlaces(spellings);
  }

  /** One path with at least one name is one file, one without any is none. */
  lemma OnePathIsOneFile(s: Spelling, le: NameOrder)
    requires Proper(s)
    ensures Flatten(BuildFileTree([Path(s)], le), [])
         == if s.names == [] then multiset{} else multiset{Located(s.names[..|s.names| - 1], s.names[|s.names| - 1], Path(s))}
  {
    var one := [s];
    assert Paths(one) == [Path(s)] && one[..0] == [];
    PathsGoWhereTheirNamesSay(one, le);
    assert Places([]) == multiset{};
  }

  /** Every text is a path written in such a way. */
  lemma {:induction false} EveryPathIsWritten(p: string) returns (s: Spelling)
    ensures Proper(s) && Path(s) == p
    decreases |p|
  {
    if p == "" {
      s := Spelling([], [0]);
    } else {
      var rest := EveryPathIsWritten(p[1..]);
      var g := rest.gaps[0];
      if p[0] == '/' {
        s := Spelling(rest.names, rest.gaps[0 := g + 1]);
        MoreSlashes(rest);
      } else if rest.names == [] || g >= 1 {
        s := Spelling([[p[0]]] + rest.names, [0] + rest.gaps);
        assert s.names[1..] == rest.names && s.gaps[1..] == rest.gaps;
        assert forall k :: 1 <= k < |s.names| ==> s.names[k] == rest.names[k - 1] && s.gaps[k] == rest.gaps[k - 1];
        assert IsName(s.names[0]);
      } else {
        s := Spelling([[p[0]] + rest.names[0]] + rest.names[1..], rest.gaps);
        LongerName(rest, p[0]);
      }
      assert p == [p[0]] + p[1..];
    }
  }

  lemma MoreSlashes(s: Spelling)
    requires Proper(s)
    ensures var t := Spelling(s.names, s.gaps[0 := s.gaps[0] + 1]); Proper(t) && Path(t) == ['/'] + Path(s)
  {
    var t := Spelling(s.names, s.gaps[0 := s.gaps[0] + 1]);
    assert t.gaps[1..] == s.gaps[1..];
    assert Slashes(t.gaps[0]) == ['/'] + Slashes(s.gaps[0]);
  }

  lemma LongerName(s: Spelling, c: char)
    requires Proper(s) && s.names != [] && s.gaps[0] == 0 && c != '/'
    ensures var t := Spelling([[c] + s.names[0]] + s.names[1..], s.gaps); Proper(t) && Path(t) == [c] + Path(s)
  {
    var t := Spelling([[c] + s.names[0]] + s.names[1..], s.gaps);
    assert t.names[1..] == s.names[1..];
    assert IsName(s.names[0]);
    assert forall k :: 1 <= k < |t.names| ==> t.names[k] == s.names[k];
    assert Slashes(0) == "";
    var rest := Written(s.names[1..], s.gaps[1..]);
    assert "" + ([c] + s.names[0] + rest) == [c] + ("" + (s.names[0] + rest));
  }
}
