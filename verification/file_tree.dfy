/** The sorted file tree built from flat paths: a mutable trie of directories filled one path at a
    time, then turned into nested nodes. The collation order of names is a parameter. */
module FileTree {
  import opened Sequences
  import Text
  import Sorting

  datatype Node = FileNode(name: string, path: string) | DirNode(name: string, path: string, children: seq<Node>)
  datatype Entry = Entry(name: string, path: string)

  /** The value of a directory object; `dirs` is in insertion order, like the entries of a Map. */
  datatype Trie = Trie(name: string, path: string, dirs: seq<Trie>, files: seq<Entry>)

  /** A file together with the names of the directories above it. */
  datatype Located = Located(dirs: seq<string>, name: string, path: string)

  type NameOrder = (string, string) -> bool

  function Segments(p: string): seq<string> {
    Sorting.Filter(Text.Split(p, '/'), s => s != "")
  }

  // ---------- Filling the trie ----------

  function Named(name: string): Trie -> bool {
    (d: Trie) => d.name == name
  }

  function FindDir(dirs: seq<Trie>, name: string): nat {
    FirstIndex(dirs, Named(name))
  }

  function ChildPath(parent: string, name: string): string {
    if parent != "" then parent + "/" + name else name
  }

  function InsertPath(t: Trie, parts: seq<string>, p: string): Trie
    decreases |parts|
  {
    if parts == [] then t
    else if |parts| == 1 then t.(files := t.files + [Entry(parts[0], p)])
    else
      var i := FindDir(t.dirs, parts[0]);
      if i < |t.dirs| then t.(dirs := t.dirs[i := InsertPath(t.dirs[i], parts[1..], p)])
      else t.(dirs := t.dirs + [InsertPath(Trie(parts[0], ChildPath(t.path, parts[0]), [], []), parts[1..], p)])
  }

  function WithDir(t: Trie, name: string): (r: Trie)
    ensures FindDir(t.dirs, name) < |r.dirs|
  {
    if FindDir(t.dirs, name) < |t.dirs| then t else t.(dirs := t.dirs + [Trie(name, ChildPath(t.path, name), [], [])])
  }

  /** Inserting below the first segment is entering its directory and inserting the rest there. */
  lemma InsertEnters(t: Trie, parts: seq<string>, p: string)
    requires |parts| > 1
    ensures var u, i := WithDir(t, parts[0]), FindDir(t.dirs, parts[0]);
            InsertPath(t, parts, p) == u.(dirs := u.dirs[i := InsertPath(u.dirs[i], parts[1..], p)])
  {
    var empty := Trie(parts[0], ChildPath(t.path, parts[0]), [], []);
    assert (t.dirs + [empty])[|t.dirs| := InsertPath(empty, parts[1..], p)] == t.dirs + [InsertPath(empty, parts[1..], p)];
  }

  const ROOT := Trie("", "", [], [])

  function Fill(paths: seq<string>): Trie {
    if paths == [] then ROOT
    else InsertPath(Fill(paths[..|paths| - 1]), Segments(paths[|paths| - 1]), paths[|paths| - 1])
  }

  // ---------- Nodes ----------

  function ByName(le: NameOrder): (Node, Node) -> bool {
    (a: Node, b: Node) => le(a.name, b.name)
  }

  function FileNodes(files: seq<Entry>): seq<Node> {
    seq(|files|, i requires 0 <= i < |files| => FileNode(files[i].name, files[i].path))
  }

  function ToNodes(t: Trie, le: NameOrder): seq<Node>
    decreases t, 1
  {
    Sorting.Sort(DirNodes(t.dirs, le), ByName(le)) + Sorting.Sort(FileNodes(t.files), ByName(le))
  }

  function DirNodes(dirs: seq<Trie>, le: NameOrder): seq<Node>
    decreases dirs, 0
  {
    if dirs == [] then []
    else [DirNode(dirs[0].name, dirs[0].path, ToNodes(dirs[0], le))] + DirNodes(dirs[1..], le)
  }

  function BuildFileTree(paths: seq<string>, le: NameOrder): seq<Node> {
    ToNodes(Fill(paths), le)
  }

  // ---------- Flattening ----------

  function Flatten(nodes: seq<Node>, above: seq<string>): multiset<Located>
    decreases nodes
  {
    if nodes == [] then multiset{} else FlattenNode(nodes[0], above) + Flatten(nodes[1..], above)
  }

  function FlattenNode(n: Node, above: seq<string>): multiset<Located>
    decreases n
  {
    if n.FileNode? then multiset{Located(above, n.name, n.path)} else Flatten(n.children, above + [n.name])
  }

  /** Where each path with at least one non-empty segment belongs. */
  function Expected(paths: seq<string>): multiset<Located> {
    if paths == [] then multiset{}
    else
      var p := paths[|paths| - 1];
      Expected(paths[..|paths| - 1]) + LocationUnder([], Segments(p), p)
  }

  function TrieFiles(t: Trie, above: seq<string>): multiset<Located>
    decreases t, 1
  {
    FlattenEntries(t.files, above) + DirFiles(t.dirs, above)
  }

  function DirFiles(dirs: seq<Trie>, above: seq<string>): multiset<Located>
    decreases dirs, 0
  {
    if dirs == [] then multiset{} else TrieFiles(dirs[0], above + [dirs[0].name]) + DirFiles(dirs[1..], above)
  }

  function FlattenEntries(files: seq<Entry>, above: seq<string>): multiset<Located> {
    if files == [] then multiset{}
    else FlattenEntries(files[..|files| - 1], above) + multiset{Located(above, files[|files| - 1].name, files[|files| - 1].path)}
  }

  lemma {:induction false} DirFilesUpdate(dirs: seq<Trie>, i: nat, d: Trie, above: seq<string>, added: multiset<Located>)
    requires i < |dirs| && d.name == dirs[i].name
    requires TrieFiles(d, above + [d.name]) == TrieFiles(dirs[i], above + [d.name]) + added
    ensures DirFiles(dirs[i := d], above) == DirFiles(dirs, above) + added
  {
    var changed := dirs[i := d];
    if i == 0 {
      assert changed[1..] == dirs[1..];
    } else {
      assert changed[1..] == dirs[1..][i - 1 := d];
      DirFilesUpdate(dirs[1..], i - 1, d, above, added);
    }
  }

  lemma {:induction false} DirFilesAppend(dirs: seq<Trie>, d: Trie, above: seq<string>)
    ensures DirFiles(dirs + [d], above) == DirFiles(dirs, above) + TrieFiles(d, above + [d.name])
  {
    if dirs == [] {
      assert (dirs + [d])[1..] == [];
    } else {
      DirFilesAppend(dirs[1..], d, above);
      assert (dirs + [d])[1..] == dirs[1..] + [d];
    }
  }

  lemma {:induction false} InsertKeepsName(t: Trie, parts: seq<string>, p: string)
    ensures InsertPath(t, parts, p).name == t.name && InsertPath(t, parts, p).path == t.path
  {
  }

  lemma AppendAddsOneFile(t: Trie, name: string, p: string, above: seq<string>)
    ensures TrieFiles(t.(files := t.files + [Entry(name, p)]), above) == TrieFiles(t, above) + multiset{Located(above, name, p)}
  {
    assert (t.files + [Entry(name, p)])[..|t.files|] == t.files;
  }

  /** Inserting a path adds exactly that file, under the directories named by its leading segments. */
  lemma {:induction false} InsertAddsOneFile(t: Trie, parts: seq<string>, p: string, above: seq<string>)
    ensures TrieFiles(InsertPath(t, parts, p), above) == TrieFiles(t, above) + LocationUnder(above, parts, p)
    decreases |parts|
  {
    if |parts| == 1 {
      assert above + parts[..0] == above;
      assert InsertPath(t, parts, p) == t.(files := t.files + [Entry(parts[0], p)]);
      AppendAddsOneFile(t, parts[0], p, above);
    } else if |parts| > 1 {
      var i := FindDir(t.dirs, parts[0]);
      var u := WithDir(t, parts[0]);
      InsertEnters(t, parts, p);
      WithDirHoldsSame(t, parts[0], above);
      LocationMovesDown(above, parts, p);
      InsertAddsOneFile(u.dirs[i], parts[1..], p, above + [parts[0]]);
      InsertKeepsName(u.dirs[i], parts[1..], p);
      SwapAddsFiles(u, i, InsertPath(u.dirs[i], parts[1..], p), above, LocationUnder(above, parts, p));
    }
  }

  lemma SwapAddsFiles(u: Trie, i: nat, d: Trie, above: seq<string>, added: multiset<Located>)
    requires i < |u.dirs| && d.name == u.dirs[i].name
    requires TrieFiles(d, above + [d.name]) == TrieFiles(u.dirs[i], above + [d.name]) + added
    ensures TrieFiles(u.(dirs := u.dirs[i := d]), above) == TrieFiles(u, above) + added
  {
    DirFilesUpdate(u.dirs, i, d, above, added);
  }

  lemma WithDirHoldsSame(t: Trie, name: string, above: seq<string>)
    ensures WithDir(t, name).dirs[FindDir(t.dirs, name)].name == name
    ensures TrieFiles(WithDir(t, name), above) == TrieFiles(t, above)
  {
    if FindDir(t.dirs, name) == |t.dirs| {
      EmptyDirHoldsNothing(name, ChildPath(t.path, name), above + [name]);
      DirFilesAppend(t.dirs, Trie(name, ChildPath(t.path, name), [], []), above);
    }
  }

  lemma EmptyDirHoldsNothing(name: string, path: string, above: seq<string>)
    ensures TrieFiles(Trie(name, path, [], []), above) == multiset{}
  {
  }

  function LocationUnder(above: seq<string>, parts: seq<string>, p: string): multiset<Located> {
    if parts == [] then multiset{} else multiset{Located(above + parts[..|parts| - 1], parts[|parts| - 1], p)}
  }

  lemma LocationMovesDown(above: seq<string>, parts: seq<string>, p: string)
    requires |parts| > 1
    ensures LocationUnder(above + [parts[0]], parts[1..], p) == LocationUnder(above, parts, p)
  {
    assert above + [parts[0]] + parts[1..][..|parts| - 2] == above + parts[..|parts| - 1];
  }

  lemma {:induction false} FillHoldsExpected(paths: seq<string>)
    ensures TrieFiles(Fill(paths), []) == Expected(paths)
  {
    if paths != [] {
      var p := paths[|paths| - 1];
      FillHoldsExpected(paths[..|paths| - 1]);
      InsertAddsOneFile(Fill(paths[..|paths| - 1]), Segments(p), p, []);
    }
  }

  lemma {:induction false} FlattenAppends(a: seq<Node>, b: seq<Node>, above: seq<string>)
    ensures Flatten(a + b, above) == Flatten(a, above) + Flatten(b, above)
  {
    if a == [] {
      assert a + b == b;
    } else {
      FlattenAppends(a[1..], b, above);
      assert (a + b)[1..] == a[1..] + b && (a + b)[0] == a[0];
      MultisetsAssociate(FlattenNode(a[0], above), Flatten(a[1..], above), Flatten(b, above));
    }
  }

  lemma MultisetsAssociate(x: multiset<Located>, y: multiset<Located>, z: multiset<Located>)
    ensures x + y + z == x + (y + z)
  {
  }

  lemma {:induction false} FlattenInsert(n: Node, nodes: seq<Node>, le: (Node, Node) -> bool, above: seq<string>)
    ensures Flatten(Sorting.Insert(n, nodes, le), above) == FlattenNode(n, above) + Flatten(nodes, above)
  {
    if nodes == [] || le(n, nodes[0]) {
      assert ([n] + nodes)[1..] == nodes;
    } else {
      FlattenInsert(n, nodes[1..], le, above);
      assert Sorting.Insert(n, nodes, le)[1..] == Sorting.Insert(n, nodes[1..], le);
    }
  }

  lemma {:induction false} FlattenSort(nodes: seq<Node>, le: (Node, Node) -> bool, above: seq<string>)
    ensures Flatten(Sorting.Sort(nodes, le), above) == Flatten(nodes, above)
  {
    if nodes != [] {
      FlattenSort(nodes[1..], le, above);
      FlattenInsert(nodes[0], Sorting.Sort(nodes[1..], le), le, above);
    }
  }

  lemma {:induction false} FlattenFiles(files: seq<Entry>, above: seq<string>)
    ensures Flatten(FileNodes(files), above) == FlattenEntries(files, above)
  {
    if files != [] {
      var n := |files| - 1;
      var last := [FileNode(files[n].name, files[n].path)];
      FlattenFiles(files[..n], above);
      assert FileNodes(files) == FileNodes(files[..n]) + last;
      FlattenAppends(FileNodes(files[..n]), last, above);
      assert last[1..] == [];
    }
  }

  lemma {:induction false} NodesHoldTrieFiles(t: Trie, le: NameOrder, above: seq<string>)
    ensures Flatten(ToNodes(t, le), above) == TrieFiles(t, above)
    decreases t, 1
  {
    var dirs, files := DirNodes(t.dirs, le), FileNodes(t.files);
    FlattenAppends(Sorting.Sort(dirs, ByName(le)), Sorting.Sort(files, ByName(le)), above);
    FlattenSort(dirs, ByName(le), above);
    FlattenSort(files, ByName(le), above);
    FlattenFiles(t.files, above);
    DirNodesHoldFiles(t.dirs, le, above);
  }

  lemma {:induction false} DirNodesHoldFiles(dirs: seq<Trie>, le: NameOrder, above: seq<string>)
    ensures Flatten(DirNodes(dirs, le), above) == DirFiles(dirs, above)
    decreases dirs, 0
  {
    if dirs != [] {
      NodesHoldTrieFiles(dirs[0], le, above + [dirs[0].name]);
      DirNodesHoldFiles(dirs[1..], le, above);
      assert DirNodes(dirs, le)[1..] == DirNodes(dirs[1..], le);
    }
  }

  /** Flattening the tree gives back every input path with a non-empty segment exactly as often as it
      was given, each under directories named exactly by its leading segments. */
  lemma TreeHoldsExactlyThePaths(paths: seq<string>, le: NameOrder)
    ensures Flatten(BuildFileTree(paths, le), []) == Expected(paths)
  {
    FillHoldsExpected(paths);
    NodesHoldTrieFiles(Fill(paths), le, []);
  }

  // ---------- Shape of the tree ----------

  /** Directories first, then files, each part in name order, sibling directories with distinct
      names, every directory's path made of the names above it, and the same all the way down. */
  ghost predicate WellShaped(nodes: seq<Node>, le: NameOrder, at: string)
    decreases nodes, 1
  {
    && Arranged(nodes, le)
    && AllWellShaped(nodes, le, at)
  }

  ghost predicate AllWellShaped(nodes: seq<Node>, le: NameOrder, at: string)
    decreases nodes, 0
  {
    nodes != [] ==>
      && (nodes[0].DirNode? ==>
            nodes[0].path == (if at == "" then "" else at + "/") + nodes[0].name && WellShaped(nodes[0].children, le, nodes[0].path))
      && AllWellShaped(nodes[1..], le, at)
  }

  ghost predicate Arranged(nodes: seq<Node>, le: NameOrder) {
    forall i, j :: 0 <= i < j < |nodes| ==>
      && (nodes[j].DirNode? ==> nodes[i].DirNode? && nodes[i].name != nodes[j].name)
      && (nodes[i].DirNode? == nodes[j].DirNode? ==> le(nodes[i].name, nodes[j].name))
  }

  ghost predicate DistinctDirs(t: Trie)
    decreases t, 1
  {
    && (forall i, j :: 0 <= i < j < |t.dirs| ==> t.dirs[i].name != t.dirs[j].name)
    && AllDistinctDirs(t.dirs, t.path)
  }

  ghost predicate AllDistinctDirs(dirs: seq<Trie>, at: string)
    decreases dirs, 0
  {
    dirs != [] ==> dirs[0].path == ChildPath(at, dirs[0].name) && DistinctDirs(dirs[0]) && AllDistinctDirs(dirs[1..], at)
  }

  lemma {:induction false} DistinctUpdate(dirs: seq<Trie>, i: nat, d: Trie, at: string)
    requires AllDistinctDirs(dirs, at) && i < |dirs|
    ensures DistinctDirs(dirs[i]) && dirs[i].path == ChildPath(at, dirs[i].name)
    ensures DistinctDirs(d) && d.path == ChildPath(at, d.name) ==> AllDistinctDirs(dirs[i := d], at)
  {
    if i == 0 {
      assert dirs[i := d][1..] == dirs[1..];
    } else {
      DistinctUpdate(dirs[1..], i - 1, d, at);
      assert dirs[i := d][1..] == dirs[1..][i - 1 := d];
    }
  }

  lemma {:induction false} DistinctAppend(dirs: seq<Trie>, d: Trie, at: string)
    requires AllDistinctDirs(dirs, at) && DistinctDirs(d) && d.path == ChildPath(at, d.name)
    ensures AllDistinctDirs(dirs + [d], at)
  {
    if dirs == [] {
      assert (dirs + [d])[1..] == [];
    } else {
      DistinctAppend(dirs[1..], d, at);
      assert (dirs + [d])[1..] == dirs[1..] + [d];
    }
  }

  lemma {:induction false} InsertKeepsDistinct(t: Trie, parts: seq<string>, p: string)
    requires DistinctDirs(t)
    ensures DistinctDirs(InsertPath(t, parts, p))
    decreases |parts|
  {
    if |parts| > 1 {
      var i := FindDir(t.dirs, parts[0]);
      if i < |t.dirs| {
        var d := InsertPath(t.dirs[i], parts[1..], p);
        DistinctUpdate(t.dirs, i, d, t.path);
        InsertKeepsDistinct(t.dirs[i], parts[1..], p);
        InsertKeepsName(t.dirs[i], parts[1..], p);
      } else {
        var empty := Trie(parts[0], ChildPath(t.path, parts[0]), [], []);
        InsertKeepsDistinct(empty, parts[1..], p);
        InsertKeepsName(empty, parts[1..], p);
        DistinctAppend(t.dirs, InsertPath(empty, parts[1..], p), t.path);
      }
    }
  }

  lemma {:induction false} FillIsDistinct(paths: seq<string>)
    ensures DistinctDirs(Fill(paths)) && Fill(paths).path == ""
  {
    if paths != [] {
      var p := paths[|paths| - 1];
      FillIsDistinct(paths[..|paths| - 1]);
      InsertKeepsDistinct(Fill(paths[..|paths| - 1]), Segments(p), p);
      InsertKeepsName(Fill(paths[..|paths| - 1]), Segments(p), p);
    }
  }

  lemma {:induction false} ShapedAppends(a: seq<Node>, b: seq<Node>, le: NameOrder, at: string)
    requires AllWellShaped(a, le, at) && AllWellShaped(b, le, at)
    ensures AllWellShaped(a + b, le, at)
  {
    if a == [] {
      assert a + b == b;
    } else {
      ShapedAppends(a[1..], b, le, at);
      assert (a + b)[1..] == a[1..] + b;
    }
  }

  lemma {:induction false} ShapedInsert(n: Node, nodes: seq<Node>, le: NameOrder, at: string)
    requires AllWellShaped(nodes, le, at)
    requires n.DirNode? ==> n.path == ChildPath(at, n.name) && WellShaped(n.children, le, n.path)
    ensures AllWellShaped(Sorting.Insert(n, nodes, ByName(le)), le, at)
  {
    if nodes == [] || ByName(le)(n, nodes[0]) {
      assert ([n] + nodes)[1..] == nodes;
    } else {
      ShapedInsert(n, nodes[1..], le, at);
      assert Sorting.Insert(n, nodes, ByName(le))[1..] == Sorting.Insert(n, nodes[1..], ByName(le));
    }
  }

  lemma {:induction false} ShapedSort(nodes: seq<Node>, le: NameOrder, at: string)
    requires AllWellShaped(nodes, le, at)
    ensures AllWellShaped(Sorting.Sort(nodes, ByName(le)), le, at)
  {
    if nodes != [] {
      ShapedSort(nodes[1..], le, at);
      ShapedInsert(nodes[0], Sorting.Sort(nodes[1..], ByName(le)), le, at);
    }
  }

  lemma {:induction false} ShapedFiles(nodes: seq<Node>, le: NameOrder, at: string)
    requires forall i :: 0 <= i < |nodes| ==> nodes[i].FileNode?
    ensures AllWellShaped(nodes, le, at)
  {
    if nodes != [] {
      ShapedFiles(nodes[1..], le, at);
    }
  }

  lemma {:induction false} DirNodesByIndex(dirs: seq<Trie>, le: NameOrder)
    ensures |DirNodes(dirs, le)| == |dirs|
    ensures forall i :: 0 <= i < |dirs| ==> DirNodes(dirs, le)[i].DirNode? && DirNodes(dirs, le)[i].name == dirs[i].name
  {
    if dirs != [] {
      DirNodesByIndex(dirs[1..], le);
    }
  }

  function NodeName(n: Node): string {
    n.name
  }

  ghost predicate NamePreorder(le: NameOrder) {
    && (forall x, y :: le(x, y) || le(y, x))
    && (forall x, y, z :: le(x, y) && le(y, z) ==> le(x, z))
  }

  lemma SortKeepsKind(nodes: seq<Node>, le: (Node, Node) -> bool)
    ensures (forall i :: 0 <= i < |nodes| ==> nodes[i].DirNode?) ==> forall i :: 0 <= i < |Sorting.Sort(nodes, le)| ==> Sorting.Sort(nodes, le)[i].DirNode?
    ensures (forall i :: 0 <= i < |nodes| ==> nodes[i].FileNode?) ==> forall i :: 0 <= i < |Sorting.Sort(nodes, le)| ==> Sorting.Sort(nodes, le)[i].FileNode?
  {
    Sorting.SortPermutes(nodes, le);
    var t := Sorting.Sort(nodes, le);
    forall i | 0 <= i < |t|
      ensures t[i] in nodes
    {
      assert t[i] in multiset(t);
    }
  }

  lemma ByNameIsPreorder(le: NameOrder)
    requires NamePreorder(le)
    ensures Sorting.TotalPreorder(ByName(le))
  {
    var leq := ByName(le);
    forall x: Node, y: Node
      ensures leq(x, y) || leq(y, x)
    {
      assert le(x.name, y.name) || le(y.name, x.name);
    }
    forall x: Node, y: Node, z: Node | leq(x, y) && leq(y, z)
      ensures leq(x, z)
    {
      assert le(x.name, y.name) && le(y.name, z.name);
    }
  }

  lemma LevelIsArranged(t: Trie, le: NameOrder)
    requires NamePreorder(le) && DistinctDirs(t)
    ensures Arranged(ToNodes(t, le), le)
  {
    var dirs, files := DirNodes(t.dirs, le), FileNodes(t.files);
    DirNodesByIndex(t.dirs, le);
    Sorting.SortKeepsDistinct(dirs, ByName(le), NodeName);
    ByNameIsPreorder(le);
    Sorting.SortSorts(dirs, ByName(le));
    Sorting.SortSorts(files, ByName(le));
    SortKeepsKind(dirs, ByName(le));
    SortKeepsKind(files, ByName(le));
    JoinIsArranged(Sorting.Sort(dirs, ByName(le)), Sorting.Sort(files, ByName(le)), le);
  }

  lemma JoinIsArranged(a: seq<Node>, b: seq<Node>, le: NameOrder)
    requires forall i :: 0 <= i < |a| ==> a[i].DirNode?
    requires forall i :: 0 <= i < |b| ==> b[i].FileNode?
    requires Sorting.DistinctBy(a, NodeName) && Sorting.Sorted(a, ByName(le)) && Sorting.Sorted(b, ByName(le))
    ensures Arranged(a + b, le)
  {
    forall i, j | 0 <= i < j < |a|
      ensures le(a[i].name, a[j].name) && a[i].name != a[j].name
    {
      assert ByName(le)(a[i], a[j]);
      assert NodeName(a[i]) != NodeName(a[j]);
    }
    forall i, j | 0 <= i < j < |b|
      ensures le(b[i].name, b[j].name)
    {
      assert ByName(le)(b[i], b[j]);
    }
  }

  lemma {:induction false} NodesAreWellShaped(t: Trie, le: NameOrder)
    requires NamePreorder(le) && DistinctDirs(t)
    ensures WellShaped(ToNodes(t, le), le, t.path)
    decreases t, 1
  {
    LevelIsArranged(t, le);
    DirNodesAreWellShaped(t.dirs, le, t.path);
    ShapedSort(DirNodes(t.dirs, le), le, t.path);
    ShapedFiles(FileNodes(t.files), le, t.path);
    ShapedSort(FileNodes(t.files), le, t.path);
    ShapedAppends(Sorting.Sort(DirNodes(t.dirs, le), ByName(le)), Sorting.Sort(FileNodes(t.files), ByName(le)), le, t.path);
  }

  lemma {:induction false} DirNodesAreWellShaped(dirs: seq<Trie>, le: NameOrder, at: string)
    requires NamePreorder(le) && AllDistinctDirs(dirs, at)
    ensures AllWellShaped(DirNodes(dirs, le), le, at)
    decreases dirs, 0
  {
    if dirs != [] {
      NodesAreWellShaped(dirs[0], le);
      DirNodesAreWellShaped(dirs[1..], le, at);
      assert DirNodes(dirs, le)[1..] == DirNodes(dirs[1..], le);
    }
  }

  /** At every level of the tree directories come first, directories and files are each sorted by
      name, sibling directories have distinct names, and a directory's path spells the way to it. */
  lemma TreeIsWellShaped(paths: seq<string>, le: NameOrder)
    requires NamePreorder(le)
    ensures WellShaped(BuildFileTree(paths, le), le, "")
  {
    FillIsDistinct(paths);
    NodesAreWellShaped(Fill(paths), le);
  }

  // ---------- The mutable trie ----------

  class Dir {
    const name: string
    const path: string
    var dirs: seq<Dir>
    var files: seq<Entry>
    ghost var tree: Trie
    ghost var Repr: set<object>

    ghost predicate Valid()
      reads this, Repr
      decreases Repr
    {
      && this in Repr
      && tree.name == name && tree.path == path && tree.files == files && |tree.dirs| == |dirs|
      && (forall i :: 0 <= i < |dirs| ==>
           && dirs[i] in Repr && dirs[i].Repr < Repr && this !in dirs[i].Repr
           && dirs[i].Valid() && dirs[i].tree == tree.dirs[i])
      && (forall i, j :: 0 <= i < j < |dirs| ==> dirs[i].Repr !! dirs[j].Repr)
    }

    constructor (name: string, path: string)
      ensures Valid() && fresh(Repr) && tree == Trie(name, path, [], [])
    {
      this.name, this.path := name, path;
      dirs, files, tree, Repr := [], [], Trie(name, path, [], []), {this};
    }

    /** dirs.get(part): the position of the subdirectory with that name, or the number of entries. */
    method Find(part: string) returns (i: nat)
      requires Valid()
      ensures i == FindDir(tree.dirs, part)
    {
      i := 0;
      while i < |dirs|
        invariant i <= |dirs|
        invariant FindDir(tree.dirs, part) == i + FindDir(tree.dirs[i..], part)
      {
        assert dirs[i].Valid();
        if dirs[i].name == part {
          return i;
        }
        assert tree.dirs[i..][1..] == tree.dirs[i + 1..];
        i := i + 1;
      }
    }

    /** The subdirectory with that name, created when missing. */
    method Enter(part: string) returns (i: nat)
      requires Valid()
      modifies this
      ensures Valid() && fresh(Repr - old(Repr))
      ensures i == FindDir(old(tree).dirs, part) && i < |dirs|
      ensures tree == WithDir(old(tree), part)
    {
      i := Find(part);
      if i == |dirs| {
        var next := new Dir(part, ChildPath(path, part));
        dirs := dirs + [next];
        tree := tree.(dirs := tree.dirs + [next.tree]);
        Repr := Repr + next.Repr;
      }
    }

    /** Brings the ghost fields up to date after a change inside the i-th subdirectory. */
    ghost method Adopt(i: nat, before: Trie, was: set<object>)
      requires i < |dirs| == |tree.dirs| && this in Repr && this !in dirs[i].Repr
      requires tree.name == name && tree.path == path && tree.files == files && tree == before
      requires dirs[i].Valid()
      requires forall k :: 0 <= k < |dirs| && k != i ==>
                 dirs[k] in Repr && dirs[k].Repr < Repr && this !in dirs[k].Repr && dirs[k].Valid() && dirs[k].tree == tree.dirs[k]
      requires forall k, l :: 0 <= k < l < |dirs| ==> dirs[k].Repr !! dirs[l].Repr
      requires was == Repr
      modifies `tree, `Repr
      ensures Valid() && Repr == was + dirs[i].Repr
      ensures tree == before.(dirs := before.dirs[i := dirs[i].tree])
    {
      tree := tree.(dirs := tree.dirs[i := dirs[i].tree]);
      Repr := Repr + dirs[i].Repr;
      assert forall k :: 0 <= k < |dirs| ==> dirs[k].Valid();
    }

    /** Walks down the segments of one path, creating directories as needed. */
    method Insert(parts: seq<string>, p: string)
      requires Valid()
      modifies Repr
      ensures Valid() && fresh(Repr - old(Repr))
      ensures tree == InsertPath(old(tree), parts, p)
      decreases |parts|
    {
      if parts == [] {
        return;
      }
      if |parts| == 1 {
        files := files + [Entry(parts[0], p)];
        tree := tree.(files := files);
        return;
      }
      InsertEnters(tree, parts, p);
      var i := Enter(parts[0]);
      dirs[i].Insert(parts[1..], p);
      Adopt(i, tree, Repr);
    }

    /** toNodes: the nodes of this directory, subdirectories first. */
    method Nodes(le: NameOrder) returns (nodes: seq<Node>)
      requires Valid()
      ensures nodes == ToNodes(tree, le)
      decreases Repr
    {
      var under: seq<Node> := [];
      var i := |dirs|;
      while i > 0
        invariant 0 <= i <= |dirs|
        invariant under == DirNodes(tree.dirs[i..], le)
      {
        i := i - 1;
        var children := dirs[i].Nodes(le);
        assert tree.dirs[i..][1..] == tree.dirs[i + 1..];
        under := [DirNode(dirs[i].name, dirs[i].path, children)] + under;
      }
      assert tree.dirs[0..] == tree.dirs;
      nodes := Sorting.Sort(under, ByName(le)) + Sorting.Sort(FileNodes(files), ByName(le));
    }
  }

  method BuildTree(paths: seq<string>, le: NameOrder) returns (nodes: seq<Node>)
    ensures nodes == BuildFileTree(paths, le)
  {
    var root := new Dir("", "");
    for k := 0 to |paths|
      invariant root.Valid() && fresh(root.Repr)
      invariant root.tree == Fill(paths[..k])
    {
      assert paths[..k + 1][..k] == paths[..k];
      root.Insert(Segments(paths[k]), paths[k]);
    }
    assert paths[..|paths|] == paths;
    nodes := root.Nodes(le);
  }
}
