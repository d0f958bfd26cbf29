/** The process log file: appends take no lock and may fall between any two steps of a reset.
    A reset renames the file to a temporary name of its own, recreates the file, and then returns and
    removes the renamed copy; a copy that cannot be read is removed and counts as empty. The monitor
    recreates with the exclusive flag, the command-line tool without it. Each file-system call is one
    atomic step; files are sequences of appended entries. */
module LogReset {
  import opened Sequences
  import opened Wrappers

  type Entry = string
  datatype Kind = Monitor | Cli

  /** A reset that has renamed the file; `logs` is the renamed content, later the returned value. */
  datatype Stage = Renamed | Recreated | Returned
  datatype Reset = Reset(kind: Kind, stage: Stage, logs: seq<Entry>)

  /** `resets` is ordered by rename; `appended` records every append ever made. */
  datatype World = World(file: Option<seq<Entry>>, resets: seq<Reset>, appended: seq<Entry>)

  datatype Label = Append(entry: Entry) | Rename(kind: Kind) | Recreate(which: nat) | Collect(which: nat) | ReadFails(which: nat)

  const FRESH := World(None, [], [])

  function Content(file: Option<seq<Entry>>): seq<Entry> {
    if file.Some? then file.value else []
  }

  /** A rename that finds no file ends the reset with the empty result and leaves no trace here. */
  function Step(w: World, l: Label): World {
    match l
    case Append(e) => w.(file := Some(Content(w.file) + [e]), appended := w.appended + [e])
    case Rename(kind) =>
      if w.file.None? then w else w.(file := None, resets := w.resets + [Reset(kind, Renamed, w.file.value)])
    case Recreate(j) =>
      if j < |w.resets| && w.resets[j].stage.Renamed? then
        World(
          if w.resets[j].kind.Monitor? && w.file.Some? then w.file else Some([]),
          w.resets[j := w.resets[j].(stage := Recreated)],
          w.appended)
      else w
    case Collect(j) =>
      if j < |w.resets| && w.resets[j].stage.Recreated? then w.(resets := w.resets[j := w.resets[j].(stage := Returned)]) else w
    case ReadFails(j) =>
      if j < |w.resets| && w.resets[j].stage.Recreated? then w.(resets := w.resets[j := w.resets[j].(stage := Returned, logs := [])]) else w
  }

  function Exec(run: seq<Label>): World {
    if run == [] then FRESH else Step(Exec(run[..|run| - 1]), run[|run| - 1])
  }

  function Collected(resets: seq<Reset>): seq<Entry> {
    if resets == [] then [] else resets[0].logs + Collected(resets[1..])
  }

  /** What the resets have taken out, in rename order, followed by what is still in the file. */
  function Accounted(w: World): seq<Entry> {
    Collected(w.resets) + Content(w.file)
  }

  /** A recreate without the exclusive flag that is about to overwrite entries. */
  predicate Overwrites(w: World, l: Label) {
    l.Recreate? && l.which < |w.resets| && w.resets[l.which] == Reset(Cli, Renamed, w.resets[l.which].logs) && Content(w.file) != []
  }

  /** A copy with entries that cannot be read. */
  predicate Unreadable(w: World, l: Label) {
    l.ReadFails? && l.which < |w.resets| && w.resets[l.which].stage.Recreated? && w.resets[l.which].logs != []
  }

  predicate Loses(w: World, l: Label) {
    Overwrites(w, l) || Unreadable(w, l)
  }

  ghost predicate NeverLoses(run: seq<Label>) {
    run != [] ==> NeverLoses(run[..|run| - 1]) && !Loses(Exec(run[..|run| - 1]), run[|run| - 1])
  }

  ghost predicate NeverUnreadable(run: seq<Label>) {
    run != [] ==> NeverUnreadable(run[..|run| - 1]) && !Unreadable(Exec(run[..|run| - 1]), run[|run| - 1])
  }

  ghost predicate MonitorOnly(run: seq<Label>) {
    forall i :: 0 <= i < |run| ==> run[i] != Rename(Cli)
  }

  lemma {:induction false} CollectedAppends(a: seq<Reset>, b: seq<Reset>)
    ensures Collected(a + b) == Collected(a) + Collected(b)
  {
    if a == [] {
      assert a + b == b;
    } else {
      CollectedAppends(a[1..], b);
      assert (a + b)[1..] == a[1..] + b && (a + b)[0] == a[0];
      Associate(a[0].logs, Collected(a[1..]), Collected(b));
    }
  }

  /** The entries of one reset stand between those of the resets before and after it. */
  lemma CollectedAt(resets: seq<Reset>, j: nat, r: Reset)
    requires j < |resets|
    ensures Collected(resets[j := r]) == Collected(resets[..j]) + (r.logs + Collected(resets[j + 1..]))
  {
    var rest := [r] + resets[j + 1..];
    assert resets[j := r] == resets[..j] + rest;
    CollectedAppends(resets[..j], rest);
    assert rest[1..] == resets[j + 1..];
  }

  lemma SameLogsCollected(resets: seq<Reset>, j: nat, r: Reset)
    requires j < |resets| && r.logs == resets[j].logs
    ensures Collected(resets[j := r]) == Collected(resets)
  {
    CollectedAt(resets, j, r);
    CollectedAt(resets, j, resets[j]);
    assert resets[j := resets[j]] == resets;
  }

  /** One step keeps the account exact, except that an overwriting recreate drops the file's entries and
      an unreadable copy its own. */
  lemma StepAccounts(w: World, l: Label)
    ensures l.Append? ==> Accounted(Step(w, l)) == Accounted(w) + [l.entry] && Step(w, l).appended == w.appended + [l.entry]
    ensures !l.Append? ==> Step(w, l).appended == w.appended
    ensures !l.Append? && !Loses(w, l) ==> Accounted(Step(w, l)) == Accounted(w)
    ensures Loses(w, l) ==> |Accounted(Step(w, l))| < |Accounted(w)|
  {
    match l
    case Append(e) =>
    case Rename(kind) =>
      if w.file.Some? {
        CollectedAppends(w.resets, [Reset(kind, Renamed, w.file.value)]);
        assert Collected([Reset(kind, Renamed, w.file.value)]) == w.file.value;
      }
    case Recreate(j) =>
      if j < |w.resets| && w.resets[j].stage.Renamed? {
        SameLogsCollected(w.resets, j, w.resets[j].(stage := Recreated));
      }
    case Collect(j) =>
      if j < |w.resets| && w.resets[j].stage.Recreated? {
        SameLogsCollected(w.resets, j, w.resets[j].(stage := Returned));
      }
    case ReadFails(j) =>
      if j < |w.resets| && w.resets[j].stage.Recreated? {
        CollectedAt(w.resets, j, w.resets[j].(stage := Returned, logs := []));
        CollectedAt(w.resets, j, w.resets[j]);
        assert w.resets[j := w.resets[j]] == w.resets;
      }
  }

  lemma {:induction false} NothingIsInvented(run: seq<Label>)
    ensures |Accounted(Exec(run))| <= |Exec(run).appended|
    ensures !NeverLoses(run) ==> |Accounted(Exec(run))| < |Exec(run).appended|
  {
    if run != [] {
      NothingIsInvented(run[..|run| - 1]);
      StepAccounts(Exec(run[..|run| - 1]), run[|run| - 1]);
    }
  }

  lemma {:induction false} NothingIsLost(run: seq<Label>)
    requires NeverLoses(run)
    ensures Accounted(Exec(run)) == Exec(run).appended
  {
    if run != [] {
      NothingIsLost(run[..|run| - 1]);
      StepAccounts(Exec(run[..|run| - 1]), run[|run| - 1]);
    }
  }

  /** With any mix of resets of either kind, the collected logs in rename order followed by the file are
      exactly the appended entries in order, if and only if no command-line recreate meets entries
      appended since its rename and no renamed copy with entries fails to be read. */
  lemma LogIsConservedExactlyWhen(run: seq<Label>)
    ensures Accounted(Exec(run)) == Exec(run).appended <==> NeverLoses(run)
  {
    if NeverLoses(run) {
      NothingIsLost(run);
    } else {
      NothingIsInvented(run);
    }
  }

  lemma {:induction false} MonitorResets(run: seq<Label>)
    requires MonitorOnly(run)
    ensures forall j :: 0 <= j < |Exec(run).resets| ==> Exec(run).resets[j].kind == Monitor
    ensures NeverUnreadable(run) <==> NeverLoses(run)
  {
    if run != [] {
      MonitorResets(run[..|run| - 1]);
      var w, l := Exec(run[..|run| - 1]), run[|run| - 1];
      assert l != Rename(Cli);
    }
  }

  /** getAllLogsAndReset conserves the log in every interleaving with appends and other resets, if and
      only if every renamed copy with entries can be read. */
  lemma MonitorResetConservesLog(run: seq<Label>)
    requires MonitorOnly(run)
    ensures Accounted(Exec(run)) == Exec(run).appended <==> NeverUnreadable(run)
  {
    MonitorResets(run);
    LogIsConservedExactlyWhen(run);
  }

  /** The command-line tool's reset loses an entry appended between its rename and its recreate. */
  lemma CliResetCanLose(a: Entry, b: Entry)
    ensures var w := Exec([Append(a), Rename(Cli), Append(b), Recreate(0), Collect(0)]);
            w.appended == [a, b] && Accounted(w) == [a] && w.resets == [Reset(Cli, Returned, [a])]
  {
    var r1, r2 := [Append(a)], [Append(a), Rename(Cli)];
    var r3 := r2 + [Append(b)];
    var r4 := r3 + [Recreate(0)];
    var r5 := r4 + [Collect(0)];
    assert r5 == [Append(a), Rename(Cli), Append(b), Recreate(0), Collect(0)];
    assert r2[..1] == r1 && r3[..2] == r2 && r4[..3] == r3 && r5[..4] == r4;
    assert r1[..0] == [] && Exec([]) == FRESH;
    var empty: seq<Entry> := [];
    assert empty + [a] == [a] && empty + [b] == [b] && [a] + [b] == [a, b] && [a] + empty == [a];
    assert Exec(r1) == World(Some([a]), [], [a]);
    assert Exec(r2) == World(None, [Reset(Cli, Renamed, [a])], [a]);
    assert Exec(r3) == World(Some([b]), [Reset(Cli, Renamed, [a])], [a, b]);
    assert Exec(r4) == World(Some([]), [Reset(Cli, Recreated, [a])], [a, b]);
    var kept := Reset(Cli, Returned, [a]);
    assert Collected([kept]) == [a] by {
      assert [kept][1..] == [];
    }
    assert Exec(r5) == World(Some([]), [kept], [a, b]);
  }

  lemma ExecNext(run: seq<Label>, l: Label)
    ensures Exec(run + [l]) == Step(Exec(run), l)
  {
    assert (run + [l])[..|run|] == run;
  }

  /** A reset that nothing delays returns all that was in the file when it began. What is appended before the
      file is recreated stays for the next reset when the monitor resets, and is lost when the tool does. */
  lemma ResetReturnsTheLog(run: seq<Label>, kind: Kind, e: Entry)
    requires Exec(run).file.Some?
    ensures var w, n := Exec(run), |Exec(run).resets|;
            var t := Exec(run + [Rename(kind)] + [Append(e)] + [Recreate(n)] + [Collect(n)]);
            && |t.resets| == n + 1 && (forall i :: 0 <= i < n ==> t.resets[i] == w.resets[i])
            && t.resets[n] == Reset(kind, Returned, w.file.value)
            && t.file == Some(if kind.Monitor? then [e] else [])
  {
    var n := |Exec(run).resets|;
    ExecNext(run, Rename(kind));
    ExecNext(run + [Rename(kind)], Append(e));
    ExecNext(run + [Rename(kind)] + [Append(e)], Recreate(n));
    ExecNext(run + [Rename(kind)] + [Append(e)] + [Recreate(n)], Collect(n));
    assert [] + [e] == [e];
  }

  /** Without a file there is nothing to reset; and a copy that cannot be read counts as empty. */
  lemma EmptyResets(w: World, kind: Kind, j: nat)
    ensures w.file.None? ==> Step(w, Rename(kind)) == w
    ensures j < |w.resets| && w.resets[j].stage.Recreated? ==>
              Step(w, ReadFails(j)).resets == w.resets[j := Reset(w.resets[j].kind, Returned, [])] && Step(w, ReadFails(j)).file == w.file
  {
  }
}
