/** The phase timeline of a build session: how server messages change it, and the stream of change
    events derived by comparing each new timeline with the one before. */
module Timeline {
  import opened Sequences
  import opened Wrappers
  import Text

  datatype PhaseStatus = Generating | Implementing | Validating | Completed | Cancelled
  /** `FileInProgress` is the status that file_generating sets, called generating. */
  datatype FileStatus = FilePending | FileInProgress | FileCompleted | FileCancelled
  datatype PhaseFile = PhaseFile(path: string, purpose: string, status: FileStatus)
  datatype PhaseInfo = PhaseInfo(id: string, name: string, description: string, status: PhaseStatus, files: seq<PhaseFile>)

  datatype FileConcept = FileConcept(path: string, purpose: string)
  datatype GeneratedPhase = GeneratedPhase(name: string, description: string, files: seq<FileConcept>, completed: bool)
  datatype AgentState = AgentState(phasic: bool, shouldBeGenerating: bool, phases: seq<GeneratedPhase>, generatedFiles: set<string>)

  datatype PhaseStep = PhaseGenerating | PhaseGenerated | PhaseImplementing | PhaseImplemented | PhaseValidating | PhaseValidated
  datatype Message =
    | AgentConnected(state: AgentState)
    | PhaseMessage(step: PhaseStep, name: Option<string>, description: Option<string>, files: Option<seq<FileConcept>>)
    | FileGenerating(path: string)
    | FileGenerated(filePath: Option<string>)
    | OtherMessage

  datatype Change = Change(added: bool, phase: PhaseInfo)

  // ---------- The timeline ----------

  function PhaseId(index: nat): string {
    "phase-" + Text.Decimal(index)
  }

  function SnapshotFile(f: FileConcept, s: AgentState): PhaseFile {
    PhaseFile(f.path, f.purpose,
              if f.path in s.generatedFiles then FileCompleted else if !s.shouldBeGenerating then FileCancelled else FilePending)
  }

  function SnapshotPhase(s: AgentState, index: nat): PhaseInfo
    requires index < |s.phases|
  {
    var p := s.phases[index];
    PhaseInfo(PhaseId(index), p.name, p.description,
              if p.completed then Completed else if !s.shouldBeGenerating then Cancelled else Generating,
              seq(|p.files|, i requires 0 <= i < |p.files| => SnapshotFile(p.files[i], s)))
  }

  function BuildTimeline(s: AgentState): seq<PhaseInfo> {
    if !s.phasic then [] else seq(|s.phases|, i requires 0 <= i < |s.phases| => SnapshotPhase(s, i))
  }

  function StatusAfter(step: PhaseStep): PhaseStatus {
    match step
    case PhaseGenerating => Generating
    case PhaseGenerated => Implementing
    case PhaseImplementing => Implementing
    case PhaseImplemented => Validating
    case PhaseValidating => Validating
    case PhaseValidated => Completed
  }

  function MarkFile(files: seq<PhaseFile>, path: string, status: FileStatus): seq<PhaseFile> {
    seq(|files|, i requires 0 <= i < |files| => if files[i].path == path then files[i].(status := status) else files[i])
  }

  function UpdateFileStatus(phases: seq<PhaseInfo>, path: string, status: FileStatus): seq<PhaseInfo> {
    seq(|phases|, i requires 0 <= i < |phases| => phases[i].(files := MarkFile(phases[i].files, path, status)))
  }

  function Named(name: Option<string>): PhaseInfo -> bool {
    (p: PhaseInfo) => name == Some(p.name)
  }

  function FindName(phases: seq<PhaseInfo>, name: Option<string>): nat {
    FirstIndex(phases, Named(name))
  }

  function FreshFile(f: FileConcept, status: PhaseStatus): PhaseFile {
    PhaseFile(f.path, f.purpose, if status.Completed? then FileCompleted else FilePending)
  }

  function FreshFiles(files: Option<seq<FileConcept>>, status: PhaseStatus): seq<PhaseFile> {
    if files.None? then [] else seq(|files.value|, i requires 0 <= i < |files.value| => FreshFile(files.value[i], status))
  }

  function UpdatedPhase(p: PhaseInfo, description: Option<string>, status: PhaseStatus, files: seq<PhaseFile>): PhaseInfo {
    p.(status := status,
       description := if description.Some? then description.value else p.description,
       files := if files != [] then files else p.files)
  }

  function UpdateOrAddPhase(phases: seq<PhaseInfo>, name: Option<string>, description: Option<string>, status: PhaseStatus,
                            concepts: Option<seq<FileConcept>>): seq<PhaseInfo> {
    var i := FindName(phases, name);
    var files := FreshFiles(concepts, status);
    if i < |phases| then phases[i := UpdatedPhase(phases[i], description, status, files)]
    else if name.Some? && name.value != "" then
      phases + [PhaseInfo(PhaseId(|phases|), name.value, if description.Some? then description.value else "", status, files)]
    else phases
  }

  function Apply(phases: seq<PhaseInfo>, m: Message): seq<PhaseInfo> {
    match m
    case AgentConnected(s) => BuildTimeline(s)
    case PhaseMessage(step, name, description, files) => UpdateOrAddPhase(phases, name, description, StatusAfter(step), files)
    case FileGenerating(path) => UpdateFileStatus(phases, path, FileInProgress)
    case FileGenerated(path) => if path.Some? && path.value != "" then UpdateFileStatus(phases, path.value, FileCompleted) else phases
    case OtherMessage => phases
  }

  function Exec(run: seq<Message>): seq<PhaseInfo> {
    if run == [] then [] else Apply(Exec(run[..|run| - 1]), run[|run| - 1])
  }

  // ---------- Change events ----------

  function WithId(id: string): PhaseInfo -> bool {
    (p: PhaseInfo) => p.id == id
  }

  function FindId(phases: seq<PhaseInfo>, id: string): nat {
    FirstIndex(phases, WithId(id))
  }

  predicate SameStatuses(a: PhaseInfo, b: PhaseInfo) {
    && a.status == b.status
    && |a.files| == |b.files|
    && forall i :: 0 <= i < |a.files| ==> a.files[i].status == b.files[i].status
  }

  function ChangeOf(prev: seq<PhaseInfo>, phase: PhaseInfo): seq<Change> {
    var i := FindId(prev, phase.id);
    if i == |prev| then [Change(true, phase)]
    else if !SameStatuses(prev[i], phase) then [Change(false, phase)]
    else []
  }

  function Changes(prev: seq<PhaseInfo>, next: seq<PhaseInfo>): seq<Change> {
    if next == [] then [] else Changes(prev, next[..|next| - 1]) + ChangeOf(prev, next[|next| - 1])
  }

  // ---------- Identity ----------

  ghost predicate Numbered(phases: seq<PhaseInfo>) {
    forall i :: 0 <= i < |phases| ==> phases[i].id == PhaseId(i)
  }

  lemma PhaseIdInjective(i: nat, j: nat)
    requires PhaseId(i) == PhaseId(j)
    ensures i == j
  {
    assert PhaseId(i)[6..] == Text.Decimal(i) && PhaseId(j)[6..] == Text.Decimal(j);
    Text.DecimalInjective(i, j);
  }

  lemma ApplyNumbers(phases: seq<PhaseInfo>, m: Message)
    requires Numbered(phases)
    ensures Numbered(Apply(phases, m))
  {
  }

  /** After every sequence of messages the i-th phase has id phase-i, so ids are pairwise distinct. */
  lemma {:induction false} PhasesAreNumbered(run: seq<Message>)
    ensures Numbered(Exec(run))
    ensures forall i, j :: 0 <= i < j < |Exec(run)| ==> Exec(run)[i].id != Exec(run)[j].id
  {
    if run != [] {
      PhasesAreNumbered(run[..|run| - 1]);
      ApplyNumbers(Exec(run[..|run| - 1]), run[|run| - 1]);
    }
    var phases := Exec(run);
    forall i, j | 0 <= i < j < |phases|
      ensures phases[i].id != phases[j].id
    {
      if PhaseId(i) == PhaseId(j) {
        PhaseIdInjective(i, j);
      }
    }
  }

  ghost predicate DistinctNames(phases: seq<PhaseInfo>) {
    forall i, j :: 0 <= i < j < |phases| ==> phases[i].name != phases[j].name
  }

  ghost predicate DistinctSnapshots(run: seq<Message>) {
    forall k :: 0 <= k < |run| && run[k].AgentConnected? ==> DistinctNames(BuildTimeline(run[k].state))
  }

  /** With distinct names in every connected snapshot, names stay distinct. */
  lemma {:induction false} NamesStayDistinct(run: seq<Message>)
    requires DistinctSnapshots(run)
    ensures DistinctNames(Exec(run))
  {
    if run != [] {
      NamesStayDistinct(run[..|run| - 1]);
      var m := run[|run| - 1];
      if m.PhaseMessage? {
        UpdateKeepsNames(Exec(run[..|run| - 1]), m.name, m.description, StatusAfter(m.step), m.files);
      }
    }
  }

  lemma UpdateKeepsNames(phases: seq<PhaseInfo>, name: Option<string>, description: Option<string>, status: PhaseStatus,
                         files: Option<seq<FileConcept>>)
    requires DistinctNames(phases)
    ensures DistinctNames(UpdateOrAddPhase(phases, name, description, status, files))
  {
    var i := FindName(phases, name);
    if i == |phases| {
      assert forall j :: 0 <= j < |phases| ==> name != Some(phases[j].name);
    }
  }

  /** A phase message says whose phase it is; an empty name only if there is a phase with that. */
  ghost predicate NamesAPhase(phases: seq<PhaseInfo>, name: Option<string>) {
    name.Some? && (name.value != "" || exists j :: 0 <= j < |phases| && phases[j].name == "")
  }

  /** Position `i` is the only one with the message's name, and the only one that changed. */
  ghost predicate ChangedOnly(before: seq<PhaseInfo>, after: seq<PhaseInfo>, i: nat, name: string, status: PhaseStatus) {
    && i < |after| && i <= |before| && |after| == (if i < |before| then |before| else i + 1)
    && after[i].id == PhaseId(i) && after[i].status == status
    && (forall j :: 0 <= j < |after| ==> (after[j].name == name <==> j == i))
    && (forall j :: 0 <= j < |before| && j != i ==> after[j] == before[j])
  }

  /** With distinct names in every connected snapshot of the run: a phase message leaves exactly one phase
      with its name, that one has the message's status and was changed in place or added last, and no
      other phase changes; a message that names no phase changes nothing. */
  lemma {:induction false} PhaseMessageChangesOne(run: seq<Message>, m: Message) returns (i: nat)
    requires DistinctSnapshots(run) && m.PhaseMessage?
    ensures NamesAPhase(Exec(run), m.name) ==> ChangedOnly(Exec(run), Exec(run + [m]), i, m.name.value, StatusAfter(m.step))
    ensures !NamesAPhase(Exec(run), m.name) ==> Exec(run + [m]) == Exec(run)
  {
    var phases := Exec(run);
    assert (run + [m])[..|run|] == run;
    PhasesAreNumbered(run);
    NamesStayDistinct(run);
    i := FindName(phases, m.name);
    if i < |phases| {
      assert phases[i].name == m.name.value;
    } else {
      assert forall j :: 0 <= j < |phases| ==> m.name != Some(phases[j].name);
    }
  }

  /** Between two connects no phase is lost, moved or renamed. */
  lemma {:induction false} PhasesKeepTheirPlace(start: seq<Message>, run: seq<Message>)
    requires forall m :: m in run ==> !m.AgentConnected?
    ensures |Exec(start)| <= |Exec(start + run)|
    ensures forall i :: 0 <= i < |Exec(start)| ==> Exec(start + run)[i].id == Exec(start)[i].id && Exec(start + run)[i].name == Exec(start)[i].name
  {
    if run == [] {
      assert start + run == start;
    } else {
      var front, m := run[..|run| - 1], run[|run| - 1];
      assert m in run && (start + run)[..|start + run| - 1] == start + front;
      PhasesKeepTheirPlace(start, front);
      ApplyKeepsPlaces(Exec(start + front), m);
    }
  }

  lemma ApplyKeepsPlaces(phases: seq<PhaseInfo>, m: Message)
    requires !m.AgentConnected?
    ensures |phases| <= |Apply(phases, m)|
    ensures forall i :: 0 <= i < |phases| ==> Apply(phases, m)[i].id == phases[i].id && Apply(phases, m)[i].name == phases[i].name
  {
  }

  // ---------- The event stream refines the timeline ----------

  /** The same events found by position instead of by searching ids. */
  function ChangeAt(prev: seq<PhaseInfo>, next: seq<PhaseInfo>, i: nat): (c: seq<Change>)
    requires i < |next|
    ensures |c| <= 1
  {
    if i >= |prev| then [Change(true, next[i])]
    else if !SameStatuses(prev[i], next[i]) then [Change(false, next[i])]
    else []
  }

  lemma FindsByPosition(prev: seq<PhaseInfo>, i: nat)
    requires Numbered(prev)
    ensures FindId(prev, PhaseId(i)) == if i < |prev| then i else |prev|
  {
    var k := FindId(prev, PhaseId(i));
    if k < |prev| {
      PhaseIdInjective(k, i);
    }
  }

  function ChangesByPosition(prev: seq<PhaseInfo>, next: seq<PhaseInfo>): (steps: seq<seq<Change>>)
    ensures |steps| == |next| && forall i :: 0 <= i < |next| ==> steps[i] == ChangeAt(prev, next, i) && |steps[i]| <= 1
  {
    seq(|next|, i requires 0 <= i < |next| => ChangeAt(prev, next, i))
  }

  function Joined(steps: seq<seq<Change>>): seq<Change> {
    if steps == [] then [] else Joined(steps[..|steps| - 1]) + steps[|steps| - 1]
  }

  lemma {:induction false} JoinedMembers(steps: seq<seq<Change>>, c: Change)
    ensures c in Joined(steps) <==> exists i :: 0 <= i < |steps| && c in steps[i]
  {
    if steps != [] {
      JoinedMembers(steps[..|steps| - 1], c);
    }
  }

  lemma {:induction false} ChangesAreJoined(prev: seq<PhaseInfo>, next: seq<PhaseInfo>, steps: seq<seq<Change>>)
    requires |steps| == |next| && forall i :: 0 <= i < |next| ==> steps[i] == ChangeOf(prev, next[i])
    ensures Changes(prev, next) == Joined(steps)
  {
    if next != [] {
      ChangesAreJoined(prev, next[..|next| - 1], steps[..|steps| - 1]);
    }
  }

  lemma {:induction false} ChangesArePositional(prev: seq<PhaseInfo>, next: seq<PhaseInfo>)
    requires Numbered(prev) && Numbered(next)
    ensures Changes(prev, next) == Joined(ChangesByPosition(prev, next))
  {
    var steps := ChangesByPosition(prev, next);
    forall i | 0 <= i < |next|
      ensures steps[i] == ChangeOf(prev, next[i])
    {
      FindsByPosition(prev, i);
    }
    ChangesAreJoined(prev, next, steps);
  }

  /** An event is emitted for exactly the phases that are new or whose status, file count or file
      statuses changed; each carries the phase's current value, and they come in timeline order. */
  lemma {:induction false} EventsAreExactlyTheChanges(prev: seq<PhaseInfo>, next: seq<PhaseInfo>, c: Change)
    requires Numbered(prev) && Numbered(next)
    ensures Changes(prev, next) == Joined(ChangesByPosition(prev, next))
    ensures c in Changes(prev, next) <==>
              exists i :: 0 <= i < |next| && c.phase == next[i] && c.added == (i >= |prev|)
                          && (i < |prev| ==> prev[i].status != next[i].status || |prev[i].files| != |next[i].files|
                                             || exists j :: 0 <= j < |next[i].files| && prev[i].files[j].status != next[i].files[j].status)
  {
    var steps := ChangesByPosition(prev, next);
    ChangesArePositional(prev, next);
    JoinedMembers(steps, c);
    forall i | 0 <= i < |next|
      ensures c in steps[i] <==> c.phase == next[i] && c.added == (i >= |prev|) && (i < |prev| ==> !SameStatuses(prev[i], next[i]))
    {
      assert steps[i] == ChangeAt(prev, next, i);
    }
  }

  /** A listener that stores the phase of every event under its id. */
  function Hear(known: map<string, PhaseInfo>, events: seq<Change>): map<string, PhaseInfo> {
    if events == [] then known else Hear(known, events[..|events| - 1])[events[|events| - 1].phase.id := events[|events| - 1].phase]
  }

  ghost predicate Agrees(known: map<string, PhaseInfo>, phases: seq<PhaseInfo>) {
    forall i :: 0 <= i < |phases| ==> phases[i].id in known && SameStatuses(known[phases[i].id], phases[i])
  }

  lemma HearOne(known: map<string, PhaseInfo>, a: seq<Change>, b: seq<Change>, heard: map<string, PhaseInfo>)
    requires |b| <= 1 && heard == Hear(known, a)
    ensures Hear(known, a + b) == Stored(heard, b)
  {
    if b == [] {
      assert a + b == a;
    } else {
      assert (a + b)[..|a|] == a;
    }
  }

  /** Up to position n the listener agrees with the new timeline, beyond it with what it knew. */
  ghost predicate HeardUpTo(after: map<string, PhaseInfo>, known: map<string, PhaseInfo>, prev: seq<PhaseInfo>, next: seq<PhaseInfo>, n: nat) {
    && (forall i :: 0 <= i < n <= |next| ==> next[i].id in after && SameStatuses(after[next[i].id], next[i]))
    && (forall i :: n <= i < |prev| ==> prev[i].id in after && prev[i].id in known && after[prev[i].id] == known[prev[i].id])
  }

  /** Phases of the two timelines carry the same id exactly when they stand at the same position. */
  ghost predicate SamePositions(prev: seq<PhaseInfo>, next: seq<PhaseInfo>) {
    && (forall i, j :: 0 <= i < |next| && 0 <= j < |next| && i != j ==> next[i].id != next[j].id)
    && (forall i, j :: 0 <= i < |prev| && 0 <= j < |next| ==> (prev[i].id == next[j].id <==> i == j))
  }

  lemma NumberedSamePositions(prev: seq<PhaseInfo>, next: seq<PhaseInfo>)
    requires Numbered(prev) && Numbered(next)
    ensures SamePositions(prev, next)
  {
    forall i: nat, j: nat | i != j
      ensures PhaseId(i) != PhaseId(j)
    {
      if PhaseId(i) == PhaseId(j) {
        PhaseIdInjective(i, j);
      }
    }
  }

  function Stored(known: map<string, PhaseInfo>, c: seq<Change>): map<string, PhaseInfo> {
    if c == [] then known else known[c[0].phase.id := c[0].phase]
  }

  /** What the listener knows after hearing of one position after the other. */
  function StoredAll(known: map<string, PhaseInfo>, steps: seq<seq<Change>>): map<string, PhaseInfo> {
    if steps == [] then known else Stored(StoredAll(known, steps[..|steps| - 1]), steps[|steps| - 1])
  }

  lemma {:induction false} HearingIsStoring(known: map<string, PhaseInfo>, steps: seq<seq<Change>>)
    requires forall i :: 0 <= i < |steps| ==> |steps[i]| <= 1
    ensures Hear(known, Joined(steps)) == StoredAll(known, steps)
  {
    if steps != [] {
      var front := steps[..|steps| - 1];
      HearingIsStoring(known, front);
      HearOne(known, Joined(front), steps[|steps| - 1], StoredAll(known, front));
    }
  }

  lemma HearAt(after: map<string, PhaseInfo>, known: map<string, PhaseInfo>, prev: seq<PhaseInfo>, next: seq<PhaseInfo>, n: nat)
    requires n < |next| && Agrees(known, prev) && HeardUpTo(after, known, prev, next, n) && SamePositions(prev, next)
    ensures HeardUpTo(Stored(after, ChangeAt(prev, next, n)), known, prev, next, n + 1)
  {
  }

  lemma {:induction false} HearingUpTo(known: map<string, PhaseInfo>, prev: seq<PhaseInfo>, next: seq<PhaseInfo>, steps: seq<seq<Change>>, n: nat)
    requires SamePositions(prev, next) && Agrees(known, prev) && n <= |next|
    requires steps == ChangesByPosition(prev, next)
    ensures HeardUpTo(StoredAll(known, steps[..n]), known, prev, next, n)
  {
    if n > 0 {
      HearingUpTo(known, prev, next, steps, n - 1);
      assert steps[..n][..n - 1] == steps[..n - 1];
      HearAt(StoredAll(known, steps[..n - 1]), known, prev, next, n - 1);
    }
  }

  lemma {:induction false} HearingKeepsUp(known: map<string, PhaseInfo>, prev: seq<PhaseInfo>, next: seq<PhaseInfo>)
    requires Numbered(prev) && Numbered(next) && Agrees(known, prev)
    ensures Agrees(Hear(known, Changes(prev, next)), next)
  {
    var steps := ChangesByPosition(prev, next);
    NumberedSamePositions(prev, next);
    HearingUpTo(known, prev, next, steps, |next|);
    HearingIsStoring(known, steps);
    ChangesArePositional(prev, next);
    assert steps[..|next|] == steps;
  }

  /** What a listener subscribed after `start` knows after the further messages of `run`. */
  function Known(seed: map<string, PhaseInfo>, start: seq<Message>, run: seq<Message>): map<string, PhaseInfo> {
    if run == [] then seed
    else
      var front := run[..|run| - 1];
      Hear(Known(seed, start, front), Changes(Exec(start + front), Exec(start + run)))
  }

  /** A listener seeded from the current timeline that stores each event's phase by id agrees with
      every phase of the current timeline on status and file statuses, over all message runs,
      including timelines that shrink and grow again. */
  lemma {:induction false} ListenerTracksTimeline(seed: map<string, PhaseInfo>, start: seq<Message>, run: seq<Message>)
    requires Agrees(seed, Exec(start))
    ensures Agrees(Known(seed, start, run), Exec(start + run))
    ensures var known, phases := Known(seed, start, run), Exec(start + run);
            && (forall i :: 0 <= i < |phases| ==>
                 && phases[i].id in known && known[phases[i].id].status == phases[i].status
                 && |known[phases[i].id].files| == |phases[i].files|)
            && (forall i, j :: 0 <= i < |phases| && 0 <= j < |phases[i].files| ==>
                 known[phases[i].id].files[j].status == phases[i].files[j].status)
  {
    if run == [] {
      assert start + run == start;
    } else {
      var front := run[..|run| - 1];
      ListenerTracksTimeline(seed, start, front);
      PhasesAreNumbered(start + front);
      PhasesAreNumbered(start + run);
      HearingKeepsUp(Known(seed, start, front), Exec(start + front), Exec(start + run));
    }
  }

  /** Messages that leave the timeline untouched would emit nothing anyway. */
  lemma UnchangedTimelineIsSilent(phases: seq<PhaseInfo>)
    requires Numbered(phases)
    ensures Changes(phases, phases) == []
  {
    if Changes(phases, phases) != [] {
      EventsAreExactlyTheChanges(phases, phases, Changes(phases, phases)[0]);
    }
  }

  // ---------- The store ----------

  class SessionStateStore {
    var phases: seq<PhaseInfo>

    ghost predicate Valid()
      reads this
    {
      Numbered(phases)
    }

    constructor ()
      ensures Valid() && phases == []
    {
      phases := [];
    }

    /** Applies a message and returns the phaseChange events it emits, in order. */
    method ApplyWsMessage(m: Message) returns (events: seq<Change>)
      requires Valid()
      modifies this
      ensures Valid() && phases == Apply(old(phases), m)
      ensures events == Changes(old(phases), phases)
    {
      var prev := phases;
      ApplyNumbers(phases, m);
      UnchangedTimelineIsSilent(phases);
      match m {
        case OtherMessage =>
          return [];
        case FileGenerated(path) =>
          if path.None? || path.value == "" {
            return [];
          }
          phases := UpdateFileStatus(phases, path.value, FileCompleted);
        case _ =>
          phases := Apply(phases, m);
      }
      events := EmitPhaseChanges(prev, phases);
    }

    method EmitPhaseChanges(prev: seq<PhaseInfo>, next: seq<PhaseInfo>) returns (events: seq<Change>)
      ensures events == Changes(prev, next)
    {
      events := [];
      for k := 0 to |next|
        invariant events == Changes(prev, next[..k])
      {
        var phase := next[k];
        var i := FindId(prev, phase.id);
        if i == |prev| {
          events := events + [Change(true, phase)];
        } else {
          var changed := HasPhaseChanged(prev[i], phase);
          if changed {
            events := events + [Change(false, phase)];
          }
        }
        assert next[..k + 1][..k] == next[..k];
      }
      assert next[..|next|] == next;
    }

    method HasPhaseChanged(prev: PhaseInfo, next: PhaseInfo) returns (changed: bool)
      ensures changed == !SameStatuses(prev, next)
    {
      if prev.status != next.status { return true; }
      if |prev.files| != |next.files| { return true; }
      for i := 0 to |prev.files|
        invariant forall j :: 0 <= j < i ==> prev.files[j].status == next.files[j].status
      {
        if prev.files[i].status != next.files[i].status { return true; }
      }
      return false;
    }

    method Clear()
      modifies this
      ensures Valid() && phases == []
    {
      phases := [];
    }
  }
}
