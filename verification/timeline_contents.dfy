/** What messages put into the timeline: the statuses, files and descriptions of its phases, written out. */
module TimelineContents {
  import opened Wrappers
  import opened Timeline
  import Text

  /** A phase as it was, with the files' statuses to be looked at one by one. */
  ghost predicate SameButFiles(a: PhaseInfo, b: PhaseInfo) {
    a.id == b.id && a.name == b.name && a.description == b.description && a.status == b.status && |a.files| == |b.files|
  }

  /** After every run, a message that a file is being generated, or has been, gives the files with its path,
      and no others, the status for it; nothing else changes. */
  lemma FileMessageMarksTheFile(run: seq<Message>, m: Message, path: string)
    requires m == FileGenerating(path) || (m == FileGenerated(Some(path)) && path != "")
    ensures var s, t := Exec(run), Exec(run + [m]);
            && |t| == |s|
            && (forall i :: 0 <= i < |s| ==> SameButFiles(s[i], t[i]))
            && (forall i, j :: 0 <= i < |s| && 0 <= j < |s[i].files| ==>
                 t[i].files[j] == if s[i].files[j].path == path
                                  then PhaseFile(path, s[i].files[j].purpose, if m.FileGenerating? then FileInProgress else FileCompleted)
                                  else s[i].files[j])
  {
    assert (run + [m])[..|run|] == run;
  }

  /** Messages that name no file, and those of other kinds, change nothing. */
  lemma OtherMessagesChangeNothing(run: seq<Message>, m: Message)
    requires m == OtherMessage || m == FileGenerated(None) || m == FileGenerated(Some(""))
    ensures Exec(run + [m]) == Exec(run)
  {
    assert (run + [m])[..|run|] == run;
  }

  /** The i-th phase of a snapshot, as the timeline shows it. */
  ghost predicate ShowsPhase(p: PhaseInfo, i: nat, s: AgentState)
    requires i < |s.phases|
  {
    var q := s.phases[i];
    && p.id == "phase-" + Text.Decimal(i) && p.name == q.name && p.description == q.description
    && (q.completed ==> p.status == Completed)
    && (!q.completed && s.shouldBeGenerating ==> p.status == Generating)
    && (!q.completed && !s.shouldBeGenerating ==> p.status == Cancelled)
    && |p.files| == |q.files|
    && forall j :: 0 <= j < |q.files| ==> ShowsFile(p.files[j], q.files[j], s)
  }

  ghost predicate ShowsFile(p: PhaseFile, q: FileConcept, s: AgentState) {
    && p.path == q.path && p.purpose == q.purpose
    && (q.path in s.generatedFiles ==> p.status == FileCompleted)
    && (q.path !in s.generatedFiles && s.shouldBeGenerating ==> p.status == FilePending)
    && (q.path !in s.generatedFiles && !s.shouldBeGenerating ==> p.status == FileCancelled)
  }

  /** After a connect the timeline is the snapshot's phases, whatever it was before; an agent that does not
      work in phases has none. */
  lemma ConnectShowsTheSnapshot(run: seq<Message>, s: AgentState)
    ensures var t := Exec(run + [AgentConnected(s)]);
            && |t| == (if s.phasic then |s.phases| else 0)
            && forall i :: 0 <= i < |t| ==> ShowsPhase(t[i], i, s)
  {
    assert (run + [AgentConnected(s)])[..|run|] == run;
  }

  /** The status each of the six phase messages stands for. */
  ghost predicate Announces(step: PhaseStep, status: PhaseStatus) {
    && (step.PhaseGenerating? ==> status == Generating)
    && (step.PhaseGenerated? || step.PhaseImplementing? ==> status == Implementing)
    && (step.PhaseImplemented? || step.PhaseValidating? ==> status == Validating)
    && (step.PhaseValidated? ==> status == Completed)
  }

  /** The files a phase message brings along: completed with a validated phase, pending before. */
  ghost predicate Brings(step: PhaseStep, concepts: seq<FileConcept>, files: seq<PhaseFile>) {
    && |files| == |concepts|
    && forall j :: 0 <= j < |concepts| ==>
         files[j] == PhaseFile(concepts[j].path, concepts[j].purpose, if step.PhaseValidated? then FileCompleted else FilePending)
  }

  /** After every run with distinct names in its snapshots: the phase that a phase message names has the status
      of the message, the description and the files it brings, and keeps those it does not bring. */
  lemma PhaseMessageContents(run: seq<Message>, m: Message) returns (i: nat)
    requires DistinctSnapshots(run) && m.PhaseMessage? && NamesAPhase(Exec(run), m.name)
    ensures var s, t := Exec(run), Exec(run + [m]);
            && i < |t| && i <= |s| && t[i].name == m.name.value && Announces(m.step, t[i].status)
            && (forall j :: 0 <= j < |s| && j != i ==> t[j] == s[j])
            && t[i].description == (if m.description.Some? then m.description.value else if i < |s| then s[i].description else "")
            && (m.files.Some? && m.files.value != [] ==> Brings(m.step, m.files.value, t[i].files))
            && (m.files.None? || m.files.value == [] ==> t[i].files == (if i < |s| then s[i].files else []))
  {
    i := PhaseMessageChangesOne(run, m);
    assert (run + [m])[..|run|] == run;
    var s := Exec(run);
    var k := FindName(s, m.name);
    assert k < |s| ==> s[k].name == m.name.value && Exec(run + [m])[k].name == m.name.value;
  }
}
