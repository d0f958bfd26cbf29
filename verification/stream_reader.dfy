/** Reading a child's output: decoded chunks are cut into lines, complete lines are trimmed and pushed
    into a ring buffer, and the unfinished rest waits for the next chunk. */
module StreamReader {
  import opened Sequences
  import Text

  // ---------- The ring buffer ----------

  /** Array.prototype.slice with one argument. */
  function SliceFrom<T>(items: seq<T>, start: int): seq<T> {
    if start >= |items| then []
    else if start >= 0 then items[start..]
    else if -start >= |items| then items
    else items[|items| + start..]
  }

  class CircularBuffer<T(0)> {
    const capacity: nat
    var buffer: array<T>
    var head: nat
    var tail: nat
    var size: nat
    ghost var items: seq<T>   // the contents, oldest first

    ghost predicate Valid()
      reads this, buffer
    {
      && buffer.Length == capacity && size == |items| <= capacity
      && (capacity > 0 ==> head < capacity && tail == Slot(head, size, capacity))
      && forall i :: 0 <= i < size ==> buffer[Slot(head, i, capacity)] == items[i]
    }

    constructor (capacity: nat)
      ensures Valid() && fresh(buffer) && items == [] && this.capacity == capacity
    {
      this.capacity := capacity;
      buffer := new T[capacity];
      head, tail, size, items := 0, 0, 0, [];
    }

    /** With no capacity the index arithmetic yields NaN and the size stays zero, so that nothing is
        ever read back. */
    method Push(item: T)
      requires Valid()
      modifies this, buffer
      ensures Valid() && buffer == old(buffer)
      ensures items == Newest(old(items) + [item], capacity)
    {
      if capacity == 0 {
        return;
      }
      buffer[tail] := item;
      SlotIsModulo(tail, 1, capacity);
      tail := (tail + 1) % capacity;
      items := items + [item];
      if size < capacity {
        size := size + 1;
      } else {
        SlotIsModulo(head, 1, capacity);
        head := (head + 1) % capacity;
        items := items[1..];
      }
    }

    method ToArray() returns (result: seq<T>)
      requires Valid()
      ensures result == items
    {
      result := [];
      for i := 0 to size
        invariant result == items[..i]
      {
        SlotIsModulo(head, i, capacity);
        result := result + [buffer[(head + i) % capacity]];
      }
    }

    method Clear()
      requires Valid()
      modifies this
      ensures Valid() && fresh(buffer) && items == []
    {
      head, tail, size, items := 0, 0, 0, [];
      buffer := new T[capacity];
    }
  }

  /** The slot of the i-th item when the oldest sits at `head`. */
  function Slot(head: nat, i: nat, capacity: nat): int {
    if head + i < capacity then head + i else head + i - capacity
  }

  lemma SlotIsModulo(head: nat, i: nat, capacity: nat)
    requires head < capacity && i <= capacity
    ensures (head + i) % capacity == Slot(head, i, capacity)
  {
    if head + i >= capacity {
      ModShift(head + i - capacity, capacity);
    }
  }

  lemma ModShift(c: nat, n: nat)
    requires c < n
    ensures (c + n) % n == c
  {
    var q, r := (c + n) / n, (c + n) % n;
    assert c + n == q * n + r;
    assert q >= 2 ==> q * n >= 2 * n;
    assert q <= 0 ==> q * n <= 0;
  }

  // ---------- Lines ----------

  datatype Stream = Stdout | Stderr
  datatype LogLine = LogLine(content: string, stream: Stream)
  datatype Chunk = Chunk(stream: Stream, text: string)

  /** The trimmed non-blank lines a text has completed. */
  function Lines(text: string): seq<string> {
    Text.NonBlank(Text.Complete(text, '\n'))
  }

  function Residual(text: string): string {
    Text.Tail(text, '\n')
  }

  function Tagged(lines: seq<string>, st: Stream): seq<LogLine> {
    seq(|lines|, i requires 0 <= i < |lines| => LogLine(lines[i], st))
  }

  /** Reading on from the residual completes the same lines as reading the whole text. */
  lemma ReadingResumes(before: string, chunk: string)
    ensures Lines(before + chunk) == Lines(before) + Lines(Residual(before) + chunk)
    ensures Residual(before + chunk) == Residual(Residual(before) + chunk)
  {
    Text.SplitResumes(before, chunk, '\n');
    var done, rest := Text.Complete(before, '\n'), Text.Split(Residual(before) + chunk, '\n');
    assert (done + rest)[..|done + rest| - 1] == done + rest[..|rest| - 1];
    Text.NonBlankAppends(done, rest[..|rest| - 1]);
  }

  datatype Reader = Reader(stdout: string, stderr: string, pushed: seq<LogLine>)

  /** What reaches the reader: decoded output, the flush of a stop, the clearing of a start. */
  datatype Input = Data(chunk: Chunk) | Flush | Restart

  function Buffer(r: Reader, st: Stream): string {
    if st.Stdout? then r.stdout else r.stderr
  }

  function Process(r: Reader, c: Chunk): Reader {
    var content := Buffer(r, c.stream) + c.text;
    var r1 := r.(pushed := r.pushed + Tagged(Lines(content), c.stream));
    if c.stream.Stdout? then r1.(stdout := Residual(content)) else r1.(stderr := Residual(content))
  }

  /** What is left in the buffers counts as a last line each. */
  function FlushBuffers(r: Reader): Reader {
    Reader("", "", r.pushed + Tagged(Text.NonBlank([r.stdout]), Stdout) + Tagged(Text.NonBlank([r.stderr]), Stderr))
  }

  const EMPTY := Reader("", "", [])

  function Take(r: Reader, input: Input): Reader {
    match input
    case Data(chunk) => Process(r, chunk)
    case Flush => FlushBuffers(r)
    case Restart => EMPTY
  }

  function Read(inputs: seq<Input>): Reader {
    if inputs == [] then EMPTY else Take(Read(inputs[..|inputs| - 1]), inputs[|inputs| - 1])
  }

  /** The text one stream has delivered since the last flush or restart. */
  function OpenText(inputs: seq<Input>, st: Stream): string {
    if inputs == [] then ""
    else match inputs[|inputs| - 1]
      case Data(chunk) => OpenText(inputs[..|inputs| - 1], st) + (if chunk.stream == st then chunk.text else "")
      case _ => ""
  }

  /** The trimmed non-blank lines of a whole text, its unterminated rest included. */
  function AllLines(text: string): seq<string> {
    Text.NonBlank(Text.Split(text, '\n'))
  }

  /** The lines of the texts that flushes have closed since the last restart. */
  function ClosedLines(inputs: seq<Input>, st: Stream): seq<string> {
    if inputs == [] then []
    else match inputs[|inputs| - 1]
      case Data(_) => ClosedLines(inputs[..|inputs| - 1], st)
      case Flush => ClosedLines(inputs[..|inputs| - 1], st) + AllLines(OpenText(inputs[..|inputs| - 1], st))
      case Restart => []
  }

  function Project(lines: seq<LogLine>, st: Stream): seq<string> {
    if lines == [] then []
    else Project(lines[..|lines| - 1], st) + (if lines[|lines| - 1].stream == st then [lines[|lines| - 1].content] else [])
  }

  lemma {:induction false} ProjectAppends(a: seq<LogLine>, lines: seq<string>, from: Stream, st: Stream)
    ensures Project(a + Tagged(lines, from), st) == if from == st then Project(a, st) + lines else Project(a, st)
  {
    if lines == [] {
      assert a + Tagged(lines, from) == a;
      assert Project(a, st) + lines == Project(a, st);
    } else {
      var n := |lines| - 1;
      ProjectAppends(a, lines[..n], from, st);
      var all := a + Tagged(lines, from);
      assert all[..|all| - 1] == a + Tagged(lines[..n], from);
      assert lines == lines[..n] + [lines[n]];
      assert Project(a, st) + lines[..n] + [lines[n]] == Project(a, st) + lines;
    }
  }

  /** A flush completes the text: its last line comes behind the lines completed before. */
  lemma FlushCompletes(text: string)
    ensures AllLines(text) == Lines(text) + Text.NonBlank([Residual(text)])
  {
    assert Text.Split(text, '\n') == Text.Complete(text, '\n') + [Residual(text)];
    Text.NonBlankAppends(Text.Complete(text, '\n'), [Residual(text)]);
  }

  lemma FlushProjects(r: Reader, st: Stream)
    ensures Project(FlushBuffers(r).pushed, st) == Project(r.pushed, st) + Text.NonBlank([Buffer(r, st)])
  {
    var out, err := Text.NonBlank([r.stdout]), Text.NonBlank([r.stderr]);
    ProjectAppends(r.pushed, out, Stdout, st);
    ProjectAppends(r.pushed + Tagged(out, Stdout), err, Stderr, st);
  }

  lemma DataReads(before: seq<Input>, c: Chunk, st: Stream)
    requires Buffer(Read(before), st) == Residual(OpenText(before, st))
    requires Project(Read(before).pushed, st) == ClosedLines(before, st) + Lines(OpenText(before, st))
    ensures var r := Process(Read(before), c);
            var text := OpenText(before, st) + (if c.stream == st then c.text else "");
            && Buffer(r, st) == Residual(text)
            && Project(r.pushed, st) == ClosedLines(before, st) + Lines(text)
  {
    var r := Read(before);
    ProjectAppends(r.pushed, Lines(Buffer(r, c.stream) + c.text), c.stream, st);
    if c.stream == st {
      ReadingResumes(OpenText(before, st), c.text);
      Associate(ClosedLines(before, st), Lines(OpenText(before, st)), Lines(Buffer(r, st) + c.text));
    } else {
      assert OpenText(before, st) + "" == OpenText(before, st);
    }
  }

  /** For any interleaving of chunks of two streams, flushes and restarts: each stream's buffer is its text
      after the last newline since the last flush or restart; and the lines pushed for it since the last
      restart are the trimmed non-blank lines of each flushed text, its rest included, followed by the
      complete ones of the text since. */
  lemma {:induction false} ReadingIsChunkIndependent(inputs: seq<Input>, st: Stream)
    ensures Buffer(Read(inputs), st) == Residual(OpenText(inputs, st))
    ensures Project(Read(inputs).pushed, st) == ClosedLines(inputs, st) + Lines(OpenText(inputs, st))
  {
    NothingRead();
    if inputs != [] {
      var before := inputs[..|inputs| - 1];
      ReadingIsChunkIndependent(before, st);
      match inputs[|inputs| - 1]
      case Data(chunk) =>
        DataReads(before, chunk, st);
      case Flush =>
        var text := OpenText(before, st);
        FlushProjects(Read(before), st);
        FlushCompletes(text);
        Associate(ClosedLines(before, st), Lines(text), Text.NonBlank([Residual(text)]));
        assert ClosedLines(inputs, st) + [] == ClosedLines(inputs, st);
      case Restart =>
    }
  }

  lemma NothingRead()
    ensures Residual("") == "" && Lines("") == []
  {
    assert Text.Split("", '\n') == [""];
  }

  lemma {:induction false} OneStreamProjects(lines: seq<LogLine>, st: Stream)
    requires forall i :: 0 <= i < |lines| ==> lines[i].stream == st
    ensures Tagged(Project(lines, st), st) == lines
  {
    if lines != [] {
      var n := |lines| - 1;
      OneStreamProjects(lines[..n], st);
      assert lines == lines[..n] + [lines[n]];
    }
  }

  ghost predicate OnlyFrom(inputs: seq<Input>, st: Stream) {
    forall i :: 0 <= i < |inputs| && inputs[i].Data? ==> inputs[i].chunk.stream == st
  }

  lemma {:induction false} OneStreamPushes(inputs: seq<Input>, st: Stream)
    requires OnlyFrom(inputs, st)
    ensures var r := Read(inputs);
            && Buffer(r, if st.Stdout? then Stderr else Stdout) == ""
            && forall i :: 0 <= i < |r.pushed| ==> r.pushed[i].stream == st
  {
    if inputs != [] {
      OneStreamPushes(inputs[..|inputs| - 1], st);
      NonBlankOne("");
    }
  }

  /** With one stream the whole pushed sequence, and so the ring buffer, depends on the texts alone. */
  lemma OneStreamIsChunkIndependent(inputs: seq<Input>, st: Stream)
    requires OnlyFrom(inputs, st)
    ensures Read(inputs).pushed == Tagged(ClosedLines(inputs, st) + Lines(OpenText(inputs, st)), st)
  {
    ReadingIsChunkIndependent(inputs, st);
    OneStreamPushes(inputs, st);
    OneStreamProjects(Read(inputs).pushed, st);
  }

  // ---------- The reader object ----------

  class LineReader {
    var stdoutBuffer: string
    var stderrBuffer: string
    const logBuffer: CircularBuffer<LogLine>
    ghost var pushed: seq<LogLine>

    ghost predicate Valid()
      reads this, logBuffer, logBuffer.buffer
    {
      logBuffer.Valid() && logBuffer.items == Newest(pushed, logBuffer.capacity)
    }

    ghost function Now(): Reader
      reads this
    {
      Reader(stdoutBuffer, stderrBuffer, pushed)
    }

    constructor (capacity: nat)
      ensures Valid() && fresh(logBuffer) && fresh(logBuffer.buffer) && logBuffer.capacity == capacity
      ensures Now() == EMPTY
    {
      stdoutBuffer, stderrBuffer, pushed := "", "", [];
      logBuffer := new CircularBuffer(capacity);
    }

    method PushLine(line: string, st: Stream)
      requires Valid()
      modifies `pushed, logBuffer, logBuffer.buffer
      ensures Valid() && logBuffer.buffer == old(logBuffer.buffer)
      ensures pushed == old(pushed) + Tagged(Text.NonBlank([line]), st)
    {
      NonBlankOne(line);
      var trimmedLine := Text.Trim(line);
      if trimmedLine == "" {
        return;
      }
      var logLine := LogLine(trimmedLine, st);
      NewestAppends(pushed, logLine, logBuffer.capacity);
      logBuffer.Push(logLine);
      pushed := pushed + [logLine];
    }

    /** Trims and pushes the non-blank ones of the given lines. */
    method PushLines(lines: seq<string>, st: Stream)
      requires Valid()
      modifies `pushed, logBuffer, logBuffer.buffer
      ensures Valid() && logBuffer.buffer == old(logBuffer.buffer)
      ensures pushed == old(pushed) + Tagged(Text.NonBlank(lines), st)
    {
      for i := 0 to |lines|
        invariant Valid() && logBuffer.buffer == old(logBuffer.buffer)
        invariant pushed == old(pushed) + Tagged(Text.NonBlank(lines[..i]), st)
      {
        TaggedNext(old(pushed), lines, i, st);
        PushLine(lines[i], st);
      }
      assert lines[..|lines|] == lines;
    }

    method ProcessStreamData(decoded: string, st: Stream)
      requires Valid()
      modifies this, logBuffer, logBuffer.buffer
      ensures Valid() && logBuffer.buffer == old(logBuffer.buffer)
      ensures Now() == Process(old(Now()), Chunk(st, decoded))
    {
      var content := (if st.Stdout? then stdoutBuffer else stderrBuffer) + decoded;
      var lines := Text.Split(content, '\n');
      var rest := lines[|lines| - 1];
      if st.Stdout? {
        stdoutBuffer := rest;
      } else {
        stderrBuffer := rest;
      }
      PushLines(lines[..|lines| - 1], st);
    }

    method FlushStreamBuffers()
      requires Valid()
      modifies this, logBuffer, logBuffer.buffer
      ensures Valid() && logBuffer.buffer == old(logBuffer.buffer)
      ensures Now() == FlushBuffers(old(Now()))
    {
      PushLines([stdoutBuffer], Stdout);
      PushLines([stderrBuffer], Stderr);
      stdoutBuffer, stderrBuffer := "", "";
    }

    /** What start() clears before it spawns. */
    method ClearBuffers()
      requires Valid()
      modifies this, logBuffer
      ensures Valid() && fresh(logBuffer.buffer)
      ensures Now() == EMPTY
    {
      logBuffer.Clear();
      stdoutBuffer, stderrBuffer, pushed := "", "", [];
    }

    /** getRecentLogs: the newest `limit` lines; a limit of zero returns them all, and a negative one all
        but that many of the oldest. */
    method GetRecentLogs(limit: int) returns (lines: seq<LogLine>)
      requires Valid()
      ensures var held := Newest(pushed, logBuffer.capacity);
              lines == if limit > 0 then Newest(held, limit) else if -limit < |held| then held[-limit..] else []
    {
      var logs := logBuffer.ToArray();
      lines := SliceFrom(logs, -limit);
    }
  }

  lemma TaggedNext(before: seq<LogLine>, lines: seq<string>, i: nat, st: Stream)
    requires i < |lines|
    ensures before + Tagged(Text.NonBlank(lines[..i + 1]), st)
         == before + Tagged(Text.NonBlank(lines[..i]), st) + Tagged(Text.NonBlank([lines[i]]), st)
  {
    assert lines[..i + 1] == lines[..i] + [lines[i]];
    Text.NonBlankAppends(lines[..i], [lines[i]]);
  }

  lemma NonBlankOne(line: string)
    ensures Text.NonBlank([line]) == if Text.Trim(line) == "" then [] else [Text.Trim(line)]
  {
    assert [line][1..] == [];
  }
}
