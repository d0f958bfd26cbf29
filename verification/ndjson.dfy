/** The streaming NDJSON parser: lines are cut from a growing buffer and parsed one by one; a line that
    does not parse ends the generator with an error. Parsing one document is a parameter. */
module Ndjson {
  import opened Sequences
  import opened Wrappers
  import Text

  /** The documents yielded, and whether the generator ended without an error. */
  datatype Outcome<J> = Outcome(yielded: seq<J>, complete: bool)

  /** Parses the given lines in order up to the first that fails. */
  function ParseAll<J>(lines: seq<string>, parse: string -> Option<J>): Outcome<J> {
    if lines == [] then Outcome([], true)
    else match parse(lines[0])
      case None => Outcome([], false)
      case Some(j) =>
        var rest := ParseAll(lines[1..], parse);
        Outcome([j] + rest.yielded, rest.complete)
  }

  lemma {:induction false} ParseAllAppends<J>(a: seq<string>, b: seq<string>, parse: string -> Option<J>)
    ensures ParseAll(a + b, parse)
         == if !ParseAll(a, parse).complete then ParseAll(a, parse)
            else Outcome(ParseAll(a, parse).yielded + ParseAll(b, parse).yielded, ParseAll(b, parse).complete)
  {
    if a == [] {
      assert a + b == b;
      assert [] + ParseAll(b, parse).yielded == ParseAll(b, parse).yielded;
    } else {
      ParseAllAppends(a[1..], b, parse);
      assert (a + b)[1..] == a[1..] + b && (a + b)[0] == a[0];
      if parse(a[0]).Some? {
        var j, x, y := parse(a[0]).value, ParseAll(a[1..], parse).yielded, ParseAll(b, parse).yielded;
        assert [j] + (x + y) == [j] + x + y;
      }
    }
  }

  /** What the whole text means: every trimmed non-blank segment, the unterminated tail included. */
  function Meaning<J>(text: string, parse: string -> Option<J>): Outcome<J> {
    ParseAll(Text.NonBlank(Text.Split(text, '\n')), parse)
  }

  /** indexOf of the newline, or the length when there is none. */
  function NewlineIndex(s: string): (i: nat)
    ensures i <= |s|
    ensures i < |s| ==> s[i] == '\n'
    ensures '\n' !in s[..i]
  {
    if s == [] || s[0] == '\n' then 0
    else
      var i := 1 + NewlineIndex(s[1..]);
      assert s[..i] == [s[0]] + s[1..][..i - 1];
      i
  }

  /** Cutting the first line off a text. */
  lemma {:induction false} SplitAfterLine(line: string, rest: string)
    requires '\n' !in line
    ensures Text.Split(line + (['\n'] + rest), '\n') == [line] + Text.Split(rest, '\n')
  {
    if line == [] {
      assert line + (['\n'] + rest) == ['\n'] + rest;
      Text.SplitOfCons('\n', rest, '\n');
    } else {
      assert '\n' !in line[1..];
      SplitAfterLine(line[1..], rest);
      assert line + (['\n'] + rest) == [line[0]] + (line[1..] + (['\n'] + rest));
      Text.SplitOfCons(line[0], line[1..] + (['\n'] + rest), '\n');
      assert line[0] in line;
      assert [line[0]] + line[1..] == line;
      var parts := [line[1..]] + Text.Split(rest, '\n');
      assert parts[1..] == Text.Split(rest, '\n');
    }
  }

  /** Whatever comes later, the text read so far contributes the lines already taken and the buffer. */
  ghost predicate Reduced(read: string, done: seq<string>, buffer: string) {
    forall later: string :: ReducedFor(read, done, buffer, later)
  }

  ghost predicate ReducedFor(read: string, done: seq<string>, buffer: string, later: string) {
    Text.NonBlank(Text.Split(read + later, '\n')) == done + Text.NonBlank(Text.Split(buffer + later, '\n'))
  }

  lemma ReadChunk(read: string, done: seq<string>, buffer: string, chunk: string)
    requires Reduced(read, done, buffer)
    ensures Reduced(read + chunk, done, buffer + chunk)
  {
    forall later: string
      ensures ReducedFor(read + chunk, done, buffer + chunk, later)
    {
      assert ReducedFor(read, done, buffer, chunk + later);
      Associate(read, chunk, later);
      Associate(buffer, chunk, later);
    }
  }

  lemma TakeLine(read: string, done: seq<string>, buffer: string, i: nat)
    requires Reduced(read, done, buffer)
    requires i < |buffer| && buffer[i] == '\n' && '\n' !in buffer[..i]
    ensures Reduced(read, done + OneLine(Text.Trim(buffer[..i])), buffer[i + 1..])
  {
    var line, rest := buffer[..i], buffer[i + 1..];
    var after := done + OneLine(Text.Trim(line));
    assert buffer == line + (['\n'] + rest);
    forall later: string
      ensures ReducedFor(read, after, rest, later)
    {
      assert ReducedFor(read, done, buffer, later);
      TakeLineBefore(read, done, line, rest, later);
    }
  }

  lemma TakeLineBefore(read: string, done: seq<string>, line: string, rest: string, later: string)
    requires '\n' !in line && ReducedFor(read, done, line + (['\n'] + rest), later)
    ensures ReducedFor(read, done + OneLine(Text.Trim(line)), rest, later)
  {
    Associate(line, ['\n'] + rest, later);
    Associate(['\n'], rest, later);
    SegmentsTake(line, rest + later);
    Associate(done, OneLine(Text.Trim(line)), Text.NonBlank(Text.Split(rest + later, '\n')));
  }

  lemma SegmentsTake(line: string, rest: string)
    requires '\n' !in line
    ensures Text.NonBlank(Text.Split(line + (['\n'] + rest), '\n')) == OneLine(Text.Trim(line)) + Text.NonBlank(Text.Split(rest, '\n'))
  {
    SplitAfterLine(line, rest);
    NonBlankFirst(line, Text.Split(rest, '\n'));
  }

  lemma NonBlankFirst(line: string, rest: seq<string>)
    ensures Text.NonBlank([line] + rest) == OneLine(Text.Trim(line)) + Text.NonBlank(rest)
  {
    assert ([line] + rest)[1..] == rest;
  }

  function OneLine(line: string): seq<string> {
    if line == "" then [] else [line]
  }

  lemma Finish<J>(text: string, done: seq<string>, buffer: string, parse: string -> Option<J>)
    requires Reduced(text, done, buffer) && '\n' !in buffer && ParseAll(done, parse).complete
    ensures var last := ParseAll(OneLine(Text.Trim(buffer)), parse);
            Meaning(text, parse) == Outcome(ParseAll(done, parse).yielded + last.yielded, last.complete)
  {
    assert ReducedFor(text, done, buffer, "");
    assert text + "" == text && buffer + "" == buffer;
    Text.SeparatorFree(buffer, '\n');
    assert [buffer][1..] == [];
    assert Text.NonBlank([buffer]) == OneLine(Text.Trim(buffer));
    ParseAllAppends(done, OneLine(Text.Trim(buffer)), parse);
  }

  /** A line that fails to parse decides the outcome, whatever is still to be read. */
  lemma FailsForGood<J>(read: string, done: seq<string>, buffer: string, later: string, parse: string -> Option<J>)
    requires Reduced(read, done, buffer) && !ParseAll(done, parse).complete
    ensures Meaning(read + later, parse) == ParseAll(done, parse)
  {
    assert ReducedFor(read, done, buffer, later);
    ParseAllAppends(done, Text.NonBlank(Text.Split(buffer + later, '\n')), parse);
  }

  lemma TakenIsParsed<J>(done: seq<string>, line: string, parse: string -> Option<J>)
    requires ParseAll(done, parse).complete
    ensures line == "" ==> done + OneLine(line) == done
    ensures line != "" && parse(line).Some? ==>
              ParseAll(done + OneLine(line), parse) == Outcome(ParseAll(done, parse).yielded + [parse(line).value], true)
    ensures line != "" && parse(line).None? ==> ParseAll(done + OneLine(line), parse) == Outcome(ParseAll(done, parse).yielded, false)
  {
    ParseAllAppends(done, OneLine(line), parse);
    ParseOne(line, parse);
    assert ParseAll(done, parse).yielded + [] == ParseAll(done, parse).yielded;
  }

  /** The loops of the generator, over the decoded chunks of the stream. Whatever the chunking, the
      result is the meaning of the concatenated text, errors included. */
  method ParseNdjsonStream<J>(chunks: seq<string>, parse: string -> Option<J>) returns (yielded: seq<J>, complete: bool)
    ensures Outcome(yielded, complete) == Meaning(Text.Concat(chunks), parse)
  {
    var buffer := "";
    yielded := [];
    ghost var done: seq<string> := [];  // non-blank lines taken off the buffer
    assert Reduced(Text.Concat(chunks[..0]), done, buffer) by {
      Nothing();
    }
    for k := 0 to |chunks|
      invariant Reduced(Text.Concat(chunks[..k]), done, buffer) && '\n' !in buffer
      invariant ParseAll(done, parse) == Outcome(yielded, true)
    {
      ConcatNext(chunks, k);
      ReadChunk(Text.Concat(chunks[..k]), done, buffer, chunks[k]);
      buffer := buffer + chunks[k];
      while true
        invariant Reduced(Text.Concat(chunks[..k + 1]), done, buffer)
        invariant ParseAll(done, parse) == Outcome(yielded, true)
        decreases |buffer|
      {
        var newlineIndex := NewlineIndex(buffer);
        if newlineIndex == |buffer| {
          assert buffer[..|buffer|] == buffer;
          break;
        }
        var line := Text.Trim(buffer[..newlineIndex]);
        TakeLine(Text.Concat(chunks[..k + 1]), done, buffer, newlineIndex);
        TakenIsParsed(done, line, parse);
        buffer := buffer[newlineIndex + 1..];
        done := done + OneLine(line);
        if line != "" {
          var doc := parse(line);
          if doc.None? {
            FailsForGood(Text.Concat(chunks[..k + 1]), done, buffer, Text.Concat(chunks[k + 1..]), parse);
            ConcatRest(chunks, k + 1);
            return yielded, false;
          }
          yielded := yielded + [doc.value];
        }
      }
    }
    assert chunks[..|chunks|] == chunks;
    var tail := Text.Trim(buffer);
    Finish(Text.Concat(chunks), done, buffer, parse);
    ParseOne(tail, parse);
    complete := true;
    if tail != "" {
      var doc := parse(tail);
      if doc.None? {
        return yielded, false;
      }
      yielded := yielded + [doc.value];
    }
  }

  lemma Nothing()
    ensures Text.Concat([]) == "" && Reduced("", [], "")
  {
    forall later: string
      ensures ReducedFor("", [], "", later)
    {
    }
  }

  lemma ConcatRest(chunks: seq<string>, k: nat)
    requires k <= |chunks|
    ensures Text.Concat(chunks) == Text.Concat(chunks[..k]) + Text.Concat(chunks[k..])
  {
    assert chunks == chunks[..k] + chunks[k..];
    Text.ConcatAppends(chunks[..k], chunks[k..]);
  }

  lemma ParseOne<J>(line: string, parse: string -> Option<J>)
    ensures ParseAll([line], parse) == if parse(line).Some? then Outcome([parse(line).value], true) else Outcome([], false)
  {
    assert [line][1..] == [];
  }

  lemma ConcatNext(chunks: seq<string>, k: nat)
    requires k < |chunks|
    ensures Text.Concat(chunks[..k + 1]) == Text.Concat(chunks[..k]) + chunks[k]
  {
    assert chunks[..k + 1] == chunks[..k] + [chunks[k]];
    Text.ConcatAppends(chunks[..k], [chunks[k]]);
    assert [chunks[k]][1..] == [] && Text.Concat([chunks[k]]) == chunks[k] + "";
  }
}
