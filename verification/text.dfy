/** Text helpers shared by the stream reader, the NDJSON parser, the file tree and the migration:
    splitting on a separator, JavaScript-style trimming and decimal numerals. */
module Text {
  import opened Sequences

  /** The characters String.prototype.trim removes. */
  predicate IsSpace(c: char) {
    || '\U{0009}' <= c <= '\U{000D}' || c == ' ' || c == '\U{00A0}' || c == '\U{1680}'
    || '\U{2000}' <= c <= '\U{200A}' || c == '\U{2028}' || c == '\U{2029}' || c == '\U{202F}'
    || c == '\U{205F}' || c == '\U{3000}' || c == '\U{FEFF}'
  }

  predicate Blank(s: string) {
    forall i :: 0 <= i < |s| ==> IsSpace(s[i])
  }

  function TrimStart(s: string): string {
    if s != [] && IsSpace(s[0]) then TrimStart(s[1..]) else s
  }

  function TrimEnd(s: string): string {
    if s != [] && IsSpace(s[|s| - 1]) then TrimEnd(s[..|s| - 1]) else s
  }

  function Trim(s: string): string {
    TrimEnd(TrimStart(s))
  }

  lemma {:induction false} TrimStartRemovesPrefix(s: string) returns (pre: string)
    ensures s == pre + TrimStart(s) && Blank(pre)
    ensures TrimStart(s) != [] ==> !IsSpace(TrimStart(s)[0])
  {
    if s != [] && IsSpace(s[0]) {
      var rest := TrimStartRemovesPrefix(s[1..]);
      pre := [s[0]] + rest;
      assert s == [s[0]] + s[1..];
    } else {
      pre := [];
    }
  }

  lemma {:induction false} TrimEndRemovesSuffix(s: string) returns (post: string)
    ensures s == TrimEnd(s) + post && Blank(post)
    ensures TrimEnd(s) != [] ==> !IsSpace(TrimEnd(s)[|TrimEnd(s)| - 1])
  {
    if s != [] && IsSpace(s[|s| - 1]) {
      var rest := TrimEndRemovesSuffix(s[..|s| - 1]);
      post := rest + [s[|s| - 1]];
      assert s == s[..|s| - 1] + [s[|s| - 1]];
    } else {
      post := [];
    }
  }

  /** Trimming removes a blank prefix and a blank suffix and leaves no blank at either end. */
  lemma TrimIsMaximal(s: string) returns (pre: string, post: string)
    ensures s == pre + Trim(s) + post && Blank(pre) && Blank(post)
    ensures Trim(s) != [] ==> !IsSpace(Trim(s)[0]) && !IsSpace(Trim(s)[|Trim(s)| - 1])
  {
    pre := TrimStartRemovesPrefix(s);
    post := TrimEndRemovesSuffix(TrimStart(s));
  }

  /** A separator-delimited split; like String.prototype.split it never returns an empty list. */
  function Split(s: string, sep: char): (parts: seq<string>)
    ensures |parts| > 0
  {
    if s == [] then [""] else Push(s[0], Split(s[1..], sep), sep)
  }

  function Push(c: char, parts: seq<string>, sep: char): (r: seq<string>)
    requires parts != []
    ensures r != []
  {
    if c == sep then [""] + parts else [[c] + parts[0]] + parts[1..]
  }

  function Join(parts: seq<string>, sep: char): string {
    if parts == [] then "" else if |parts| == 1 then parts[0] else parts[0] + [sep] + Join(parts[1..], sep)
  }

  /** Every segment but the last: those a separator has closed. */
  function Complete(s: string, sep: char): seq<string> {
    Split(s, sep)[..|Split(s, sep)| - 1]
  }

  /** The text after the last separator. */
  function Tail(s: string, sep: char): string {
    Split(s, sep)[|Split(s, sep)| - 1]
  }

  function Concat(chunks: seq<string>): string {
    if chunks == [] then "" else chunks[0] + Concat(chunks[1..])
  }

  /** Splitting and joining are inverse, and no segment contains the separator. */
  lemma {:induction false} SplitJoin(s: string, sep: char)
    ensures Join(Split(s, sep), sep) == s
    ensures forall part :: part in Split(s, sep) ==> sep !in part
  {
    if s != [] {
      SplitJoin(s[1..], sep);
      var rest := Split(s[1..], sep);
      var whole := Split(s, sep);
      if s[0] == sep {
        assert whole[1..] == rest;
        assert Join(whole, sep) == "" + [sep] + Join(rest, sep);
      } else {
        assert whole[1..] == rest[1..];
        assert Join(whole, sep) == [s[0]] + Join(rest, sep);
      }
      assert s == [s[0]] + s[1..];
    }
  }

  /** The law behind incremental line reading: a text already read can be forgotten up to its tail. */
  lemma {:induction false} SplitResumes(a: string, b: string, sep: char)
    ensures Split(a + b, sep) == Complete(a, sep) + Split(Tail(a, sep) + b, sep)
  {
    if a == [] {
      assert a + b == b && Tail(a, sep) + b == b;
    } else {
      SplitResumes(a[1..], b, sep);
      assert a == [a[0]] + a[1..];
      ConsResumes(a[0], a[1..], b, Complete(a[1..], sep), Tail(a[1..], sep), sep);
    }
  }

  lemma ConsResumes(c: char, a: string, b: string, done: seq<string>, open: string, sep: char)
    requires Split(a, sep) == done + [open] && Split(a + b, sep) == done + Split(open + b, sep)
    ensures var p := Split([c] + a, sep); Split([c] + a + b, sep) == p[..|p| - 1] + Split(p[|p| - 1] + b, sep)
  {
    Associate([c], a, b);
    SplitOfCons(c, a, sep);
    SplitOfCons(c, a + b, sep);
    PushResumes(c, done, open, b, sep);
  }

  lemma SplitOfCons(c: char, s: string, sep: char)
    ensures Split([c] + s, sep) == Push(c, Split(s, sep), sep)
  {
    assert ([c] + s)[1..] == s;
  }

  lemma PushResumes(c: char, done: seq<string>, rest: string, b: string, sep: char)
    ensures var p := Push(c, done + [rest], sep);
            Push(c, done + Split(rest + b, sep), sep) == p[..|p| - 1] + Split(p[|p| - 1] + b, sep)
  {
    var p := Push(c, done + [rest], sep);
    var open := Split(rest + b, sep);
    PushBeforeTail(c, done, [rest], sep);
    PushBeforeTail(c, done, open, sep);
    if c == sep {
      assert p[..|p| - 1] == [""] + done;
    } else if done == [] {
      assert p[0] + b == [c] + (rest + b);
      SplitOfCons(c, rest + b, sep);
      assert p[..0] + Push(c, open, sep) == Push(c, open, sep);
    } else {
      assert p[..|p| - 1] == [[c] + done[0]] + done[1..];
    }
  }

  /** A character put in front of `done + open` only reaches `open` when nothing is done yet. */
  lemma PushBeforeTail(c: char, done: seq<string>, open: seq<string>, sep: char)
    requires open != []
    ensures c != sep && done == [] ==> Push(c, done + open, sep) == Push(c, open, sep)
    ensures c == sep ==> Push(c, done + open, sep) == [""] + done + open
    ensures c != sep && done != [] ==> Push(c, done + open, sep) == [[c] + done[0]] + done[1..] + open
  {
    if done == [] {
      assert done + open == open;
    } else {
      assert (done + open)[1..] == done[1..] + open;
    }
  }

  lemma {:induction false} SeparatorFree(s: string, sep: char)
    requires sep !in s
    ensures Split(s, sep) == [s]
  {
    if s != [] {
      SeparatorFree(s[1..], sep);
      assert s[0] in s && [s[0]] + s[1..] == s;
    }
  }

  lemma {:induction false} ConcatAppends(a: seq<string>, b: seq<string>)
    ensures Concat(a + b) == Concat(a) + Concat(b)
  {
    if a == [] {
      assert a + b == b;
    } else {
      ConcatAppends(a[1..], b);
      assert (a + b)[1..] == a[1..] + b && (a + b)[0] == a[0];
      Associate(a[0], Concat(a[1..]), Concat(b));
    }
  }

  /** The trimmed segments that are not blank, in order. */
  function NonBlank(segments: seq<string>): seq<string> {
    if segments == [] then []
    else
      var line := Trim(segments[0]);
      if line == "" then NonBlank(segments[1..]) else [line] + NonBlank(segments[1..])
  }

  lemma {:induction false} NonBlankAppends(a: seq<string>, b: seq<string>)
    ensures NonBlank(a + b) == NonBlank(a) + NonBlank(b)
  {
    if a == [] {
      assert a + b == b;
    } else {
      NonBlankAppends(a[1..], b);
      assert (a + b)[1..] == a[1..] + b && (a + b)[0] == a[0];
      Associate([Trim(a[0])], NonBlank(a[1..]), NonBlank(b));
    }
  }

  /** The line breaks and white space of ECMAScript, one by one. */
  const SPACES := {'\U{0009}', '\U{000A}', '\U{000B}', '\U{000C}', '\U{000D}', ' ', '\U{00A0}', '\U{1680}',
                   '\U{2000}', '\U{2001}', '\U{2002}', '\U{2003}', '\U{2004}', '\U{2005}', '\U{2006}', '\U{2007}', '\U{2008}',
                   '\U{2009}', '\U{200A}', '\U{2028}', '\U{2029}', '\U{202F}', '\U{205F}', '\U{3000}', '\U{FEFF}'}

  ghost predicate AllSpaces(s: string) {
    forall i :: 0 <= i < |s| ==> s[i] in SPACES
  }

  lemma SpaceIsListed(c: char)
    ensures IsSpace(c) <==> c in SPACES
  {
  }

  lemma BlankIsSpaces(s: string)
    requires Blank(s)
    ensures AllSpaces(s)
  {
    forall i | 0 <= i < |s|
      ensures s[i] in SPACES
    {
      SpaceIsListed(s[i]);
    }
  }

  lemma NonBlankPart(before: seq<string>, line: string, after: seq<string>)
    ensures NonBlank(before + [line] + after) == NonBlank(before) + (if Trim(line) == "" then [] else [Trim(line)]) + NonBlank(after)
  {
    NonBlankAppends(before + [line], after);
    NonBlankAppends(before, [line]);
    assert [line][1..] == [];
  }

  /** What becomes of one line among others: without the white space at its ends it is kept in its place, unless
      nothing is left of it. */
  lemma LineIsKept(before: seq<string>, line: string, after: seq<string>) returns (pre: string, kept: string, post: string)
    ensures line == pre + kept + post && AllSpaces(pre) && AllSpaces(post)
    ensures kept != "" ==> kept[0] !in SPACES && kept[|kept| - 1] !in SPACES
    ensures NonBlank(before + [line] + after) == NonBlank(before) + (if kept == "" then [] else [kept]) + NonBlank(after)
  {
    kept := Trim(line);
    pre, post := TrimIsMaximal(line);
    BlankIsSpaces(pre);
    BlankIsSpaces(post);
    if kept != "" {
      SpaceIsListed(kept[0]);
      SpaceIsListed(kept[|kept| - 1]);
    }
    NonBlankPart(before, line, after);
  }

  // ---------- Decimal numerals ----------

  const DIGITS := "0123456789"

  function Decimal(n: nat): (d: string)
    ensures d != []
  {
    if n < 10 then [DIGITS[n]] else Decimal(n / 10) + [DIGITS[n % 10]]
  }

  lemma {:induction false} DecimalInjective(m: nat, n: nat)
    requires Decimal(m) == Decimal(n)
    ensures m == n
    decreases m + n
  {
    var d, e := Decimal(m), Decimal(n);
    assert d[|d| - 1] == DIGITS[m % 10] && e[|e| - 1] == DIGITS[n % 10];
    if m >= 10 && n >= 10 {
      assert d[..|d| - 1] == Decimal(m / 10) && e[..|e| - 1] == Decimal(n / 10);
      DecimalInjective(m / 10, n / 10);
    }
  }

  /** The number that a row of digits stands for. */
  function ValueOf(d: string): int {
    if d == [] then 0 else 10 * ValueOf(d[..|d| - 1]) + (d[|d| - 1] as int - '0' as int)
  }

  /** A numeral consists of digits, stands for its number, and begins with a zero only if it is "0". */
  lemma {:induction false} DecimalStandsFor(n: nat)
    ensures ValueOf(Decimal(n)) == n
    ensures forall i :: 0 <= i < |Decimal(n)| ==> '0' <= Decimal(n)[i] <= '9'
    ensures Decimal(n)[0] == '0' ==> n == 0
  {
    var d := Decimal(n);
    if n >= 10 {
      DecimalStandsFor(n / 10);
      assert d[..|d| - 1] == Decimal(n / 10);
    } else {
      assert d[..0] == [];
    }
  }
}
