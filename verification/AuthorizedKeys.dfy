/**
 Byte-exact edits of an authorized_keys file. A character is one byte. The loops
 work on offsets; their specification is the list of physical lines, each with
 the terminator it owns.
 */
module AuthorizedKeys {
  import opened Options

  /** `text` excludes the terminator, `next` is the offset after it. */
  datatype PhysicalLine = PhysicalLine(start: nat, end: nat, next: nat)

  // ----- lines as values -----

  /** The offset after the first newline, or the end. */
  function FirstEnd(contents: string): (n: nat)
    requires |contents| > 0
    ensures 0 < n <= |contents|
    ensures '\n' !in contents[..n - 1] && (contents[n - 1] == '\n' || (n == |contents| && '\n' !in contents))
  {
    if contents[0] == '\n' || |contents| == 1 then 1 else 1 + FirstEnd(contents[1..])
  }

  /** The physical lines, terminators included. */
  function Lines(contents: string): seq<string>
    decreases |contents|
  {
    if contents == [] then [] else [contents[..FirstEnd(contents)]] + Lines(contents[FirstEnd(contents)..])
  }

  function Concat(lines: seq<string>): string {
    if lines == [] then [] else lines[0] + Concat(lines[1..])
  }

  function Chopped(s: string, c: char): string {
    if |s| > 0 && s[|s| - 1] == c then s[..|s| - 1] else s
  }

  /** `lineText`: without the newline, then without one carriage return. */
  function Text(line: string): string { Chopped(Chopped(line, '\n'), '\r') }

  predicate Terminated(contents: string) { contents == [] || contents[|contents| - 1] == '\n' }

  function Count(lines: seq<string>, line: string): nat {
    if lines == [] then 0 else (if Text(lines[0]) == line then 1 else 0) + Count(lines[1..], line)
  }

  function Without(lines: seq<string>, line: string): seq<string> {
    if lines == [] then []
    else if Text(lines[0]) == line then Without(lines[1..], line)
    else [lines[0]] + Without(lines[1..], line)
  }

  // ----- the loops -----

  /** These offsets cut the bytes into exactly these lines. */
  ghost predicate Cuts(contents: string, lines: seq<PhysicalLine>, texts: seq<string>) {
    && |lines| == |texts|
    && forall k :: 0 <= k < |lines| ==> CutAt(contents, lines, texts, k)
  }

  ghost predicate CutAt(contents: string, lines: seq<PhysicalLine>, texts: seq<string>, k: nat)
    requires k < |lines| == |texts|
  {
    var line := lines[k];
    && line.start <= line.end <= line.next <= |contents| && line.start < line.next
    && line.start == (if k == 0 then 0 else lines[k - 1].next)
    && contents[line.start..line.next] == texts[k]
    && contents[line.start..line.end] == Chopped(texts[k], '\n')
  }

  /** `bytes.IndexByte` from an offset: the first newline there, or the end. */
  method IndexNewline(contents: string, start: nat) returns (end: nat)
    requires start < |contents|
    ensures start <= end <= |contents| && '\n' !in contents[start..end]
    ensures end < |contents| ==> contents[end] == '\n'
  {
    end := start;
    while end < |contents| && contents[end] != '\n'
      invariant start <= end <= |contents|
      invariant '\n' !in contents[start..end]
    {
      end := end + 1;
    }
  }

  /** `physicalLines`: the spans partition the bytes, in order. */
  method PhysicalLines(contents: string) returns (lines: seq<PhysicalLine>)
    ensures Cuts(contents, lines, Lines(contents))
    ensures if lines == [] then contents == [] else lines[|lines| - 1].next == |contents|
  {
    hide Cuts, Lines, FirstEnd;
    lines := [];
    var start := 0;
    ghost var done: seq<string> := [];
    NothingCut(contents);
    while start < |contents|
      invariant start <= |contents| && start == if lines == [] then 0 else lines[|lines| - 1].next
      invariant Lines(contents) == done + Lines(contents[start..])
      invariant Cuts(contents, lines, done)
    {
      var end := IndexNewline(contents, start);
      var line := if end < |contents| then PhysicalLine(start, end, end + 1) else PhysicalLine(start, end, end);
      FirstLine(contents, line);
      CutsOneMore(contents, lines, done, line);
      lines := lines + [line];
      done := done + [contents[start..line.next]];
      start := line.next;
    }
    NothingCut(contents[start..]);
    assert done + [] == done;
  }

  lemma NothingCut(contents: string)
    ensures Cuts(contents, [], []) && (contents == [] ==> Lines(contents) == [])
    ensures Lines(contents) == [] + Lines(contents[0..])
  {
    assert contents[0..] == contents;
  }

  lemma FirstLine(contents: string, line: PhysicalLine)
    requires line.start < line.next <= |contents| && line.start <= line.end <= line.next
    requires '\n' !in contents[line.start..line.end]
    requires if line.end < |contents| then contents[line.end] == '\n' && line.next == line.end + 1 else line.next == line.end == |contents|
    ensures Lines(contents[line.start..]) == [contents[line.start..line.next]] + Lines(contents[line.next..])
    ensures contents[line.start..line.end] == Chopped(contents[line.start..line.next], '\n')
  {
    hide Lines, Chopped;
    var rest := contents[line.start..];
    SliceOfRest(contents, line.start, line.end);
    SliceOfRest(contents, line.start, line.next);
    assert line.end < |contents| ==> rest[line.end - line.start] == '\n';
    LineHead(rest, line.end - line.start, line.next - line.start);
  }

  lemma SliceOfRest<T>(s: seq<T>, start: nat, end: nat)
    requires start <= end <= |s|
    ensures s[start..][..end - start] == s[start..end] && s[start..][end - start..] == s[end..]
  {
  }

  lemma LineHead(rest: string, end: nat, n: nat)
    requires 0 < n <= |rest| && end <= n && '\n' !in rest[..end]
    requires if end < |rest| then rest[end] == '\n' && n == end + 1 else n == end == |rest|
    ensures Lines(rest) == [rest[..n]] + Lines(rest[n..])
    ensures rest[..end] == Chopped(rest[..n], '\n')
  {
    hide Lines;
    var m := FirstEnd(rest);
    forall k | end < k <= |rest| ensures rest[end] in rest[..k] {
      assert rest[..k][end] == rest[end];
    }
    assert m <= end ==> rest[..end][m - 1] == rest[m - 1];
    HeadAndTail(rest);
  }

  lemma HeadAndTail(contents: string)
    requires contents != []
    ensures Lines(contents) == [contents[..FirstEnd(contents)]] + Lines(contents[FirstEnd(contents)..])
  {
  }

  lemma CutsOneMore(contents: string, lines: seq<PhysicalLine>, texts: seq<string>, line: PhysicalLine)
    requires Cuts(contents, lines, texts)
    requires line.start <= line.end <= line.next <= |contents| && line.start < line.next
    requires line.start == (if lines == [] then 0 else lines[|lines| - 1].next)
    requires contents[line.start..line.end] == Chopped(contents[line.start..line.next], '\n')
    ensures Cuts(contents, lines + [line], texts + [contents[line.start..line.next]])
  {
    var lines', texts' := lines + [line], texts + [contents[line.start..line.next]];
    forall k | 0 <= k < |lines'| ensures CutAt(contents, lines', texts', k) {
      if k < |lines| { assert CutAt(contents, lines, texts, k); }
    }
  }

  /** `removeLine`: exactly one matching line goes, with its own terminator. */
  method RemoveLine(contents: string, line: string) returns (result: Option<string>)
    ensures result == Removed(contents, line)
  {
    hide Lines, Concat, Without, Count, Text;
    ScannedNothing(line, text => false);
    var lines := PhysicalLines(contents);
    ghost var texts := Lines(contents);
    var matches: seq<PhysicalLine> := [];
    ghost var at := 0;
    var k := 0;
    while k < |lines|
      invariant 0 <= k <= |lines|
      invariant |matches| == Count(texts[..k], line)
      invariant |matches| > 0 ==> at < k && lines[at] == matches[0] && Text(texts[at]) == line && Count(texts[..at], line) == 0
    {
      assert CutAt(contents, lines, texts, k);
      ScannedOneMore(texts, k, line, text => false);
      TextOf(texts[k]);
      if Chopped(contents[lines[k].start..lines[k].end], '\r') == line {
        if matches == [] { at := k; }
        matches := matches + [lines[k]];
      }
      k := k + 1;
    }
    assert texts[..k] == texts;
    if |matches| != 1 { return None; }
    CutSurrounds(contents, lines, texts, at);
    WithoutOnly(texts, line, at);
    result := Some(contents[..matches[0].start] + contents[matches[0].next..]);
  }

  function Removed(contents: string, line: string): Option<string> {
    if Count(Lines(contents), line) == 1 then Some(Concat(Without(Lines(contents), line))) else None
  }

  /** Some other line than this one has the property. */
  function Elsewhere(lines: seq<string>, line: string, holds: string -> bool): bool {
    lines != [] && ((Text(lines[0]) != line && holds(Text(lines[0]))) || Elsewhere(lines[1..], line, holds))
  }

  /** `scanKeys`: how often the line occurs, and whether some other line, not a
      comment, holds the key or the marker. */
  method ScanKeys(contents: string, line: string, holdsKey: string -> bool, holdsMarker: string -> bool)
    returns (exact: nat, foreignKey: bool, foreignMarker: bool)
    ensures exact == Count(Lines(contents), line)
    ensures foreignKey == Elsewhere(Lines(contents), line, holdsKey)
    ensures foreignMarker == Elsewhere(Lines(contents), line, holdsMarker)
  {
    hide Lines, Count, Elsewhere;
    var lines := PhysicalLines(contents);
    ghost var texts := Lines(contents);
    exact, foreignKey, foreignMarker := 0, false, false;
    ScannedNothing(line, holdsKey);
    ScannedNothing(line, holdsMarker);
    var k := 0;
    while k < |lines|
      invariant 0 <= k <= |lines|
      invariant exact == Count(texts[..k], line)
      invariant foreignKey == Elsewhere(texts[..k], line, holdsKey)
      invariant foreignMarker == Elsewhere(texts[..k], line, holdsMarker)
    {
      assert CutAt(contents, lines, texts, k);
      var text := Chopped(contents[lines[k].start..lines[k].end], '\r');
      ScannedOneMore(texts, k, line, holdsKey);
      ScannedOneMore(texts, k, line, holdsMarker);
      if text == line {
        exact := exact + 1;
      } else {
        foreignKey := foreignKey || holdsKey(text);
        foreignMarker := foreignMarker || holdsMarker(text);
      }
      k := k + 1;
    }
    assert texts[..k] == texts;
  }

  lemma TextOf(line: string)
    ensures Text(line) == Chopped(Chopped(line, '\n'), '\r')
  {
  }

  lemma ScannedNothing(line: string, holds: string -> bool)
    ensures Count([], line) == 0 && !Elsewhere([], line, holds)
  {
  }

  lemma ScannedOneMore(lines: seq<string>, k: nat, line: string, holds: string -> bool)
    requires k < |lines|
    ensures Count(lines[..k + 1], line) == Count(lines[..k], line) + if Text(lines[k]) == line then 1 else 0
    ensures Elsewhere(lines[..k + 1], line, holds) == (Elsewhere(lines[..k], line, holds) || (Text(lines[k]) != line && holds(Text(lines[k]))))
  {
    assert lines[..k + 1] == lines[..k] + [lines[k]];
    CountAppends(lines[..k], [lines[k]], line);
    ElsewhereAppends(lines[..k], [lines[k]], line, holds);
  }

  lemma {:induction false} ElsewhereAppends(a: seq<string>, b: seq<string>, line: string, holds: string -> bool)
    ensures Elsewhere(a + b, line, holds) == (Elsewhere(a, line, holds) || Elsewhere(b, line, holds))
  {
    if a == [] {
      assert a + b == b;
    } else {
      assert (a + b)[1..] == a[1..] + b;
      ElsewhereAppends(a[1..], b, line, holds);
    }
  }

  // ----- appending -----

  predicate UsesCrlf(contents: string) {
    exists i :: 0 < i < |contents| && CrlfAt(contents, i)
  }

  predicate CrlfAt(contents: string, i: nat)
    requires 0 < i < |contents|
  {
    contents[i - 1] == '\r' && contents[i] == '\n'
  }

  function Eol(contents: string): string { if UsesCrlf(contents) then "\r\n" else "\n" }

  /** `appendLine`. */
  function Appended(contents: string, line: string): string {
    (if Terminated(contents) then contents else contents + Eol(contents)) + line + Eol(contents)
  }

  /** A line that can be granted: one physical line, found again by its text. */
  predicate Grantable(line: string) {
    '\n' !in line && (line == [] || line[|line| - 1] != '\r')
  }

  // ----- lemmas about lines -----

  lemma {:induction false} ConcatLines(contents: string)
    ensures Concat(Lines(contents)) == contents
    decreases |contents|
  {
    if contents != [] { ConcatLines(contents[FirstEnd(contents)..]); }
  }

  lemma {:induction false} ConcatAppends(a: seq<string>, b: seq<string>)
    ensures Concat(a + b) == Concat(a) + Concat(b)
  {
    if a == [] {
      assert a + b == b;
    } else {
      assert (a + b)[1..] == a[1..] + b;
      ConcatAppends(a[1..], b);
    }
  }

  lemma {:induction false} CountAppends(a: seq<string>, b: seq<string>, line: string)
    ensures Count(a + b, line) == Count(a, line) + Count(b, line)
  {
    if a == [] {
      assert a + b == b;
    } else {
      assert (a + b)[1..] == a[1..] + b;
      CountAppends(a[1..], b, line);
    }
  }

  lemma {:induction false} WithoutAppends(a: seq<string>, b: seq<string>, line: string)
    ensures Without(a + b, line) == Without(a, line) + Without(b, line)
  {
    hide Text;
    if a == [] {
      assert a + b == b && Without(a, line) + Without(b, line) == Without(b, line);
    } else {
      assert (a + b)[1..] == a[1..] + b && (a + b)[0] == a[0];
      WithoutAppends(a[1..], b, line);
      Associative([a[0]], Without(a[1..], line), Without(b, line));
    }
  }

  lemma {:induction false} WithoutNone(lines: seq<string>, line: string)
    requires Count(lines, line) == 0
    ensures Without(lines, line) == lines
  {
    if lines != [] { WithoutNone(lines[1..], line); }
  }

  lemma {:induction false} WithoutOnly(lines: seq<string>, line: string, at: nat)
    requires at < |lines| && Text(lines[at]) == line && Count(lines, line) == 1
    requires Count(lines[..at], line) == 0
    ensures Without(lines, line) == lines[..at] + lines[at + 1..]
  {
    hide Text;
    if at == 0 {
      WithoutNone(lines[1..], line);
      assert lines[..0] + lines[1..] == lines[1..];
    } else {
      assert lines[..at][0] == lines[0] && lines[..at][1..] == lines[1..][..at - 1];
      WithoutOnly(lines[1..], line, at - 1);
      assert lines[1..][at..] == lines[at + 1..];
      assert [lines[0]] + lines[1..][..at - 1] == lines[..at];
      Associative([lines[0]], lines[1..][..at - 1], lines[at + 1..]);
    }
  }

  lemma Associative<T>(a: seq<T>, b: seq<T>, c: seq<T>)
    ensures (a + b) + c == a + (b + c)
  {
  }

  lemma SplitAt<T>(s: seq<T>, i: nat, j: nat)
    requires i <= j <= |s|
    ensures s[..j] == s[..i] + s[i..j]
  {
  }

  /** What lies before and after one physical line. */
  lemma CutSurrounds(contents: string, lines: seq<PhysicalLine>, texts: seq<string>, at: nat)
    requires Cuts(contents, lines, texts) && at < |lines| && lines[|lines| - 1].next == |contents|
    ensures lines[at].start <= lines[at].next <= |contents|
    ensures contents[..lines[at].start] + contents[lines[at].next..] == Concat(texts[..at] + texts[at + 1..])
  {
    CutPrefix(contents, lines, texts, at);
    CutSuffix(contents, lines, texts, at + 1);
    ConcatAppends(texts[..at], texts[at + 1..]);
    assert CutAt(contents, lines, texts, at);
  }

  lemma {:induction false} CutPrefix(contents: string, lines: seq<PhysicalLine>, texts: seq<string>, k: nat)
    requires Cuts(contents, lines, texts) && k < |lines|
    ensures lines[k].start <= |contents| && contents[..lines[k].start] == Concat(texts[..k])
  {
    assert CutAt(contents, lines, texts, k);
    if k > 0 {
      CutPrefix(contents, lines, texts, k - 1);
      assert CutAt(contents, lines, texts, k - 1);
      SplitAt(texts, k - 1, k);
      assert texts[k - 1..k] == [texts[k - 1]];
      ConcatAppends(texts[..k - 1], [texts[k - 1]]);
      ConcatOne(texts[k - 1]);
      SplitAt(contents, lines[k - 1].start, lines[k - 1].next);
    }
  }

  lemma ConcatOne(text: string)
    ensures Concat([text]) == text
  {
  }

  lemma {:induction false} CutSuffix(contents: string, lines: seq<PhysicalLine>, texts: seq<string>, k: nat)
    requires Cuts(contents, lines, texts) && 0 < k <= |lines| && lines[|lines| - 1].next == |contents|
    ensures lines[k - 1].next <= |contents| && contents[lines[k - 1].next..] == Concat(texts[k..])
    decreases |lines| - k
  {
    assert CutAt(contents, lines, texts, k - 1);
    if k < |lines| {
      assert CutAt(contents, lines, texts, k);
      CutSuffix(contents, lines, texts, k + 1);
      assert texts[k..][1..] == texts[k + 1..];
      assert contents[lines[k - 1].next..] == contents[lines[k].start..lines[k].next] + contents[lines[k].next..];
    }
  }

  /** What is appended to a terminated part does not reach its first line. */
  lemma FirstEndStays(a: string, b: string)
    requires a != [] && Terminated(a)
    ensures FirstEnd(a + b) == FirstEnd(a)
    ensures var n := FirstEnd(a); (a + b)[..n] == a[..n] && (a + b)[n..] == a[n..] + b && Terminated(a[n..])
  {
    hide FirstEnd;
    var n, m := FirstEnd(a), FirstEnd(a + b);
    assert a[n - 1] == '\n' && (a + b)[n - 1] == '\n';
    forall k | n <= k <= |a + b| ensures '\n' in (a + b)[..k] {
      assert (a + b)[..k][n - 1] == '\n';
    }
    forall k | m <= k <= |a| ensures (a + b)[m - 1] in a[..k] {
      assert a[..k][m - 1] == (a + b)[m - 1];
    }
  }

  /** Lines split where a terminated part ends. */
  lemma {:induction false} LinesAppend(a: string, b: string)
    requires Terminated(a)
    ensures Lines(a + b) == Lines(a) + Lines(b)
    decreases |a|
  {
    hide FirstEnd, Lines, Terminated;
    if a == [] {
      assert a + b == b;
      NothingCut([]);
    } else {
      HeadAndTail(a);
      HeadAndTail(a + b);
      FirstEndStays(a, b);
      LinesAppend(a[FirstEnd(a)..], b);
    }
  }
}
