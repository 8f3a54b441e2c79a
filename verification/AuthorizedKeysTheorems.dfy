/**
 What grants and revokes do to an authorized_keys file, whatever it held before.
 */
module AuthorizedKeysTheorems {
  import opened Options
  import opened AuthorizedKeys

  datatype Change = Grant(line: string) | Revoke(line: string)

  /** The host's edit: append a line that is absent, remove a line that occurs
      once, leave the file alone otherwise. */
  function Edited(contents: string, change: Change): string {
    var found := Count(Lines(contents), change.line);
    if change.Grant? && found == 0 then Appended(contents, change.line)
    else if change.Revoke? && found == 1 then Removed(contents, change.line).value
    else contents
  }

  function AllEdited(contents: string, changes: seq<Change>): string
    decreases |changes|
  {
    if changes == [] then contents else AllEdited(Edited(contents, changes[0]), changes[1..])
  }

  /** A granted line as it stands in the file, with the terminator it was
      written with. */
  datatype Granted = Granted(line: string, eol: string)

  predicate Holds(granted: seq<Granted>, line: string) {
    exists k :: 0 <= k < |granted| && granted[k].line == line
  }

  function Dropped(granted: seq<Granted>, line: string): seq<Granted> {
    if granted == [] then [] else (if granted[0].line == line then [] else [granted[0]]) + Dropped(granted[1..], line)
  }

  function Written(granted: seq<Granted>): seq<string> {
    if granted == [] then [] else [granted[0].line + granted[0].eol] + Written(granted[1..])
  }

  /** The lines in force after a change, in the order in which they were
      granted; `eol` is the terminator a new line gets. */
  function Next(granted: seq<Granted>, change: Change, eol: string): seq<Granted> {
    match change
    case Grant(l) => if Holds(granted, l) then granted else granted + [Granted(l, eol)]
    case Revoke(l) => Dropped(granted, l)
  }

  function InForce(granted: seq<Granted>, changes: seq<Change>, eol: string): seq<Granted>
    decreases |changes|
  {
    if changes == [] then granted else InForce(Next(granted, changes[0], eol), changes[1..], eol)
  }

  /** Lines that may stand after `base` without changing its terminator: each
      at most once, and none ends in CRLF unless `base` already uses it. */
  ghost predicate Fit(granted: seq<Granted>, base: string) {
    && (forall k :: 0 <= k < |granted| ==>
          Grantable(granted[k].line) && IsEol(granted[k].eol) && (granted[k].eol == "\r\n" ==> UsesCrlf(base)))
    && forall j, k :: 0 <= j < k < |granted| ==> granted[j].line != granted[k].line
  }

  predicate IsEol(eol: string) { eol == "\n" || eol == "\r\n" }

  /** One granted line is one physical line, found again by its text. */
  lemma EndedLine(line: string, eol: string)
    requires Grantable(line) && IsEol(eol)
    ensures Lines(line + eol) == [line + eol] && Text(line + eol) == line && Terminated(line + eol)
  {
    hide Lines;
    var s := line + eol;
    NothingCut([]);
    LineHead(s, |s| - 1, |s|);
    Prefix(line, eol);
    assert s[..|s|] == s && s[|s|..] == [];
    if eol == "\r\n" {
      assert s[..|s| - 1] == line + "\r";
      Prefix(line, "\r");
    }
  }

  lemma Prefix(a: string, b: string)
    ensures (a + b)[..|a|] == a
  {
  }

  lemma {:induction false} WrittenLines(granted: seq<Granted>, base: string)
    requires Fit(granted, base)
    ensures Lines(Concat(Written(granted))) == Written(granted)
    ensures Terminated(Concat(Written(granted)))
  {
    hide Grantable, UsesCrlf, Text, FirstEnd;
    if granted != [] {
      var first := granted[0];
      EndedLine(first.line, first.eol);
      WrittenLines(granted[1..], base);
      LinesAppend(first.line + first.eol, Concat(Written(granted[1..])));
    }
  }

  lemma {:induction false} WrittenCount(granted: seq<Granted>, base: string, line: string)
    requires Fit(granted, base)
    ensures Count(Written(granted), line) == (if Holds(granted, line) then 1 else 0)
    ensures Without(Written(granted), line) == Written(Dropped(granted, line))
  {
    hide Text, Lines, Grantable, Terminated, UsesCrlf;
    if granted != [] {
      var first := granted[0];
      EndedLine(first.line, first.eol);
      WrittenCount(granted[1..], base, line);
      assert Written(granted)[0] == first.line + first.eol && Written(granted)[1..] == Written(granted[1..]);
      var rest := Dropped(granted[1..], line);
      assert ([first] + rest)[1..] == rest && [] + rest == rest;
      assert [] + Written(rest) == Written(rest);
      assert first.line == line ==> Dropped(granted, line) == rest;
      HoldsRest(granted, line);
    }
  }

  lemma {:induction false} DroppedFrom(granted: seq<Granted>, line: string)
    ensures forall g :: g in Dropped(granted, line) ==> g in granted && g.line != line
  {
    if granted != [] { DroppedFrom(granted[1..], line); }
  }

  lemma {:induction false} DroppedFits(granted: seq<Granted>, base: string, line: string)
    requires Fit(granted, base)
    ensures Fit(Dropped(granted, line), base)
  {
    hide Grantable, UsesCrlf;
    if granted != [] {
      DroppedFits(granted[1..], base, line);
      DroppedFrom(granted[1..], line);
      if granted[0].line == line { assert Dropped(granted, line) == Dropped(granted[1..], line); }
    }
  }

  lemma HoldsRest(granted: seq<Granted>, line: string)
    requires granted != []
    ensures Holds(granted, line) <==> granted[0].line == line || Holds(granted[1..], line)
  {
    if Holds(granted[1..], line) {
      var k :| 0 <= k < |granted[1..]| && granted[1..][k].line == line;
      assert granted[k + 1].line == line;
    }
    if Holds(granted, line) {
      var k :| 0 <= k < |granted| && granted[k].line == line;
      assert k > 0 ==> granted[1..][k - 1].line == line;
    }
  }

  lemma {:induction false} WrittenAppends(granted: seq<Granted>, added: Granted)
    ensures Written(granted + [added]) == Written(granted) + [added.line + added.eol]
  {
    if granted != [] {
      assert (granted + [added])[1..] == granted[1..] + [added];
      WrittenAppends(granted[1..], added);
    } else {
      assert Written([added]) == [added.line + added.eol] + Written([]);
    }
  }

  lemma CrlfJoin(a: string, b: string)
    ensures UsesCrlf(a + b) <==>
            UsesCrlf(a) || UsesCrlf(b) || (a != [] && b != [] && a[|a| - 1] == '\r' && b[0] == '\n')
  {
    if UsesCrlf(a + b) {
      var i :| 0 < i < |a + b| && CrlfAt(a + b, i);
      assert i < |a| ==> CrlfAt(a, i);
      assert i > |a| ==> CrlfAt(b, i - |a|);
    }
    if UsesCrlf(a) {
      var i :| 0 < i < |a| && CrlfAt(a, i);
      assert CrlfAt(a + b, i);
    }
    if UsesCrlf(b) {
      var i :| 0 < i < |b| && CrlfAt(b, i);
      assert CrlfAt(a + b, i + |a|);
    }
    if a != [] && b != [] && a[|a| - 1] == '\r' && b[0] == '\n' {
      assert CrlfAt(a + b, |a|);
    }
  }

  /** Granted lines never change the terminator in use. */
  lemma TerminatorStays(base: string, granted: seq<Granted>)
    requires Terminated(base) && Fit(granted, base)
    ensures Eol(base + Concat(Written(granted))) == Eol(base)
  {
    CrlfJoin(base, Concat(Written(granted)));
    if !UsesCrlf(base) { NoCrlf(granted, base); }
  }

  lemma {:induction false} NoCrlf(granted: seq<Granted>, base: string)
    requires Fit(granted, base) && !UsesCrlf(base)
    ensures !UsesCrlf(Concat(Written(granted)))
  {
    if granted != [] {
      NoCrlf(granted[1..], base);
      LineHasNoCrlf(granted[0].line);
      assert granted[0].eol == "\n";
      CrlfJoin(granted[0].line + "\n", Concat(Written(granted[1..])));
    }
  }

  lemma LineHasNoCrlf(line: string)
    requires Grantable(line)
    ensures !UsesCrlf(line + "\n")
  {
    forall i | 0 < i < |line + "\n"| ensures !CrlfAt(line + "\n", i) {
    }
  }

  /** The file with these lines in force, as physical lines. */
  lemma FileLines(base: string, granted: seq<Granted>, line: string)
    requires Terminated(base) && Fit(granted, base) && Count(Lines(base), line) == 0
    ensures var file := base + Concat(Written(granted));
            && Terminated(file) && Lines(file) == Lines(base) + Written(granted)
            && Count(Lines(file), line) == (if Holds(granted, line) then 1 else 0)
            && Concat(Without(Lines(file), line)) == base + Concat(Written(Dropped(granted, line)))
  {
    hide Lines, Text, Without, Count, Written, Grantable, Fit, Concat, Dropped, Holds;
    WrittenLines(granted, base);
    LinesAppend(base, Concat(Written(granted)));
    WrittenCount(granted, base, line);
    CountAppends(Lines(base), Written(granted), line);
    WithoutAppends(Lines(base), Written(granted), line);
    WithoutNone(Lines(base), line);
    ConcatAppends(Lines(base), Without(Written(granted), line));
    ConcatLines(base);
  }

  /** One edit of a file with these lines in force. */
  lemma EditedOnce(base: string, granted: seq<Granted>, change: Change)
    requires Terminated(base) && Fit(granted, base) && Grantable(change.line) && Count(Lines(base), change.line) == 0
    ensures Edited(base + Concat(Written(granted)), change) == base + Concat(Written(Next(granted, change, Eol(base))))
    ensures Fit(Next(granted, change, Eol(base)), base)
  {
    hide Lines, Count, Without, Terminated, Grantable, Fit, UsesCrlf, Concat, Written, Dropped, Eol, Holds;
    var eol, line := Eol(base), change.line;
    var file := base + Concat(Written(granted));
    FileLines(base, granted, line);
    TerminatorStays(base, granted);
    WrittenCount(granted, base, line);
    DroppedFits(granted, base, line);
    OneMore(base, granted, Granted(line, eol));
    match change {
      case Grant(_) =>
        if !Holds(granted, line) {
          assert Edited(file, change) == file + line + eol;
          OneMoreFits(base, granted, line);
        }
      case Revoke(_) => if !Holds(granted, line) { DroppedNothing(granted, line); }
    }
  }

  lemma OneMoreFits(base: string, granted: seq<Granted>, line: string)
    requires Fit(granted, base) && Grantable(line) && !Holds(granted, line)
    ensures Fit(granted + [Granted(line, Eol(base))], base)
  {
  }

  lemma {:induction false} DroppedNothing(granted: seq<Granted>, line: string)
    requires !Holds(granted, line)
    ensures Dropped(granted, line) == granted
  {
    if granted != [] {
      HoldsRest(granted, line);
      DroppedNothing(granted[1..], line);
    }
  }

  lemma OneMore(base: string, granted: seq<Granted>, added: Granted)
    ensures base + Concat(Written(granted)) + added.line + added.eol == base + Concat(Written(granted + [added]))
  {
    WrittenAppends(granted, added);
    ConcatAppends(Written(granted), [added.line + added.eol]);
    assert Concat([added.line + added.eol]) == added.line + added.eol;
  }

  /** A terminated part stays in front while the lines after it change. */
  lemma {:induction false} BaseAndGrants(base: string, granted: seq<Granted>, changes: seq<Change>)
    requires Terminated(base) && Fit(granted, base)
    requires forall k :: 0 <= k < |changes| ==> Grantable(changes[k].line) && Count(Lines(base), changes[k].line) == 0
    ensures AllEdited(base + Concat(Written(granted)), changes) == base + Concat(Written(InForce(granted, changes, Eol(base))))
    decreases |changes|
  {
    hide Lines, Count, Terminated, Grantable, Fit, Written, Concat, Eol, Edited, Next;
    if changes != [] {
      EditedOnce(base, granted, changes[0]);
      BaseAndGrants(base, Next(granted, changes[0], Eol(base)), changes[1..]);
    }
  }

  /** What a grant leaves of a file without a final newline. */
  function Closed(contents: string): string {
    if Terminated(contents) then contents else contents + Eol(contents)
  }

  lemma ClosedCount(contents: string, line: string)
    requires Grantable(line) && Count(Lines(contents), line) == 0
    ensures Terminated(Closed(contents)) && Count(Lines(Closed(contents)), line) == 0
  {
    if !Terminated(contents) { ClosedFrom(contents, Eol(contents), line); }
  }

  lemma {:induction false} ClosedFrom(contents: string, eol: string, line: string)
    requires contents != [] && !Terminated(contents) && IsEol(eol)
    requires Grantable(line) && Count(Lines(contents), line) == 0
    ensures Count(Lines(contents + eol), line) == 0
    decreases |contents|
  {
    hide Lines, FirstEnd;
    HeadAndTail(contents);
    var n := FirstEnd(contents);
    var longer := contents + eol;
    if n == |contents| {
      LineHead(longer, |longer| - 1, |longer|);
      assert longer[..|longer|] == longer && longer[|longer|..] == [];
      NothingCut([]);
      assert contents[..n] == contents;
      UnterminatedText(contents, eol, line);
    } else {
      assert longer[..n] == contents[..n] && longer[n - 1] == '\n';
      LineHead(longer, n - 1, n);
      assert longer[n..] == contents[n..] + eol;
      ClosedFrom(contents[n..], eol, line);
    }
  }

  /** Closing the last line does not turn it into a line that can be granted. */
  lemma UnterminatedText(last: string, eol: string, line: string)
    requires last != [] && last[|last| - 1] != '\n' && IsEol(eol) && Grantable(line) && Text(last) != line
    ensures Text(last + eol) != line
  {
    if eol == "\r\n" {
      assert (last + eol)[..|last + eol| - 1] == last + "\r";
      assert (last + "\r")[..|last|] == last;
    } else {
      assert (last + eol)[..|last + eol| - 1] == last;
    }
  }

  /** The file as the changes leave it: untouched up to the first grant, then
      closed. The first line gets the terminator in use before the file was
      closed, every later one that of the closed file. */
  function Expected(original: string, changes: seq<Change>): string
    decreases |changes|
  {
    if changes == [] then original
    else match changes[0]
         case Revoke(_) => Expected(original, changes[1..])
         case Grant(l) =>
           Closed(original) + Concat(Written(InForce([Granted(l, Eol(original))], changes[1..], Eol(Closed(original)))))
  }

  lemma ClosedUsesCrlf(contents: string)
    ensures Eol(contents) == "\r\n" ==> UsesCrlf(Closed(contents))
  {
    if !Terminated(contents) { CrlfJoin(contents, Eol(contents)); }
  }

  lemma FirstGrant(original: string, line: string)
    requires Grantable(line) && Count(Lines(original), line) == 0
    ensures Edited(original, Grant(line)) == Closed(original) + Concat(Written([Granted(line, Eol(original))]))
    ensures Fit([Granted(line, Eol(original))], Closed(original))
  {
    hide Lines, Count, UsesCrlf, Grantable;
    ClosedUsesCrlf(original);
    OneMore(Closed(original), [], Granted(line, Eol(original)));
    assert [] + [Granted(line, Eol(original))] == [Granted(line, Eol(original))];
    assert Closed(original) + Concat(Written([])) == Closed(original);
  }

  /** After any grants and revokes, whatever the file held before, it is the
      original, closed if it was not, followed by the lines in force in the
      order of their grants. */
  lemma {:induction false} FileIsOriginalAndGrants(original: string, changes: seq<Change>)
    requires forall k :: 0 <= k < |changes| ==> Grantable(changes[k].line) && Count(Lines(original), changes[k].line) == 0
    ensures AllEdited(original, changes) == Expected(original, changes)
    decreases |changes|
  {
    hide Lines, Count, Terminated, Grantable, Fit, Written, Concat, Eol, Edited, InForce, Closed;
    if changes != [] {
      var line := changes[0].line;
      if changes[0].Revoke? {
        assert Edited(original, changes[0]) == original by { NothingRevoked(original, line); }
        FileIsOriginalAndGrants(original, changes[1..]);
      } else {
        FirstGrant(original, line);
        forall k | 1 <= k < |changes| ensures Count(Lines(Closed(original)), changes[k].line) == 0 {
          ClosedCount(original, changes[k].line);
        }
        ClosedCount(original, line);
        BaseAndGrants(Closed(original), [Granted(line, Eol(original))], changes[1..]);
      }
    }
  }

  lemma NothingRevoked(original: string, line: string)
    requires Count(Lines(original), line) == 0
    ensures Edited(original, Revoke(line)) == original
  {
  }

  lemma {:induction false} SameTerminator(granted: seq<Granted>, changes: seq<Change>, eol: string)
    requires forall g :: g in granted ==> g.eol == eol
    ensures forall g :: g in InForce(granted, changes, eol) ==> g.eol == eol
    decreases |changes|
  {
    if changes != [] {
      DroppedFrom(granted, changes[0].line);
      SameTerminator(Next(granted, changes[0], eol), changes[1..], eol);
    }
  }

  /** A grant and its revoke restore the file, up to a missing final
      terminator: that one stays. */
  lemma GrantThenRevoke(contents: string, line: string)
    requires Grantable(line) && Count(Lines(contents), line) == 0
    ensures Removed(Appended(contents, line), line) == Some(Closed(contents))
  {
    hide Lines, Text, Concat, Terminated, Grantable, UsesCrlf;
    var base, last := Closed(contents), line + Eol(contents);
    ClosedCount(contents, line);
    EndedLine(line, Eol(contents));
    assert Appended(contents, line) == base + last;
    LinesAppend(base, last);
    CountAppends(Lines(base), [last], line);
    WithoutAppends(Lines(base), [last], line);
    WithoutNone(Lines(base), line);
    assert Without([last], line) == [];
    assert Lines(base) + [] == Lines(base);
    ConcatLines(base);
  }

  /** The terminator added to an unterminated file is the one later grants
      use, unless the file ends in a lone carriage return. */
  lemma TerminatorShifts(contents: string)
    requires !Terminated(contents)
    ensures Eol(Closed(contents)) != Eol(contents) <==> !UsesCrlf(contents) && contents[|contents| - 1] == '\r'
  {
    CrlfJoin(contents, "\n");
    CrlfJoin(contents, "\r\n");
    assert CrlfAt("\r\n", 1);
  }

  /** Every line in force ends in the terminator the original uses, unless the
      original ends in a lone carriage return. */
  lemma OneTerminator(original: string, line: string, changes: seq<Change>)
    requires Terminated(original) || UsesCrlf(original) || original[|original| - 1] != '\r'
    ensures forall g :: g in InForce([Granted(line, Eol(original))], changes, Eol(Closed(original))) ==> g.eol == Eol(original)
  {
    if !Terminated(original) { TerminatorShifts(original); }
    SameTerminator([Granted(line, Eol(original))], changes, Eol(original));
  }
}
