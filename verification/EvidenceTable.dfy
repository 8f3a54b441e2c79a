/**
 What an accepted Evidence manifest looks like from outside, as one table of
 the files there can be. Nothing here is shared with the validators.
 */
module EvidenceTable {
  import opened Options
  import opened Evidence

  /** One kind of file: where it lies, what it is, how it can have been made,
      whether it is an image, and the first manifest schema that has it. */
  datatype Row = Row(path: string, kind: Kind, mediaType: string, methods: seq<string>, image: bool, since: nat)

  const TABLE: seq<Row> := [
    Row("result/scenario-result.json", ScenarioResult, "application/json", [""], false, 2),
    Row("result/ui-actions.json", UIActionJournal, "application/json", [""], false, 3),
    Row("screenshots/viewport.png", Viewport, "image/png", ["offscreen", "window_grab"], true, 2),
    Row("screenshots/desktop.png", Desktop, "image/png", ["windows-copy-from-screen"], true, 2),
    Row("screenshots/blender-window.png", BlenderWindow, "image/png", ["bpy.ops.screen.screenshot"], true, 2),
    Row("screenshots/blender-window-before-actions.png", BlenderWindow, "image/png", ["bpy.ops.screen.screenshot"], true, 3),
    Row("screenshots/blender-window-after-actions.png", BlenderWindow, "image/png", ["bpy.ops.screen.screenshot"], true, 3)
  ]

  predicate Fits(file: File, row: Row, schema: nat) {
    && file.path == row.path && file.kind == row.kind && file.mediaType == row.mediaType && row.since <= schema
    && file.captureMethod in row.methods
    && (if row.image then file.width >= 1 && file.height >= 1 else file.width == 0 && file.height == 0)
  }

  predicate InTable(file: File, schema: nat) {
    exists k :: 0 <= k < |TABLE| && Fits(file, TABLE[k], schema)
  }

  /** The file was taken in this Run's Session, is where it says it was, and
      has between one byte and 16 MiB. */
  predicate OfSession(file: File, session: Option<nat>) {
    && session.Some? && file.session == session && file.sourcePath == "evidence/" + file.path
    && 1 <= file.size <= 16777216 && file.pathOk && file.hashOk
  }

  /** Two paths a Windows target takes for one. */
  predicate SameFile(p: string, q: string) {
    |p| == |q| && forall i :: 0 <= i < |p| ==> SameLetter(p[i], q[i])
  }

  predicate SameLetter(c: char, d: char) {
    c == d || ('a' <= c <= 'z' && c as int == d as int + 32) || ('a' <= d <= 'z' && d as int == c as int + 32)
  }

  function Bytes(files: seq<File>): int {
    if files == [] then 0 else files[0].size + Bytes(files[1..])
  }

  /** At most 64 files of at most 64 MiB in all, no two the same, each one of
      the table and of this Session. */
  ghost predicate WellFormed(m: Manifest, session: Option<nat>) {
    && (m.schema == 2 || m.schema == 3) && 1 <= |m.files| <= 64 && Bytes(m.files) <= 67108864
    && (forall i :: 0 <= i < |m.files| ==> InTable(m.files[i], m.schema) && OfSession(m.files[i], session))
    && (forall i, j :: 0 <= i < j < |m.files| ==> !SameFile(m.files[i].path, m.files[j].path))
  }

  lemma KeyExactly(p: string, q: string)
    ensures Key(p) == Key(q) <==> SameFile(p, q)
  {
    if SameFile(p, q) {
      assert forall i :: 0 <= i < |p| ==> SameLetter(p[i], q[i]);
    }
    if Key(p) == Key(q) {
      forall i | 0 <= i < |p| ensures SameLetter(p[i], q[i]) {
        assert Key(p)[i] == Key(q)[i];
      }
    }
  }

  lemma FileExactly(file: File, schema: nat, session: Option<nat>)
    requires schema == 2 || schema == 3
    ensures FileOk(file, schema, session) <==> InTable(file, schema) && OfSession(file, session)
  {
    PathLengths();
    if FileOk(file, schema, session) {
      var k := match file.kind
        case ScenarioResult => 0
        case UIActionJournal => 1
        case Viewport => 2
        case Desktop => 3
        case _ => if file.path == EvidencePath(BlenderWindow) then 4 else if file.path == BEFORE_PATH then 5 else 6;
      assert Fits(file, TABLE[k], schema);
    }
  }

  lemma {:induction false} BytesExactly(files: seq<File>, n: nat)
    requires n <= |files|
    ensures Total(files) == Total(files[..n]) + Bytes(files[n..])
    decreases |files| - n
  {
    if n == |files| {
      assert files[..n] == files;
    } else {
      BytesExactly(files, n + 1);
      assert files[..n + 1][..n] == files[..n] && files[n..][1..] == files[n + 1..];
    }
  }

  lemma ManifestExactly(m: Manifest, session: Option<nat>)
    ensures ManifestOk(m, session) <==> WellFormed(m, session)
  {
    hide FileOk, InTable, OfSession, Key, SameFile;
    BytesExactly(m.files, 0);
    assert m.files[0..] == m.files && m.files[..0] == [];
    if m.schema == 2 || m.schema == 3 {
      forall i | 0 <= i < |m.files|
        ensures FileOk(m.files[i], m.schema, session) <==> InTable(m.files[i], m.schema) && OfSession(m.files[i], session)
      {
        FileExactly(m.files[i], m.schema, session);
      }
      forall i, j | 0 <= i < j < |m.files|
        ensures Key(m.files[i].path) == Key(m.files[j].path) <==> SameFile(m.files[i].path, m.files[j].path)
      {
        KeyExactly(m.files[i].path, m.files[j].path);
      }
    }
  }

  /** `ValidateEvidence` accepts exactly the manifests of this shape with the
      announced captures, the Scenario Result and the UI journal, each once. */
  lemma AcceptedShape(m: Manifest, scenario: Scenario, session: Option<nat>)
    ensures Accepted(m, scenario, session) <==> WellFormed(m, session) && HasExactly(m, scenario)
  {
    hide ManifestOk, WellFormed, HasExactly, PartialOk, RequiredOk;
    ManifestExactly(m, session);
    if ManifestOk(m, session) {
      AcceptedExactly(m, scenario, session);
    }
  }

  /** The paths announced, written out: one window capture around a batch is
      two, and a Scenario without UI actions has no journal. */
  lemma AnnouncedExactly(scenario: Scenario, p: string)
    ensures p in ExpectedPaths(scenario) <==>
              || p == "result/scenario-result.json"
              || (scenario.uiActions && p == "result/ui-actions.json")
              || (scenario.viewport && p == "screenshots/viewport.png")
              || (scenario.desktop && p == "screenshots/desktop.png")
              || (scenario.blenderWindow && !scenario.uiActions && p == "screenshots/blender-window.png")
              || (scenario.blenderWindow && scenario.uiActions
                  && (p == "screenshots/blender-window-before-actions.png" || p == "screenshots/blender-window-after-actions.png"))
  {
    PathLengths();
  }
}
