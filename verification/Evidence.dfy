/**
 The evidence a Run announces and the manifest it is accepted with: `Plan`
 lists capture paths in a loop, the validators count types and paths in maps.
 */
module Evidence {
  import opened Options

  datatype Kind = ScenarioResult | UIActionJournal | Viewport | BlenderWindow | Desktop | Unknown(name: string)

  datatype Scenario = Scenario(viewport: bool, blenderWindow: bool, desktop: bool, uiActions: bool)

  /** `pathOk` and `hashOk` are the path grammar and the digest format. */
  datatype File = File(path: string, kind: Kind, sourcePath: string, mediaType: string, captureMethod: string,
                       width: int, height: int, size: int, session: Option<nat>, pathOk: bool, hashOk: bool)

  datatype Manifest = Manifest(schema: nat, files: seq<File>)

  const RESULT_PATH := "result/scenario-result.json"
  const JOURNAL_PATH := "result/ui-actions.json"
  const BEFORE_PATH := "screenshots/blender-window-before-actions.png"
  const AFTER_PATH := "screenshots/blender-window-after-actions.png"
  const MAX_FILES := 64
  const MAX_FILE := 0x100_0000
  const MAX_TOTAL := 0x400_0000

  predicate IsCapture(kind: Kind) { kind.Viewport? || kind.BlenderWindow? || kind.Desktop? }

  /** `capture.Describe`. */
  function EvidencePath(kind: Kind): string
    requires IsCapture(kind)
  {
    match kind
    case Viewport => "screenshots/viewport.png"
    case BlenderWindow => "screenshots/blender-window.png"
    case Desktop => "screenshots/desktop.png"
  }

  /** `capture.MethodAllowed`. */
  predicate MethodAllowed(kind: Kind, name: string) {
    match kind
    case Viewport => name == "offscreen" || name == "window_grab"
    case BlenderWindow => name == "bpy.ops.screen.screenshot"
    case Desktop => name == "windows-copy-from-screen"
    case _ => false
  }

  function Captures(scenario: Scenario): seq<Kind> {
    (if scenario.viewport then [Viewport] else [])
    + (if scenario.blenderWindow then [BlenderWindow] else [])
    + (if scenario.desktop then [Desktop] else [])
  }

  function UpperChar(c: char): char { if 'a' <= c <= 'z' then c - 'a' + 'A' else c }

  /** `safepath.WindowsKey`, on ASCII. */
  function Key(path: string): string { seq(|path|, i requires 0 <= i < |path| => UpperChar(path[i])) }

  // ----- what is announced -----

  function PlannedPaths(scenario: Scenario): seq<string> {
    (if scenario.viewport then [EvidencePath(Viewport)] else [])
    + (if !scenario.blenderWindow then [] else if scenario.uiActions then [BEFORE_PATH, AFTER_PATH] else [EvidencePath(BlenderWindow)])
    + (if scenario.desktop then [EvidencePath(Desktop)] else [])
  }

  /** `Plan`: the captures announced, a window capture around a batch twice. */
  method Plan(scenario: Scenario) returns (paths: seq<string>)
    ensures paths == PlannedPaths(scenario)
  {
    hide EvidencePath, PlannedOf, PlannedPaths;
    paths := [];
    var kinds := Captures(scenario);
    assert kinds[..0] == [];
    PlannedNothing(scenario);
    for k := 0 to |kinds|
      invariant paths == PlannedOf(kinds[..k], scenario)
    {
      PlannedOneMore(kinds, k, scenario);
      paths := paths + [EvidencePath(kinds[k])];
      if kinds[k].BlenderWindow? && scenario.uiActions {
        paths := paths[|paths| - 1 := BEFORE_PATH] + [AFTER_PATH];
      }
    }
    assert kinds[..|kinds|] == kinds;
    PlannedInOrder(scenario);
  }

  lemma PlannedNothing(scenario: Scenario)
    ensures PlannedOf([], scenario) == []
  {
  }

  lemma PlannedOneMore(kinds: seq<Kind>, k: nat, scenario: Scenario)
    requires k < |kinds| && forall kind :: kind in kinds ==> IsCapture(kind)
    ensures PlannedOf(kinds[..k + 1], scenario) ==
            PlannedOf(kinds[..k], scenario)
            + if kinds[k].BlenderWindow? && scenario.uiActions then [BEFORE_PATH, AFTER_PATH] else [EvidencePath(kinds[k])]
  {
    assert kinds[..k + 1][..k] == kinds[..k];
  }

  function PlannedOf(kinds: seq<Kind>, scenario: Scenario): seq<string>
    requires forall k :: k in kinds ==> IsCapture(k)
  {
    if kinds == [] then []
    else
      var last := kinds[|kinds| - 1];
      PlannedOf(kinds[..|kinds| - 1], scenario)
      + if last.BlenderWindow? && scenario.uiActions then [BEFORE_PATH, AFTER_PATH] else [EvidencePath(last)]
  }

  lemma PlannedPush(kinds: seq<Kind>, last: Kind, scenario: Scenario)
    requires IsCapture(last) && forall kind :: kind in kinds ==> IsCapture(kind)
    ensures PlannedOf(kinds + [last], scenario) ==
            PlannedOf(kinds, scenario)
            + if last.BlenderWindow? && scenario.uiActions then [BEFORE_PATH, AFTER_PATH] else [EvidencePath(last)]
  {
    assert (kinds + [last])[..|kinds|] == kinds;
  }

  lemma PlannedInOrder(scenario: Scenario)
    ensures PlannedOf(Captures(scenario), scenario) == PlannedPaths(scenario)
  {
    hide EvidencePath, PlannedOf;
    var v, w := if scenario.viewport then [Viewport] else [], if scenario.blenderWindow then [BlenderWindow] else [];
    PlannedNothing(scenario);
    assert v + [] == v && v + w + [] == v + w;
    if scenario.viewport {
      assert [] + [Viewport] == v;
      PlannedPush([], Viewport, scenario);
    }
    if scenario.blenderWindow { PlannedPush(v, BlenderWindow, scenario); }
    if scenario.desktop { PlannedPush(v + w, Desktop, scenario); }
  }

  /** Every path an accepted manifest must have. */
  function ExpectedPaths(scenario: Scenario): seq<string> {
    [RESULT_PATH] + (if scenario.uiActions then [JOURNAL_PATH] else []) + PlannedPaths(scenario)
  }

  // ----- the validators -----

  /** `validateEvidenceFileForSchema`, for the schemas with provenance. */
  predicate FileOk(file: File, schema: nat, session: Option<nat>) {
    && file.pathOk && file.hashOk && 0 < file.size <= MAX_FILE
    && file.sourcePath == "evidence/" + file.path && session.Some? && file.session == session
    && match file.kind
       case ScenarioResult =>
         file.path == RESULT_PATH && file.mediaType == "application/json" && file.captureMethod == "" && file.width == 0 == file.height
       case UIActionJournal =>
         && schema == 3 && file.path == JOURNAL_PATH
         && file.mediaType == "application/json" && file.captureMethod == "" && file.width == 0 == file.height
       case Unknown(_) => false
       case kind =>
         && (file.path == EvidencePath(kind) || (schema == 3 && kind.BlenderWindow? && file.path in [BEFORE_PATH, AFTER_PATH]))
         && file.mediaType == "image/png" && MethodAllowed(kind, file.captureMethod) && file.width > 0 && file.height > 0
  }

  function Total(files: seq<File>): int {
    if files == [] then 0 else Total(files[..|files| - 1]) + files[|files| - 1].size
  }

  predicate Distinct(files: seq<File>) {
    forall i, j :: 0 <= i < j < |files| ==> Key(files[i].path) != Key(files[j].path)
  }

  predicate ManifestOk(m: Manifest, session: Option<nat>) {
    && (m.schema == 2 || m.schema == 3) && 0 < |m.files| <= MAX_FILES
    && (forall i :: 0 <= i < |m.files| ==> FileOk(m.files[i], m.schema, session))
    && Distinct(m.files) && Total(m.files) <= MAX_TOTAL
  }

  /** `validateEvidenceManifest`. */
  method ValidateManifest(m: Manifest, session: Option<nat>) returns (ok: bool)
    requires m.schema != 1
    ensures ok == ManifestOk(m, session)
  {
    hide FileOk, Key, Total, Distinct;
    if m.schema != 2 && m.schema != 3 { return false; }
    if |m.files| == 0 || |m.files| > MAX_FILES { return false; }
    var total := 0;
    var seen: set<string> := {};
    NothingSeen(m.files);
    for k := 0 to |m.files|
      invariant forall i :: 0 <= i < k ==> FileOk(m.files[i], m.schema, session)
      invariant Distinct(m.files[..k]) && total == Total(m.files[..k]) <= MAX_TOTAL && seen == Keys(m.files[..k])
    {
      var file := m.files[k];
      if !FileOk(file, m.schema, session) { return false; }
      SeenOneMore(m.files, k);
      if Key(file.path) in seen { return false; }
      seen := seen + {Key(file.path)};
      total := total + file.size;
      if total > MAX_TOTAL {
        TotalGrows(m.files, k + 1, m.schema, session);
        return false;
      }
    }
    assert m.files[..|m.files|] == m.files;
    ok := true;
  }

  function Keys(files: seq<File>): set<string> {
    set i | 0 <= i < |files| :: Key(files[i].path)
  }

  lemma NothingSeen(files: seq<File>)
    ensures Keys(files[..0]) == {} && Distinct(files[..0]) && Total(files[..0]) == 0
  {
  }

  lemma SeenOneMore(files: seq<File>, k: nat)
    requires k < |files| && Distinct(files[..k])
    ensures Keys(files[..k + 1]) == Keys(files[..k]) + {Key(files[k].path)}
    ensures Total(files[..k + 1]) == Total(files[..k]) + files[k].size
    ensures Distinct(files[..k + 1]) <==> Key(files[k].path) !in Keys(files[..k])
    ensures Distinct(files) ==> Distinct(files[..k + 1])
  {
    hide Key;
    var longer := files[..k + 1];
    assert longer[..k] == files[..k];
    forall key ensures key in Keys(longer) <==> key in Keys(files[..k]) || key == Key(files[k].path) {
      if key in Keys(files[..k]) {
        var i :| 0 <= i < k && Key(files[..k][i].path) == key;
        assert Key(longer[i].path) == key;
      }
      assert Key(longer[k].path) == Key(files[k].path);
    }
    if Key(files[k].path) in Keys(files[..k]) {
      var i :| 0 <= i < k && Key(files[..k][i].path) == Key(files[k].path);
      assert Key(longer[i].path) == Key(longer[k].path);
    } else {
      forall i, j | 0 <= i < j < |longer| ensures Key(longer[i].path) != Key(longer[j].path) {
        if j < k {
          assert longer[i] == files[..k][i] && longer[j] == files[..k][j];
        } else {
          assert Key(files[..k][i].path) in Keys(files[..k]);
        }
      }
    }
  }

  lemma {:induction false} TotalGrows(files: seq<File>, k: nat, schema: nat, session: Option<nat>)
    requires k <= |files|
    ensures (forall i :: 0 <= i < |files| ==> FileOk(files[i], schema, session)) ==> Total(files[..k]) <= Total(files)
    decreases |files| - k
  {
    if k == |files| {
      assert files[..k] == files;
    } else {
      TotalGrows(files, k + 1, schema, session);
      assert files[..k + 1][..k] == files[..k];
    }
  }

  predicate Allowed(path: string, scenario: Scenario) {
    || path == RESULT_PATH
    || (scenario.viewport && path == EvidencePath(Viewport)) || (scenario.desktop && path == EvidencePath(Desktop))
    || (scenario.uiActions && path == JOURNAL_PATH)
    || (scenario.blenderWindow && if scenario.uiActions then path in [BEFORE_PATH, AFTER_PATH] else path == EvidencePath(BlenderWindow))
  }

  predicate PartialOk(m: Manifest, scenario: Scenario) {
    m.schema == 3 ==> forall i :: 0 <= i < |m.files| ==> Allowed(m.files[i].path, scenario)
  }

  /** `validatePartialEvidence`. */
  method ValidatePartial(m: Manifest, scenario: Scenario) returns (ok: bool)
    ensures ok == PartialOk(m, scenario)
  {
    if m.schema != 3 { return true; }
    var allowed := {RESULT_PATH};
    if scenario.viewport { allowed := allowed + {EvidencePath(Viewport)}; }
    if scenario.blenderWindow { allowed := allowed + {EvidencePath(BlenderWindow)}; }
    if scenario.desktop { allowed := allowed + {EvidencePath(Desktop)}; }
    if scenario.uiActions {
      allowed := allowed + {JOURNAL_PATH};
      if scenario.blenderWindow { allowed := allowed - {EvidencePath(BlenderWindow)} + {BEFORE_PATH, AFTER_PATH}; }
    }
    PathLengths();
    assert forall p :: p in allowed <==> Allowed(p, scenario);
    for k := 0 to |m.files|
      invariant forall i :: 0 <= i < k ==> Allowed(m.files[i].path, scenario)
    {
      if m.files[k].path !in allowed { return false; }
    }
    ok := true;
  }

  lemma PathLengths()
    ensures |RESULT_PATH| == 27 && |JOURNAL_PATH| == 22 && |BEFORE_PATH| == 45 && |AFTER_PATH| == 44
    ensures |EvidencePath(Viewport)| == 24 && |EvidencePath(BlenderWindow)| == 30 && |EvidencePath(Desktop)| == 23
  {
  }

  // ----- counting -----

  function Want(scenario: Scenario, kind: Kind): nat {
    match kind
    case ScenarioResult => 1
    case UIActionJournal => if scenario.uiActions then 1 else 0
    case Viewport => if scenario.viewport then 1 else 0
    case BlenderWindow => if !scenario.blenderWindow then 0 else if scenario.uiActions then 2 else 1
    case Desktop => if scenario.desktop then 1 else 0
    case Unknown(_) => 0
  }

  function Count(files: seq<File>, kind: Kind): nat {
    if files == [] then 0
    else Count(files[..|files| - 1], kind) + if files[|files| - 1].kind == kind then 1 else 0
  }

  ghost predicate RequiredOk(m: Manifest, scenario: Scenario) {
    && (forall i :: 0 <= i < |m.files| ==> !m.files[i].kind.Unknown?)
    && forall kind :: Count(m.files, kind) == Want(scenario, kind)
  }

  /** A Go map read: an absent key counts zero. */
  function At(counts: map<Kind, nat>, kind: Kind): nat { if kind in counts then counts[kind] else 0 }

  /** `validateRequiredEvidence`: what was found is counted, then compared with
      what is wanted in both directions. */
  method ValidateRequired(m: Manifest, scenario: Scenario) returns (ok: bool)
    ensures ok == RequiredOk(m, scenario)
  {
    var want := Wanted(scenario);
    var got: map<Kind, nat> := map[];
    for k := 0 to |m.files|
      invariant forall i :: 0 <= i < k ==> !m.files[i].kind.Unknown?
      invariant forall kind :: At(got, kind) == Count(m.files[..k], kind)
      invariant forall kind :: kind in got ==> got[kind] > 0
    {
      var kind := m.files[k].kind;
      assert m.files[..k + 1][..k] == m.files[..k];
      if kind.Unknown? { return false; }
      got := got[kind := At(got, kind) + 1];
    }
    assert m.files[..|m.files|] == m.files;
    var kinds := got.Keys;
    while kinds != {}
      invariant kinds <= got.Keys
      invariant forall kind :: kind in got && kind !in kinds ==> At(want, kind) == got[kind]
    {
      var kind :| kind in kinds;
      if At(want, kind) == 0 || got[kind] != At(want, kind) {
        assert Count(m.files, kind) != Want(scenario, kind);
        return false;
      }
      kinds := kinds - {kind};
    }
    kinds := want.Keys;
    while kinds != {}
      invariant kinds <= want.Keys
      invariant forall kind :: kind in want && kind !in kinds ==> At(got, kind) == want[kind]
    {
      var kind :| kind in kinds;
      if At(got, kind) != want[kind] {
        assert Count(m.files, kind) != Want(scenario, kind);
        return false;
      }
      kinds := kinds - {kind};
    }
    ok := true;
  }

  method Wanted(scenario: Scenario) returns (want: map<Kind, nat>)
    ensures forall kind :: At(want, kind) == Want(scenario, kind)
  {
    want := map[ScenarioResult := 1];
    if scenario.viewport { want := want[Viewport := 1]; }
    if scenario.blenderWindow { want := want[BlenderWindow := 1]; }
    if scenario.desktop { want := want[Desktop := 1]; }
    if scenario.uiActions {
      want := want[UIActionJournal := 1];
      if scenario.blenderWindow { want := want[BlenderWindow := 2]; }
    }
  }

  ghost predicate Accepted(m: Manifest, scenario: Scenario, session: Option<nat>) {
    ManifestOk(m, session) && PartialOk(m, scenario) && RequiredOk(m, scenario)
  }

  /** `ValidateEvidence`. */
  method ValidateEvidence(m: Manifest, scenario: Scenario, session: Option<nat>) returns (ok: bool)
    requires m.schema != 1
    ensures ok <==> Accepted(m, scenario, session)
  {
    ok := ValidateManifest(m, session);
    if ok { ok := ValidatePartial(m, scenario); }
    if ok { ok := ValidateRequired(m, scenario); }
  }

  // ----- counted types against unique, constrained paths -----

  lemma {:induction false} SomeOf(files: seq<File>, kind: Kind) returns (i: nat)
    requires Count(files, kind) > 0
    ensures i < |files| && files[i].kind == kind && Count(files[..i], kind) == Count(files, kind) - 1
  {
    if files[|files| - 1].kind == kind {
      i := |files| - 1;
    } else {
      i := SomeOf(files[..|files| - 1], kind);
      assert files[..|files| - 1][..i] == files[..i];
    }
  }

  lemma {:induction false} CountsOne(files: seq<File>, kind: Kind, i: nat)
    requires i < |files| && files[i].kind == kind
    ensures Count(files, kind) > Count(files[..i], kind)
  {
    if i < |files| - 1 {
      CountsOne(files[..|files| - 1], kind, i);
      assert files[..|files| - 1][..i] == files[..i];
    }
  }

  ghost predicate Has(m: Manifest, path: string) {
    exists i :: 0 <= i < |m.files| && m.files[i].path == path
  }

  /** Exactly the announced captures, the Scenario Result and the UI journal,
      each once. */
  ghost predicate HasExactly(m: Manifest, scenario: Scenario) {
    && (forall p :: p in ExpectedPaths(scenario) ==> Has(m, p))
    && (forall i :: 0 <= i < |m.files| ==> m.files[i].path in ExpectedPaths(scenario))
    && (forall i, j :: 0 <= i < j < |m.files| ==> m.files[i].path != m.files[j].path)
  }

  lemma PathsDistinct(m: Manifest, session: Option<nat>)
    requires ManifestOk(m, session)
    ensures forall i, j :: 0 <= i < j < |m.files| ==> m.files[i].path != m.files[j].path
  {
  }

  /** Each file's path follows from its type, except for the two captures
      around a batch. */
  lemma PathOfKind(m: Manifest, scenario: Scenario, session: Option<nat>, i: nat)
    requires Accepted(m, scenario, session) && i < |m.files|
    ensures m.files[i].path in ExpectedPaths(scenario)
    ensures Want(scenario, m.files[i].kind) > 0
    ensures scenario.uiActions ==> m.schema == 3
    ensures m.files[i].kind.BlenderWindow? ==>
              if scenario.uiActions then m.files[i].path in [BEFORE_PATH, AFTER_PATH] else m.files[i].path == EvidencePath(BlenderWindow)
  {
    var file := m.files[i];
    assert FileOk(file, m.schema, session);
    CountsOne(m.files, file.kind, i);
    assert Count(m.files, file.kind) == Want(scenario, file.kind);
    if scenario.uiActions {
      assert Count(m.files, UIActionJournal) == Want(scenario, UIActionJournal) == 1;
      var j := SomeOf(m.files, UIActionJournal);
      assert FileOk(m.files[j], m.schema, session);
    }
    PathLengths();
  }

  lemma HasKind(m: Manifest, scenario: Scenario, session: Option<nat>, kind: Kind)
    requires Accepted(m, scenario, session) && Want(scenario, kind) == 1
    ensures exists i :: 0 <= i < |m.files| && m.files[i].kind == kind
  {
    assert Count(m.files, kind) == 1;
    var i := SomeOf(m.files, kind);
  }

  lemma HasBoth(m: Manifest, scenario: Scenario, session: Option<nat>)
    requires Accepted(m, scenario, session) && scenario.blenderWindow && scenario.uiActions
    ensures Has(m, BEFORE_PATH) && Has(m, AFTER_PATH)
  {
    hide FileOk, ExpectedPaths, Key, Total, PlannedPaths, Allowed;
    assert Count(m.files, BlenderWindow) == Want(scenario, BlenderWindow) == 2;
    var j := SomeOf(m.files, BlenderWindow);
    var i := SomeOf(m.files[..j], BlenderWindow);
    assert m.files[..j][i] == m.files[i];
    PathOfKind(m, scenario, session, i);
    PathOfKind(m, scenario, session, j);
    PathsDistinct(m, session);
  }

  lemma HasExpected(m: Manifest, scenario: Scenario, session: Option<nat>, p: string)
    requires Accepted(m, scenario, session) && p in ExpectedPaths(scenario)
    ensures Has(m, p)
  {
    hide Accepted, ExpectedPaths, PlannedPaths, Want;
    ExpectedKind(scenario, p);
    if p in [BEFORE_PATH, AFTER_PATH] {
      HasBoth(m, scenario, session);
    } else {
      HasKind(m, scenario, session, KindOf(p));
      var i :| 0 <= i < |m.files| && m.files[i].kind == KindOf(p);
      PathOfKind(m, scenario, session, i);
      KindsOwnPath(m, scenario, session, i);
    }
  }

  lemma KindsOwnPath(m: Manifest, scenario: Scenario, session: Option<nat>, i: nat)
    requires Accepted(m, scenario, session) && i < |m.files|
    ensures FileOk(m.files[i], m.schema, session)
  {
  }

  /** An accepted manifest of schema 2 or 3 has exactly the expected paths. */
  lemma AcceptedPaths(m: Manifest, scenario: Scenario, session: Option<nat>)
    requires Accepted(m, scenario, session)
    ensures HasExactly(m, scenario)
  {
    hide Accepted, ExpectedPaths, Has, FileOk;
    assert ManifestOk(m, session) by { AcceptedManifest(m, scenario, session); }
    PathsDistinct(m, session);
    forall i | 0 <= i < |m.files| ensures m.files[i].path in ExpectedPaths(scenario) {
      PathOfKind(m, scenario, session, i);
    }
    forall p | p in ExpectedPaths(scenario) ensures Has(m, p) {
      HasExpected(m, scenario, session, p);
    }
  }

  lemma AcceptedManifest(m: Manifest, scenario: Scenario, session: Option<nat>)
    requires Accepted(m, scenario, session)
    ensures ManifestOk(m, session)
  {
  }

  function KindOf(path: string): Kind {
    if path == RESULT_PATH then ScenarioResult
    else if path == JOURNAL_PATH then UIActionJournal
    else if path == EvidencePath(Viewport) then Viewport
    else if path == EvidencePath(Desktop) then Desktop
    else BlenderWindow
  }

  lemma ExpectedKind(scenario: Scenario, p: string)
    requires p in ExpectedPaths(scenario)
    ensures if p in [BEFORE_PATH, AFTER_PATH] then scenario.blenderWindow && scenario.uiActions
            else Want(scenario, KindOf(p)) == 1 && (KindOf(p).BlenderWindow? ==> p == EvidencePath(BlenderWindow) && !scenario.uiActions)
  {
    PathLengths();
  }

  // ----- the converse -----

  lemma KindFollows(file: File, schema: nat, session: Option<nat>)
    requires FileOk(file, schema, session)
    ensures file.kind == KindOf(file.path)
    ensures !file.kind.BlenderWindow? ==> file.path == PathOf(file.kind)
    ensures file.kind.BlenderWindow? ==> file.path in [EvidencePath(BlenderWindow), BEFORE_PATH, AFTER_PATH]
  {
    PathLengths();
  }

  function PathOf(kind: Kind): string {
    match kind
    case ScenarioResult => RESULT_PATH
    case UIActionJournal => JOURNAL_PATH
    case Unknown(name) => name
    case _ => EvidencePath(kind)
  }

  lemma ExpectedOf(scenario: Scenario, kind: Kind)
    ensures KindOf(PathOf(kind)) == kind && !kind.BlenderWindow? ==> (PathOf(kind) in ExpectedPaths(scenario) <==> Want(scenario, kind) == 1)
    ensures EvidencePath(BlenderWindow) in ExpectedPaths(scenario) <==> scenario.blenderWindow && !scenario.uiActions
    ensures BEFORE_PATH in ExpectedPaths(scenario) <==> scenario.blenderWindow && scenario.uiActions
    ensures AFTER_PATH in ExpectedPaths(scenario) <==> scenario.blenderWindow && scenario.uiActions
    ensures KindOf(BEFORE_PATH) == KindOf(AFTER_PATH) == KindOf(EvidencePath(BlenderWindow)) == BlenderWindow
  {
    PathLengths();
  }

  lemma OneFile(m: Manifest, scenario: Scenario, session: Option<nat>, kind: Kind)
    requires ManifestOk(m, session) && HasExactly(m, scenario) && !kind.BlenderWindow?
    ensures Count(m.files, kind) == Want(scenario, kind)
  {
    hide ExpectedPaths, FileOk, KindOf, PathOf;
    ExpectedOf(scenario, kind);
    if Count(m.files, kind) > 0 {
      var j := SomeOf(m.files, kind);
      KindFollows(m.files[j], m.schema, session);
      if Count(m.files[..j], kind) > 0 {
        var i := SomeOf(m.files[..j], kind);
        KindFollows(m.files[i], m.schema, session);
      }
    }
    if Want(scenario, kind) == 1 && Count(m.files, kind) == 0 {
      NamedKind(scenario, kind);
      var i :| 0 <= i < |m.files| && m.files[i].path == PathOf(kind);
      KindFollows(m.files[i], m.schema, session);
      CountsOne(m.files, kind, i);
    }
  }

  lemma NamedKind(scenario: Scenario, kind: Kind)
    requires Want(scenario, kind) == 1 && !kind.BlenderWindow?
    ensures KindOf(PathOf(kind)) == kind && PathOf(kind) in ExpectedPaths(scenario)
  {
    PathLengths();
  }

  /** Files of the window capture have distinct paths among those expected. */
  lemma WindowFile(m: Manifest, scenario: Scenario, session: Option<nat>, i: nat)
    requires ManifestOk(m, session) && HasExactly(m, scenario) && i < |m.files| && m.files[i].kind.BlenderWindow?
    ensures scenario.blenderWindow
    ensures if scenario.uiActions then m.files[i].path in [BEFORE_PATH, AFTER_PATH] else m.files[i].path == EvidencePath(BlenderWindow)
  {
    hide ExpectedPaths, FileOk, KindOf;
    KindFollows(m.files[i], m.schema, session);
    ExpectedOf(scenario, BlenderWindow);
  }

  lemma {:induction false} WindowAtMost(m: Manifest, scenario: Scenario, session: Option<nat>, n: nat)
    requires ManifestOk(m, session) && HasExactly(m, scenario) && n <= |m.files|
    ensures Count(m.files[..n], BlenderWindow) <= Want(scenario, BlenderWindow)
  {
    hide ExpectedPaths, FileOk, ManifestOk, HasExactly;
    var files := m.files[..n];
    if Count(files, BlenderWindow) > 0 {
      var k := SomeOf(files, BlenderWindow);
      WindowFile(m, scenario, session, k);
      assert files[..k] == m.files[..k];
      if Count(m.files[..k], BlenderWindow) > 0 {
        var j := SomeOf(m.files[..k], BlenderWindow);
        WindowFile(m, scenario, session, j);
        OtherPath(m, scenario, j, k);
        assert m.files[..k][..j] == m.files[..j];
        if Count(m.files[..j], BlenderWindow) > 0 {
          var i := SomeOf(m.files[..j], BlenderWindow);
          WindowFile(m, scenario, session, i);
          OtherPath(m, scenario, i, j);
          OtherPath(m, scenario, i, k);
        }
      }
    }
  }

  lemma OtherPath(m: Manifest, scenario: Scenario, i: nat, j: nat)
    requires HasExactly(m, scenario) && i < j < |m.files|
    ensures m.files[i].path != m.files[j].path
  {
  }

  lemma OneWindow(m: Manifest, scenario: Scenario, session: Option<nat>)
    requires ManifestOk(m, session) && HasExactly(m, scenario) && scenario.blenderWindow && !scenario.uiActions
    ensures Count(m.files, BlenderWindow) >= 1
  {
    hide ExpectedPaths, FileOk, KindOf, Distinct;
    ExpectedOf(scenario, BlenderWindow);
    var i :| 0 <= i < |m.files| && m.files[i].path == EvidencePath(BlenderWindow);
    KindFollows(m.files[i], m.schema, session);
    CountsOne(m.files, BlenderWindow, i);
  }

  lemma TwoWindows(m: Manifest, scenario: Scenario, session: Option<nat>)
    requires ManifestOk(m, session) && HasExactly(m, scenario) && scenario.blenderWindow && scenario.uiActions
    ensures Count(m.files, BlenderWindow) >= 2
  {
    hide ExpectedPaths, FileOk, KindOf, Distinct;
    ExpectedOf(scenario, BlenderWindow);
    var i :| 0 <= i < |m.files| && m.files[i].path == BEFORE_PATH;
    var j :| 0 <= j < |m.files| && m.files[j].path == AFTER_PATH;
    KindFollows(m.files[i], m.schema, session);
    KindFollows(m.files[j], m.schema, session);
    PathLengths();
    TwoCounted(m.files, BlenderWindow, if i < j then i else j, if i < j then j else i);
  }

  lemma TwoCounted(files: seq<File>, kind: Kind, low: nat, high: nat)
    requires low < high < |files| && files[low].kind == kind && files[high].kind == kind
    ensures Count(files, kind) >= 2
  {
    CountsOne(files, kind, high);
    CountsOne(files[..high], kind, low);
  }

  lemma WindowAtLeast(m: Manifest, scenario: Scenario, session: Option<nat>)
    requires ManifestOk(m, session) && HasExactly(m, scenario)
    ensures Count(m.files, BlenderWindow) >= Want(scenario, BlenderWindow)
  {
    hide ManifestOk, HasExactly, ExpectedPaths;
    if scenario.blenderWindow && !scenario.uiActions {
      OneWindow(m, scenario, session);
    } else if scenario.blenderWindow {
      TwoWindows(m, scenario, session);
    }
  }

  /** The validators accept exactly the well-formed manifests with the expected
      paths, each once. */
  lemma AcceptedExactly(m: Manifest, scenario: Scenario, session: Option<nat>)
    requires ManifestOk(m, session)
    ensures Accepted(m, scenario, session) <==> HasExactly(m, scenario)
  {
    hide ManifestOk, HasExactly, Want;
    if Accepted(m, scenario, session) {
      AcceptedPaths(m, scenario, session);
    }
    if HasExactly(m, scenario) {
      forall kind ensures Count(m.files, kind) == Want(scenario, kind) {
        if kind.BlenderWindow? {
          WindowAtMost(m, scenario, session, |m.files|);
          WindowAtLeast(m, scenario, session);
          assert m.files[..|m.files|] == m.files;
        } else {
          OneFile(m, scenario, session, kind);
        }
      }
      forall i | 0 <= i < |m.files| ensures !m.files[i].kind.Unknown? && Allowed(m.files[i].path, scenario) {
        ExpectedFile(m, scenario, session, i);
      }
    }
  }

  lemma ExpectedFile(m: Manifest, scenario: Scenario, session: Option<nat>, i: nat)
    requires ManifestOk(m, session) && HasExactly(m, scenario) && i < |m.files|
    ensures !m.files[i].kind.Unknown? && Allowed(m.files[i].path, scenario)
  {
    assert FileOk(m.files[i], m.schema, session);
  }
}
