/**
 The checkpoint chain of one host installation: the record shapes, the checker
 that admits a new record after the latest one, and what every admitted chain
 keeps. A JSON object is a `Doc` whose absent keys are `None`. Digests are
 injective: a record's `previous` is the record it digests.
 */
module InstallationChain {
  import opened Options

  datatype Operation = Install | Remove
  datatype HostState = Planned | HostInstalled | HostRemoved | Partial
  datatype Preview = Preview(plan: nat, inspection: nat, state: HostState, sound: bool)
  datatype Intent = Intent(operation: Operation, operationId: nat, installationId: nat, preview: Preview, targetOut: bool)

  datatype Process = ProcessUnknown | ProcessStarted | NotStarted
  /** The identity of one physical execution of the installer. */
  datatype Pin = Pin(token: nat, request: nat, deadline: nat, process: Process, keeper: Option<nat>, worker: Option<nat>)
  datatype Publication = Published | PublicationFailed | NotPublished | NotRequested
  /** One status answer of the installer. `wellFormed` holds when the fields of
      the execution fit together: it is `terminal` only with everything cleaned
      up. `released` tells whether its fence is gone, `stalled` that only the
      launcher's cleanup is unknown. `target` stands for the published target
      and the installed files together. */
  datatype Observation = Observation(
    installationId: nat, operationId: nat, plan: nat, inspection: nat, publication: Publication,
    pin: Pin, wellFormed: bool, terminal: bool, released: bool, stalled: bool, state: HostState, target: nat)
  {
    predicate Settled() { terminal && released }
  }

  datatype Pairing = Pairing(pairId: nat, offer: nat, intent: nat, receipt: Option<nat>, paired: Option<nat>)

  /** The target a Run was started against: the digest of a document of the
      installed target or, in another schema, of the paired one. */
  datatype Fingerprint = OfTarget(fields: nat) | OfPaired(fields: nat)

  /** `request` stands for the request's identity, hash and deadline. */
  datatype Claim = Claim(runId: nat, request: nat, controller: nat, task: nat)
  datatype SessionPin = SessionPin(hash: nat, runId: nat, claim: Claim, fingerprint: Fingerprint, id: nat)
  datatype Run = Run(runId: nat, marker: nat, journal: nat, claim: Claim, fingerprint: Fingerprint, session: Option<SessionPin>)
  datatype Repeat = Pending | Released | Verified
  datatype Method = ByClient | HostLocal | NeverGranted
  datatype Revocation = Revocation(pairId: nat, how: Method)
  datatype HostView = HostView(installationAbsent: bool, taskAbsent: bool, targetAbsent: bool, files: nat, tasks: nat)

  datatype Stage =
    | Bound | InstallReleased | InstallObserved | Installed | TargetBound | PairReleased | Paired
    | RunReleased | RunOwned | RunClean | UnpairReleased | Unpaired | RemoveReleased | RemoveObserved | Removed

  datatype Prior = Prior(stage: Stage, data: Doc)

  datatype Doc = Doc(
    intent: Option<Intent>, observed: Option<Observation>, install: Option<Doc>, targetHash: Option<nat>,
    target: Option<Doc>, pairing: Option<Pairing>, run: Option<Run>, cleanup: Option<bool>,
    installRepeat: Option<Repeat>, prior: Option<Prior>, revocation: Option<Revocation>,
    preserved: Option<HostView>, removeRepeat: Option<Repeat>)

  const EMPTY := Doc(None, None, None, None, None, None, None, None, None, None, None, None, None)

  datatype Anchor = Anchor(request: nat, installationId: nat, installId: nat, removeId: nat)
  datatype Operator = Operator(before: HostView)

  function OperationId(anchor: Anchor, operation: Operation): nat {
    if operation.Install? then anchor.installId else anchor.removeId
  }

  // ----- one execution -----

  predicate SameExecution(before: Pin, after: Pin) {
    && before.token == after.token && before.request == after.request && before.deadline == after.deadline
    && (before.keeper.Some? ==> before.keeper == after.keeper)
    && (before.worker.Some? ==> before.worker == after.worker)
    && (before.process.ProcessUnknown? || before.process == after.process)
  }

  // ----- the shapes -----

  predicate ValidIntent(value: Intent, anchor: Anchor, operation: Operation) {
    && value.operation == operation && value.operationId == OperationId(anchor, operation)
    && value.installationId == anchor.installationId
    && value.targetOut == operation.Install?
    && value.preview.sound
    && value.preview.state == if operation.Install? then Planned else HostInstalled
  }

  predicate ValidObservation(value: Observation, selected: Intent, terminal: Option<HostState>) {
    && value.installationId == selected.installationId && value.operationId == selected.operationId
    && value.plan == selected.preview.plan && value.inspection == selected.preview.inspection
    && (if selected.targetOut then !value.publication.NotRequested? else value.publication.NotRequested?)
    && value.wellFormed
    && (terminal.Some? ==> value.Settled() && value.state == terminal.value)
  }

  predicate ValidRun(run: Run) {
    && run.claim.runId == run.runId
    && (run.session.Some? ==>
          var pin := run.session.value;
          pin.runId == run.runId && pin.claim == run.claim && pin.fingerprint == run.fingerprint)
  }

  predicate IsReserved(pairing: Pairing) { pairing.receipt.None? && pairing.paired.None? }
  predicate IsCompleted(pairing: Pairing) { pairing.receipt.Some? && pairing.paired.Some? }

  /** The stage holds, or may hold, a pairing grant on the host. */
  predicate PairedAuthority(stage: Stage, data: Doc) {
    || stage.PairReleased? || stage.Paired? || stage.UnpairReleased?
    || ((stage.RunReleased? || stage.RunOwned? || stage.RunClean?) && data.pairing.Some?)
  }

  predicate Wraps(stage: Stage) {
    stage.UnpairReleased? || stage.Unpaired? || stage.RemoveReleased? || stage.RemoveObserved? || stage.Removed?
  }

  /** Removal and unpairing records, peeled off down to the stage they stand on. */
  function SettledPrior(stage: Stage, data: Doc): Prior
    decreases data
  {
    if Wraps(stage) && data.prior.Some? then SettledPrior(data.prior.value.stage, data.prior.value.data)
    else Prior(stage, data)
  }

  /** The same by a loop over the nested records. */
  method FindSettledPrior(stage: Stage, data: Doc) returns (base: Prior)
    ensures base == SettledPrior(stage, data)
  {
    base := Prior(stage, data);
    while Wraps(base.stage) && base.data.prior.Some?
      invariant SettledPrior(base.stage, base.data) == SettledPrior(stage, data)
      decreases base.data
    {
      base := base.data.prior.value;
    }
  }

  /** The record of the installation itself, under whatever was built on it. */
  function InstallRecord(stage: Stage, data: Doc): Option<Doc> {
    var base := SettledPrior(stage, data);
    match base.stage
    case Bound => None
    case InstallReleased => Some(base.data)
    case InstallObserved => Some(base.data)
    case Installed => Some(base.data)
    case TargetBound => base.data.install
    case _ => if base.data.target.Some? then base.data.target.value.install else None
  }

  function RunRecord(stage: Stage, data: Doc): Option<Run> {
    var base := SettledPrior(stage, data);
    if base.stage.RunOwned? || base.stage.RunClean? then base.data.run else None
  }

  predicate UnpairShape(stage: Stage, data: Doc)
    requires data.prior.Some?
  {
    var prior := data.prior.value;
    && data == EMPTY.(prior := data.prior, revocation := if stage.Unpaired? then data.revocation else None)
    && (prior.stage.PairReleased? || prior.stage.Paired? || prior.stage.RunClean?)
    && PairedAuthority(prior.stage, prior.data)
    && prior.data.pairing.Some?
    && (prior.stage.RunClean? ==> prior.data.installRepeat != Some(Released))
    && (stage.Unpaired? ==>
          && data.revocation.Some?
          && data.revocation.value.pairId == prior.data.pairing.value.pairId
          && (data.revocation.value.how.NeverGranted? ==> prior.stage.PairReleased?))
  }

  predicate RemoveShape(stage: Stage, data: Doc, anchor: Anchor, operator: Operator)
    requires data.prior.Some?
  {
    var prior := data.prior.value;
    && data == EMPTY.(prior := data.prior, intent := data.intent,
                      observed := if stage.RemoveReleased? then None else data.observed,
                      preserved := if stage.Removed? then data.preserved else None,
                      removeRepeat := if stage.Removed? then data.removeRepeat else None)
    && !PairedAuthority(prior.stage, prior.data)
    && (prior.stage.Installed? || prior.stage.TargetBound? || prior.stage.RunClean? || prior.stage.Unpaired?)
    && (prior.stage.RunClean? ==> prior.data.installRepeat != Some(Released))
    && data.intent.Some? && ValidIntent(data.intent.value, anchor, Remove)
    && (!stage.RemoveReleased? ==>
          data.observed.Some?
          && ValidObservation(data.observed.value, data.intent.value, if stage.Removed? then Some(HostRemoved) else None))
    && (stage.Removed? ==>
          && data.removeRepeat.Some? && data.preserved.Some?
          && var seen := data.preserved.value;
             var original := InstallRecord(prior.stage, prior.data);
             && original.Some? && original.value.observed.Some?
             && (original.value.observed.value.publication.Published? ==> !seen.targetAbsent)
             && !seen.installationAbsent && seen.taskAbsent
             && seen.files == operator.before.files && seen.tasks == operator.before.tasks)
  }

  /** `parse_stage`: exactly the expected keys, and valid authority all the way down. */
  predicate Parses(stage: Stage, data: Doc, anchor: Anchor, operator: Operator)
    decreases data
  {
    match stage
    case Bound => data == EMPTY
    case InstallReleased =>
      data == EMPTY.(intent := data.intent) && data.intent.Some? && ValidIntent(data.intent.value, anchor, Install)
    case InstallObserved => ObservedInstall(data, anchor, None)
    case Installed => ObservedInstall(data, anchor, Some(HostInstalled))
    case TargetBound =>
      && data == EMPTY.(install := data.install, targetHash := data.targetHash)
      && data.install.Some? && data.targetHash.Some?
      && Parses(Installed, data.install.value, anchor, operator)
    case PairReleased =>
      && data == EMPTY.(target := data.target, pairing := data.pairing) && data.target.Some? && data.pairing.Some?
      && Parses(TargetBound, data.target.value, anchor, operator) && IsReserved(data.pairing.value)
    case Paired =>
      && data == EMPTY.(target := data.target, pairing := data.pairing) && data.target.Some? && data.pairing.Some?
      && Parses(TargetBound, data.target.value, anchor, operator) && IsCompleted(data.pairing.value)
    case RunReleased =>
      && data == EMPTY.(target := data.target, pairing := data.pairing) && data.target.Some?
      && Parses(TargetBound, data.target.value, anchor, operator)
      && (data.pairing.Some? ==> IsCompleted(data.pairing.value))
    case RunOwned =>
      && data == EMPTY.(target := data.target, pairing := data.pairing, run := data.run) && data.target.Some?
      && Parses(TargetBound, data.target.value, anchor, operator)
      && (data.pairing.Some? ==> IsCompleted(data.pairing.value))
      && data.run.Some? && ValidRun(data.run.value)
    case RunClean =>
      && data == EMPTY.(target := data.target, pairing := data.pairing, run := data.run, cleanup := data.cleanup,
                        installRepeat := data.installRepeat)
      && data.target.Some?
      && Parses(TargetBound, data.target.value, anchor, operator)
      && (data.pairing.Some? ==> IsCompleted(data.pairing.value))
      && data.run.Some? && ValidRun(data.run.value) && data.cleanup == Some(true) && data.installRepeat.Some?
    case UnpairReleased => Unpairing(stage, data, anchor, operator)
    case Unpaired => Unpairing(stage, data, anchor, operator)
    case RemoveReleased => Removing(stage, data, anchor, operator)
    case RemoveObserved => Removing(stage, data, anchor, operator)
    case Removed => Removing(stage, data, anchor, operator)
  }

  predicate ObservedInstall(data: Doc, anchor: Anchor, terminal: Option<HostState>) {
    && data == EMPTY.(intent := data.intent, observed := data.observed) && data.intent.Some? && data.observed.Some?
    && ValidIntent(data.intent.value, anchor, Install)
    && ValidObservation(data.observed.value, data.intent.value, terminal)
  }

  predicate Unpairing(stage: Stage, data: Doc, anchor: Anchor, operator: Operator)
    decreases data, 0
  {
    data.prior.Some? && UnpairShape(stage, data) && Parses(data.prior.value.stage, data.prior.value.data, anchor, operator)
  }

  predicate Removing(stage: Stage, data: Doc, anchor: Anchor, operator: Operator)
    decreases data, 0
  {
    && data.prior.Some? && RemoveShape(stage, data, anchor, operator)
    && Parses(data.prior.value.stage, data.prior.value.data, anchor, operator)
  }

  // ----- records and transitions -----

  /** One authorized worker process; attempts are numbered from 1. */
  datatype Invocation = Invocation(attempt: nat, request: nat)

  datatype Record =
    | Initial(anchor: Anchor)
    | Checkpoint(anchor: Anchor, sequence: nat, previous: Record, invocation: Invocation, stage: Stage, data: Doc)
  {
    function Number(): nat { if Initial? then 0 else sequence }
    function At(): Stage { if Initial? then Bound else stage }
    function Held(): Doc { if Initial? then EMPTY else data }
  }

  const MAX_REVISIONS := 128

  function Allowed(stage: Stage): set<Stage> {
    match stage
    case Bound => {InstallReleased}
    case InstallReleased => {InstallObserved}
    case InstallObserved => {InstallObserved, Installed}
    case Installed => {TargetBound, RemoveReleased}
    case TargetBound => {PairReleased, RunReleased, RemoveReleased}
    case PairReleased => {Paired, UnpairReleased}
    case Paired => {RunReleased, UnpairReleased}
    case RunReleased => {RunOwned}
    case RunOwned => {RunOwned, RunClean}
    case RunClean => {RunClean, UnpairReleased, RemoveReleased}
    case UnpairReleased => {Unpaired}
    case Unpaired => {RemoveReleased}
    case RemoveReleased => {RemoveObserved}
    case RemoveObserved => {RemoveObserved, Removed}
    case Removed => {Removed}
  }

  predicate Same<T(==)>(left: Option<T>, right: Option<T>) {
    left.Some? ==> left == right
  }

  predicate MayRepeat(left: Option<Repeat>, right: Option<Repeat>) {
    left.Some? ==> (left == Some(Pending) && right == Some(Released)) || (left == Some(Released) && right == Some(Verified))
  }

  predicate SameRun(left: Run, right: Run) {
    right.(session := None) == left.(session := None) && Same(left.session, right.session)
  }

  /** The field-by-field rule: every key of the old data is kept, repeats move
      one step, an observation keeps its execution, a Run may gain a Session. */
  predicate KeepsFields(left: Doc, right: Doc) {
    && Same(left.intent, right.intent) && Same(left.install, right.install) && Same(left.targetHash, right.targetHash)
    && Same(left.target, right.target) && Same(left.pairing, right.pairing) && Same(left.cleanup, right.cleanup)
    && Same(left.prior, right.prior) && Same(left.revocation, right.revocation) && Same(left.preserved, right.preserved)
    && MayRepeat(left.installRepeat, right.installRepeat) && MayRepeat(left.removeRepeat, right.removeRepeat)
    && (left.observed.Some? ==> right.observed.Some? && SameExecution(left.observed.value.pin, right.observed.value.pin))
    && (left.run.Some? ==> right.run.Some? && SameRun(left.run.value, right.run.value))
  }

  /** What ties the data of the new record to the data of the latest one. */
  predicate Carries(from: Stage, left: Doc, next: Stage, right: Doc) {
    match next
    case RemoveReleased => right.prior == Some(Prior(from, left))
    case UnpairReleased => right.prior == Some(Prior(from, left))
    case Unpaired => right.prior == left.prior
    case TargetBound => right.install == Some(left)
    case PairReleased => right.target == Some(left)
    case Paired =>
      && right.target == left.target && left.pairing.Some? && right.pairing.Some?
      && right.pairing.value.(receipt := None, paired := None) == left.pairing.value
    case RunReleased => right == if from.TargetBound? then EMPTY.(target := Some(left)) else left
    case _ => from.Bound? || KeepsFields(left, right)
  }

  /** `accept_transition`. */
  predicate Accepts(before: Record, after: Record, operator: Operator, invocation: Invocation) {
    && after.Checkpoint? && after.anchor == before.anchor
    && after.sequence == before.Number() + 1 && after.sequence < MAX_REVISIONS
    && after.previous == before && after.invocation == invocation && invocation.request == before.anchor.request
    && Parses(after.stage, after.data, before.anchor, operator)
    && (after.stage.RemoveReleased? ==> !PairedAuthority(before.At(), before.Held()))
    && after.stage in Allowed(before.At())
    && Carries(before.At(), before.Held(), after.stage, after.data)
    && (before.At() != after.stage || before.Held() != after.data)
  }

  // ----- the files a checkpoint refers to -----

  datatype TargetFile = TargetFile(hash: nat, fields: nat, task: nat)
  datatype PairedFile = PairedFile(hash: nat, fields: nat)

  /** The client's private files. `intact` holds when the target is the
      published one with the expected paths and the client binary is the
      expected one; `run` is what the Run's journal and Session files say. */
  datatype Files = Files(target: TargetFile, intact: bool, paired: Option<PairedFile>, run: Option<Run>)

  predicate BoundTarget(stage: Stage) {
    || stage.TargetBound? || stage.PairReleased? || stage.Paired?
    || stage.RunReleased? || stage.RunOwned? || stage.RunClean?
  }

  predicate OwnsRun(stage: Stage) { stage.RunOwned? || stage.RunClean? }

  function TargetHash(stage: Stage, data: Doc): Option<nat> {
    if stage.TargetBound? then data.targetHash
    else if data.target.Some? then data.target.value.targetHash else None
  }

  predicate PairedTarget(stage: Stage, data: Doc) {
    !stage.TargetBound? && data.pairing.Some? && data.pairing.value.paired.Some?
  }

  /** The recorded target, and the paired one if there is one, are the files. */
  predicate TargetKept(stage: Stage, data: Doc, files: Files) {
    && files.intact && TargetHash(stage, data) == Some(files.target.hash)
    && (PairedTarget(stage, data) ==> files.paired.Some? && data.pairing.value.paired == Some(files.paired.value.hash))
  }

  function Selected(stage: Stage, data: Doc, files: Files): Fingerprint {
    if PairedTarget(stage, data) && files.paired.Some? then OfPaired(files.paired.value.fields) else OfTarget(files.target.fields)
  }

  /** The Run was started against that target. */
  predicate StartedOn(run: Run, stage: Stage, data: Doc, files: Files) {
    run.fingerprint == Selected(stage, data, files) && run.claim.task == files.target.task
  }

  /** `protected_references`: what the record stands on is still what the
      client's files say. */
  predicate Protected(stage: Stage, data: Doc, files: Files) {
    var base := SettledPrior(stage, data);
    && (BoundTarget(base.stage) ==> TargetKept(base.stage, base.data, files))
    && (OwnsRun(base.stage) ==>
          base.data.run.Some? && files.run == base.data.run && StartedOn(base.data.run.value, base.stage, base.data, files))
  }

  // ----- whole chains -----

  /** `read_chain`: the records from the initial one to the latest, each
      accepted after the one before, attempts never going back. */
  ghost predicate Chain(records: seq<Record>, operator: Operator) {
    && |records| > 0 && records[0].Initial?
    && forall i :: 0 < i < |records| ==> Linked(records[i - 1], records[i], operator)
  }

  ghost predicate Linked(before: Record, after: Record, operator: Operator) {
    && after.Checkpoint? && Accepts(before, after, operator, after.invocation)
    && (before.Checkpoint? ==> before.invocation.attempt <= after.invocation.attempt)
  }

  /** A chain as `publish_checkpoint`, the only writer, leaves it: every record
      also referred to the client's files as they were when it was written. */
  ghost predicate PublishedChain(records: seq<Record>, operator: Operator, files: seq<Files>) {
    && Chain(records, operator) && |files| == |records|
    && forall i :: 0 < i < |records| ==> Protected(records[i].At(), records[i].Held(), files[i])
  }

  /** The check as a loop over the records of one directory
      and the attempts that were authorized. */
  method ReadChain(records: seq<Record>, anchor: Anchor, operator: Operator, authorized: map<nat, Invocation>, latestAttempt: nat)
    returns (ok: bool)
    ensures ok <==> (Chain(records, operator) && records[0] == Initial(anchor) && |records| <= MAX_REVISIONS
                     && forall i :: 0 < i < |records| ==> Authorized(records[i], authorized, latestAttempt))
  {
    if |records| == 0 || |records| > MAX_REVISIONS || records[0] != Initial(anchor) { return false; }
    var index := 1;
    while index < |records|
      invariant 1 <= index <= |records|
      invariant forall i :: 0 < i < index ==> Linked(records[i - 1], records[i], operator)
      invariant forall i :: 0 < i < index ==> Authorized(records[i], authorized, latestAttempt)
    {
      var previous, record := records[index - 1], records[index];
      var linked := record.Checkpoint? && Accepts(previous, record, operator, record.invocation)
                    && (previous.Initial? || previous.invocation.attempt <= record.invocation.attempt);
      if !linked || !Authorized(record, authorized, latestAttempt) {
        assert !Linked(records[index - 1], records[index], operator) || !Authorized(records[index], authorized, latestAttempt);
        return false;
      }
      index := index + 1;
    }
    ok := true;
  }

  predicate Authorized(record: Record, authorized: map<nat, Invocation>, latestAttempt: nat) {
    record.Checkpoint? && record.invocation.attempt <= latestAttempt
    && record.invocation.attempt in authorized && authorized[record.invocation.attempt] == record.invocation
  }

  // ----- what one accepted transition keeps -----

  predicate Sound(record: Record, operator: Operator) {
    Parses(record.At(), record.Held(), record.anchor, operator)
  }

  /** Install intent, execution identity, Run claim and first pinned Session,
      once recorded, are carried by the next record. */
  predicate Conserves(before: Record, after: Record) {
    var install, install' := InstallRecord(before.At(), before.Held()), InstallRecord(after.At(), after.Held());
    var run, run' := RunRecord(before.At(), before.Held()), RunRecord(after.At(), after.Held());
    && (install.Some? && install.value.intent.Some? ==>
          install'.Some? && install'.value.intent == install.value.intent)
    && (install.Some? && install.value.observed.Some? ==>
          && install'.Some? && install'.value.observed.Some?
          && SameExecution(install.value.observed.value.pin, install'.value.observed.value.pin))
    && (run.Some? ==> run'.Some? && SameRun(run.value, run'.value))
  }

  lemma Unwrap(stage: Stage, data: Doc)
    requires Wraps(stage) && data.prior.Some?
    ensures SettledPrior(stage, data) == SettledPrior(data.prior.value.stage, data.prior.value.data)
  {
  }

  /** A release record stands on exactly the stage it wraps. */
  lemma ReleaseStands(before: Record, after: Record, operator: Operator)
    requires after.Checkpoint? && (after.stage.RemoveReleased? || after.stage.UnpairReleased?)
    requires Accepts(before, after, operator, after.invocation)
    ensures SettledPrior(after.stage, after.data) == SettledPrior(before.At(), before.Held())
  {
    Unwrap(after.stage, after.data);
  }

  /** The records that follow a release keep standing on the same stage. */
  lemma SettlementStands(before: Record, after: Record, operator: Operator)
    requires after.Checkpoint? && (after.stage.Unpaired? || after.stage.RemoveObserved? || after.stage.Removed?)
    requires Sound(before, operator) && Accepts(before, after, operator, after.invocation)
    ensures SettledPrior(after.stage, after.data) == SettledPrior(before.At(), before.Held())
  {
    assert Wraps(before.At());
    assert Unpairing(before.At(), before.Held(), before.anchor, operator) || Removing(before.At(), before.Held(), before.anchor, operator);
    Unwrap(before.At(), before.Held());
    Unwrap(after.stage, after.data);
  }

  /** Up to the release records the installation is nested one level deeper
      or kept field by field. */
  lemma BuildingConserves(before: Record, after: Record, operator: Operator)
    requires after.Checkpoint? && !Wraps(after.stage)
    requires Sound(before, operator) && Accepts(before, after, operator, after.invocation)
    ensures Conserves(before, after)
  {
    assert !Wraps(before.At());
    match after.stage {
      case InstallReleased =>
      case InstallObserved =>
      case Installed =>
      case TargetBound =>
      case PairReleased =>
      case Paired =>
      case RunReleased =>
      case RunOwned =>
      case RunClean =>
      case _ =>
    }
  }

  lemma AcceptedConserves(before: Record, after: Record, operator: Operator)
    requires after.Checkpoint? && Sound(before, operator) && Accepts(before, after, operator, after.invocation)
    ensures Sound(after, operator) && Conserves(before, after)
  {
    if after.stage.RemoveReleased? || after.stage.UnpairReleased? {
      ReleaseStands(before, after, operator);
    } else if Wraps(after.stage) {
      SettlementStands(before, after, operator);
    } else {
      BuildingConserves(before, after, operator);
    }
  }
}
