/**
 The transitions of an installation chain, one by one: what each of them adds
 to the record before it and under which conditions. The checker re-validates
 the whole nested record and compares it key by key; it admits exactly these.
 */
module InstallationSteps {
  import opened Options
  import opened InstallationChain
  import opened InstallationTheorems

  /** What an intent must name to start this operation on this host. */
  predicate Starts(intent: Option<Intent>, operation: Operation, anchor: Anchor) {
    match intent
    case None => false
    case Some(i) =>
      && i.operation == operation && i.installationId == anchor.installationId && i.preview.sound
      && match operation
         case Install => i.operationId == anchor.installId && i.preview.state == Planned && i.targetOut
         case Remove => i.operationId == anchor.removeId && i.preview.state == HostInstalled && !i.targetOut
  }

  /** A status answer about the operation of this intent. */
  predicate Answers(observed: Option<Observation>, intent: Option<Intent>) {
    match (observed, intent)
    case (Some(o), Some(i)) =>
      && o.wellFormed && o.installationId == i.installationId && o.operationId == i.operationId
      && o.plan == i.preview.plan && o.inspection == i.preview.inspection
      && (o.publication == NotRequested <==> !i.targetOut)
    case _ => false
  }

  predicate Ends(observed: Option<Observation>, state: HostState) {
    match observed
    case None => false
    case Some(o) => o.terminal && o.released && o.state == state
  }

  /** Two answers about one physical execution: what the first one knew of it is
      what the second one says. */
  predicate OneExecution(before: Option<Observation>, after: Option<Observation>) {
    match (before, after)
    case (Some(Observation(_, _, _, _, _, a, _, _, _, _, _, _)), Some(Observation(_, _, _, _, _, b, _, _, _, _, _, _))) =>
      && b.token == a.token && b.request == a.request && b.deadline == a.deadline
      && (b.keeper == a.keeper || a.keeper == None) && (b.worker == a.worker || a.worker == None)
      && (b.process == a.process || a.process == ProcessUnknown)
    case _ => false
  }

  /** The journal of a Run and its Session file, if there is one, agree. */
  predicate Agrees(run: Option<Run>) {
    match run
    case None => false
    case Some(r) =>
      && r.claim.runId == r.runId
      && match r.session
         case None => true
         case Some(s) => s.runId == r.runId && s.claim == r.claim && s.fingerprint == r.fingerprint
  }

  predicate GainsSession(before: Option<Run>, after: Option<Run>) {
    match (before, after)
    case (Some(a), Some(b)) => a.session == None && b.session != None && Agrees(after) && b == a.(session := b.session)
    case _ => false
  }

  /** What a Run's record may gain: a Session and, if it has none, a completed
      pairing. */
  predicate KeepsRun(left: Doc, right: Doc) {
    && (right.run == left.run || GainsSession(left.run, right.run))
    && (right.pairing == left.pairing || (left.pairing == None && Complete(right.pairing)))
  }

  predicate Complete(pairing: Option<Pairing>) {
    match pairing
    case None => false
    case Some(p) => p.receipt != None && p.paired != None
  }

  predicate Advances(before: Option<Repeat>, after: Option<Repeat>) {
    (before == Some(Pending) && after == Some(Released)) || (before == Some(Released) && after == Some(Verified))
  }

  /** The host view a removal is believed with: the installation is left in
      place, its task is gone, everything foreign is as it was before, and the
      target that was published is still there. */
  predicate Untouched(preserved: Option<HostView>, installed: Option<Observation>, operator: Operator) {
    match (preserved, installed)
    case (Some(seen), Some(o)) =>
      && !seen.installationAbsent && seen.taskAbsent
      && seen.files == operator.before.files && seen.tasks == operator.before.tasks
      && (o.publication == Published ==> !seen.targetAbsent)
    case _ => false
  }

  /** The last status answer of the installation under a settled record. */
  function InstallAnswer(at: Prior): Option<Observation>
    decreases at
  {
    match at
    case Prior(Installed, d) => d.observed
    case Prior(TargetBound, d) => AnswerOf(d)
    case Prior(Unpaired, d) => if d.prior == None then None else InstallAnswer(d.prior.value)
    case Prior(_, d) => if d.target == None then None else AnswerOf(d.target.value)
  }

  function AnswerOf(target: Doc): Option<Observation> { if target.install == None then None else target.install.value.observed }

  function PairId(data: Doc): Option<nat> { if data.pairing == None then None else Some(data.pairing.value.pairId) }

  /** The installation and the target it published. */
  predicate Installs(from: Stage, left: Doc, to: Stage, right: Doc, anchor: Anchor) {
    match (from, to)
    case (Bound, InstallReleased) => Starts(right.intent, Install, anchor) && right == EMPTY.(intent := right.intent)
    case (InstallReleased, InstallObserved) =>
      Answers(right.observed, left.intent) && right == left.(observed := right.observed)
    case (InstallObserved, InstallObserved) =>
      && Answers(right.observed, left.intent) && right == left.(observed := right.observed)
      && OneExecution(left.observed, right.observed) && right.observed != left.observed
    case (InstallObserved, Installed) =>
      && Answers(right.observed, left.intent) && right == left.(observed := right.observed)
      && OneExecution(left.observed, right.observed) && Ends(right.observed, HostInstalled)
    case (Installed, TargetBound) =>
      right.targetHash != None && right == EMPTY.(install := Some(left), targetHash := right.targetHash)
    case _ => false
  }

  /** A pairing and one Run on that target. */
  predicate Uses(from: Stage, left: Doc, to: Stage, right: Doc) {
    match (from, to)
    case (TargetBound, PairReleased) =>
      && right == EMPTY.(target := Some(left), pairing := right.pairing)
      && right.pairing != None && right.pairing.value.receipt == None && right.pairing.value.paired == None
    case (PairReleased, Paired) =>
      && right == left.(pairing := right.pairing) && Complete(right.pairing) && left.pairing != None
      && right.pairing.value == left.pairing.value.(receipt := right.pairing.value.receipt, paired := right.pairing.value.paired)
    case (TargetBound, RunReleased) => right == EMPTY.(target := Some(left))
    case (Paired, RunReleased) => right == left
    case (RunReleased, RunOwned) =>
      && Agrees(right.run) && (right.pairing == left.pairing || (left.pairing == None && Complete(right.pairing)))
      && right == left.(run := right.run, pairing := right.pairing)
    case (RunOwned, RunOwned) =>
      KeepsRun(left, right) && right == left.(run := right.run, pairing := right.pairing) && right != left
    case (RunOwned, RunClean) =>
      && KeepsRun(left, right) && right.installRepeat != None
      && right == left.(run := right.run, pairing := right.pairing, cleanup := Some(true), installRepeat := right.installRepeat)
    case (RunClean, RunClean) =>
      && KeepsRun(left, right) && Advances(left.installRepeat, right.installRepeat)
      && right == left.(run := right.run, pairing := right.pairing, installRepeat := right.installRepeat)
    case _ => false
  }

  /** The revocation of the pairing: from any record with one, unless the
      installation is just being repeated. */
  predicate Revokes(from: Stage, left: Doc, to: Stage, right: Doc) {
    match (from, to)
    case (_, UnpairReleased) =>
      && (from == PairReleased || from == Paired || (from == RunClean && left.pairing != None && left.installRepeat != Some(Released)))
      && right == EMPTY.(prior := Some(Prior(from, left)))
    case (UnpairReleased, Unpaired) =>
      && right == left.(revocation := right.revocation) && right.revocation != None && left.prior != None
      && Some(right.revocation.value.pairId) == PairId(left.prior.value.data)
      && (right.revocation.value.how == NeverGranted ==> left.prior.value.stage == PairReleased)
    case _ => false
  }

  /** The removal: only where no pairing is left, and never while the
      installation is being repeated. */
  predicate Removes(from: Stage, left: Doc, to: Stage, right: Doc, anchor: Anchor, operator: Operator) {
    match (from, to)
    case (_, RemoveReleased) =>
      && (from == Installed || from == TargetBound || from == Unpaired
          || (from == RunClean && left.pairing == None && left.installRepeat != Some(Released)))
      && Starts(right.intent, Remove, anchor) && right == EMPTY.(prior := Some(Prior(from, left)), intent := right.intent)
    case (RemoveReleased, RemoveObserved) =>
      Answers(right.observed, left.intent) && right == left.(observed := right.observed)
    case (RemoveObserved, RemoveObserved) =>
      && Answers(right.observed, left.intent) && right == left.(observed := right.observed)
      && OneExecution(left.observed, right.observed) && right.observed != left.observed
    case (RemoveObserved, Removed) =>
      && Answers(right.observed, left.intent) && OneExecution(left.observed, right.observed) && Ends(right.observed, HostRemoved)
      && left.prior != None && Untouched(right.preserved, InstallAnswer(left.prior.value), operator) && right.removeRepeat != None
      && right == left.(observed := right.observed, preserved := right.preserved, removeRepeat := right.removeRepeat)
    case (Removed, Removed) =>
      && Answers(right.observed, left.intent) && OneExecution(left.observed, right.observed) && Ends(right.observed, HostRemoved)
      && Advances(left.removeRepeat, right.removeRepeat)
      && right == left.(observed := right.observed, removeRepeat := right.removeRepeat)
    case _ => false
  }

  predicate Steps(before: Record, stage: Stage, data: Doc, operator: Operator) {
    var from, left, anchor := before.At(), before.Held(), before.anchor;
    || Installs(from, left, stage, data, anchor) || Uses(from, left, stage, data)
    || Revokes(from, left, stage, data) || Removes(from, left, stage, data, anchor, operator)
  }

  /** The next record of this chain, written by this attempt. */
  predicate Follows(before: Record, after: Record, invocation: Invocation) {
    && after.Checkpoint? && after.anchor == before.anchor && after.previous == before
    && after.sequence == before.Number() + 1 && after.sequence <= 127
    && after.invocation == invocation && invocation.request == before.anchor.request
  }

  predicate Admitted(before: Record, stage: Stage, data: Doc, operator: Operator) {
    && Parses(stage, data, before.anchor, operator) && stage in Allowed(before.At())
    && (stage.RemoveReleased? ==> !PairedAuthority(before.At(), before.Held()))
    && Carries(before.At(), before.Held(), stage, data) && (before.At() != stage || before.Held() != data)
  }

  /** `accept_transition` admits exactly the steps listed above. */
  lemma AcceptsExactly(before: Record, after: Record, operator: Operator, invocation: Invocation)
    requires Sound(before, operator)
    ensures Accepts(before, after, operator, invocation) <==>
            Follows(before, after, invocation) && Steps(before, after.stage, after.data, operator)
  {
    hide Parses, Allowed, Carries, Steps;
    if Follows(before, after, invocation) {
      StepExactly(before, after.stage, after.data, operator);
    }
  }

  lemma StepExactly(before: Record, stage: Stage, data: Doc, operator: Operator)
    requires Sound(before, operator)
    ensures Admitted(before, stage, data, operator) <==> Steps(before, stage, data, operator)
  {
    if stage in {InstallReleased, InstallObserved, Installed, TargetBound, Bound} {
      InstallsExactly(before, stage, data, operator);
    } else if stage in {PairReleased, Paired, RunReleased, RunOwned, RunClean} {
      UsesExactly(before, stage, data, operator);
    } else if stage in {UnpairReleased, Unpaired} {
      RevokesExactly(before, stage, data, operator);
    } else {
      RemovesExactly(before, stage, data, operator);
    }
  }

  lemma InstallsExactly(before: Record, stage: Stage, data: Doc, operator: Operator)
    requires Sound(before, operator) && stage in {InstallReleased, InstallObserved, Installed, TargetBound, Bound}
    ensures Admitted(before, stage, data, operator) <==> Installs(before.At(), before.Held(), stage, data, before.anchor)
  {
  }

  lemma UsesExactly(before: Record, stage: Stage, data: Doc, operator: Operator)
    requires Sound(before, operator) && stage in {PairReleased, Paired, RunReleased, RunOwned, RunClean}
    ensures Admitted(before, stage, data, operator) <==> Uses(before.At(), before.Held(), stage, data)
  {
  }

  lemma RevokesExactly(before: Record, stage: Stage, data: Doc, operator: Operator)
    requires Sound(before, operator) && stage in {UnpairReleased, Unpaired}
    ensures Admitted(before, stage, data, operator) <==> Revokes(before.At(), before.Held(), stage, data)
  {
    var from, left, anchor := before.At(), before.Held(), before.anchor;
    assert Parses(stage, data, anchor, operator) <==> Unpairing(stage, data, anchor, operator);
    if stage.UnpairReleased? {
      assert Revokes(from, left, stage, data) ==> data.prior == Some(Prior(from, left));
    } else {
      assert from.UnpairReleased? ==> Unpairing(from, left, anchor, operator);
    }
  }

  lemma TargetAnswers(stage: Stage, data: Doc, anchor: Anchor, operator: Operator)
    requires Parses(stage, data, anchor, operator) && stage in {PairReleased, Paired, RunClean}
    ensures data.target.Some? && data.target.value.install.Some? && data.target.value.install.value.observed.Some?
    ensures SettledPrior(stage, data) == Prior(stage, data)
  {
    assert Parses(TargetBound, data.target.value, anchor, operator);
    assert Parses(Installed, data.target.value.install.value, anchor, operator);
  }

  lemma AnswerAgrees(stage: Stage, data: Doc, anchor: Anchor, operator: Operator)
    requires Parses(stage, data, anchor, operator)
    requires stage.Installed? || stage.TargetBound? || stage.RunClean? || stage.Unpaired?
    ensures var original := InstallRecord(stage, data);
            original.Some? && original.value.observed.Some? && InstallAnswer(Prior(stage, data)) == original.value.observed
  {
    if stage.Unpaired? {
      assert Unpairing(stage, data, anchor, operator);
      var prior := data.prior.value;
      assert Parses(prior.stage, prior.data, anchor, operator);
      TargetAnswers(prior.stage, prior.data, anchor, operator);
      Unwrap(stage, data);
      assert SettledPrior(stage, data) == prior;
      assert InstallAnswer(Prior(stage, data)) == InstallAnswer(prior);
    } else if stage.TargetBound? {
      assert Parses(Installed, data.install.value, anchor, operator);
    } else if stage.RunClean? {
      TargetAnswers(stage, data, anchor, operator);
    }
  }

  lemma RemovesExactly(before: Record, stage: Stage, data: Doc, operator: Operator)
    requires Sound(before, operator) && stage in {RemoveReleased, RemoveObserved, Removed}
    ensures Admitted(before, stage, data, operator) <==> Removes(before.At(), before.Held(), stage, data, before.anchor, operator)
  {
    var from, left, anchor := before.At(), before.Held(), before.anchor;
    if stage.RemoveReleased? {
      assert Parses(stage, data, anchor, operator) <==> Removing(stage, data, anchor, operator);
      assert Removes(from, left, stage, data, anchor, operator) ==> data.prior == Some(Prior(from, left));
    } else if from in {RemoveReleased, RemoveObserved, Removed} {
      RemovalExactly(before, stage, data, operator);
    }
  }

  lemma RemovalExactly(before: Record, stage: Stage, data: Doc, operator: Operator)
    requires Sound(before, operator) && stage in {RemoveObserved, Removed}
    requires before.At() in {RemoveReleased, RemoveObserved, Removed}
    ensures Admitted(before, stage, data, operator) <==> Removes(before.At(), before.Held(), stage, data, before.anchor, operator)
  {
    hide InstallRecord, InstallAnswer;
    var from, left, anchor := before.At(), before.Held(), before.anchor;
    assert Parses(stage, data, anchor, operator) <==> Removing(stage, data, anchor, operator);
    assert Removing(from, left, anchor, operator);
    AnswerAgrees(left.prior.value.stage, left.prior.value.data, anchor, operator);
  }

  /** A chain built of these steps, by attempts that never go back. */
  ghost predicate Listed(records: seq<Record>, operator: Operator) {
    && |records| > 0 && records[0].Initial?
    && forall i :: 0 < i < |records| ==> Continues(records[i - 1], records[i], operator)
  }

  predicate Continues(before: Record, after: Record, operator: Operator) {
    && after.Checkpoint? && Follows(before, after, after.invocation) && Steps(before, after.stage, after.data, operator)
    && (before.Checkpoint? ==> before.invocation.attempt <= after.invocation.attempt)
  }

  /** `read_chain` reads exactly the chains of these steps. */
  lemma {:induction false} ChainExactly(records: seq<Record>, operator: Operator)
    ensures Chain(records, operator) <==> Listed(records, operator)
    decreases |records|
  {
    hide Accepts, Steps, Follows;
    var n := |records|;
    if n > 1 {
      ChainExactly(records[..n - 1], operator);
      if Chain(records[..n - 1], operator) {
        ChainSound(records[..n - 1], operator, n - 2);
        if records[n - 1].Checkpoint? {
          AcceptsExactly(records[n - 2], records[n - 1], operator, records[n - 1].invocation);
        }
      }
      PrefixOf(records, operator);
    }
  }

  lemma PrefixOf(records: seq<Record>, operator: Operator)
    requires |records| > 1
    ensures Chain(records, operator) <==>
            Chain(records[..|records| - 1], operator) && Linked(records[|records| - 2], records[|records| - 1], operator)
    ensures Listed(records, operator) <==>
            Listed(records[..|records| - 1], operator) && Continues(records[|records| - 2], records[|records| - 1], operator)
  {
    hide Linked, Continues;
  }

  /** The client's files are those this record stands on: the published target
      under its hash, the paired target that a completed pairing names, and the
      very Run, started against the paired target if there is one. */
  predicate Stands(at: Prior, files: Files)
    decreases at
  {
    var stage, data := at.stage, at.data;
    if stage == TargetBound then files.intact && data.targetHash == Some(files.target.hash)
    else if stage == PairReleased then OnTarget(data, files)
    else if stage == Paired then OnTarget(data, files) && OnPaired(data, files)
    else if stage == RunReleased then OnTarget(data, files) && (data.pairing != None ==> OnPaired(data, files))
    else if stage == RunOwned || stage == RunClean then OnTarget(data, files) && RunsOn(data, files)
    else data.prior != None ==> Stands(data.prior.value, files)
  }

  predicate OnTarget(data: Doc, files: Files) {
    files.intact && data.target != None && data.target.value.targetHash == Some(files.target.hash)
  }

  predicate OnPaired(data: Doc, files: Files) {
    data.pairing != None && files.paired != None && data.pairing.value.paired == Some(files.paired.value.hash)
  }

  predicate RunsOn(data: Doc, files: Files) {
    && data.run != None && files.run == data.run && data.run.value.claim.task == files.target.task
    && if data.pairing == None then data.run.value.fingerprint == OfTarget(files.target.fields)
       else OnPaired(data, files) && data.run.value.fingerprint == OfPaired(files.paired.value.fields)
  }

  /** `protected_references` asks for exactly that. */
  lemma {:induction false} ProtectedExactly(stage: Stage, data: Doc, anchor: Anchor, operator: Operator, files: Files)
    requires Parses(stage, data, anchor, operator)
    ensures Protected(stage, data, files) <==> Stands(Prior(stage, data), files)
    decreases data
  {
    if Wraps(stage) {
      assert Unpairing(stage, data, anchor, operator) || Removing(stage, data, anchor, operator);
      Unwrap(stage, data);
      ProtectedExactly(data.prior.value.stage, data.prior.value.data, anchor, operator, files);
    }
  }
}
