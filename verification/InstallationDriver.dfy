/**
 `Installation.recover` and the steps it calls. The driver proposes records and
 the publisher of the chain admits or refuses them: the transition check and the
 check of the client's files the record refers to. One refused proposal breaks
 the driver for good. With a host that ends its operations as asked, every
 proposal is admitted and recovery ends at `Bound` or `Removed`.
 */
module InstallationDriver {
  import opened Options
  import opened InstallationChain
  import opened InstallationTheorems
  import Steps = InstallationSteps

  datatype Fence = Fence(runId: nat, request: nat)

  /** The reply to a client command on the Run, as far as recovery looks at it:
      `settled` a stop, `terminal` one of the four final states, `clean` all
      four cleanup flags. */
  datatype Answer = Answer(fence: Fence, session: Option<nat>, settled: bool, terminal: bool, complete: bool, evidence: nat, clean: bool)

  /** Everything the driver is told by the host and by the client's files
      during one recovery. */
  datatype Host = Host(
    view: HostView,                 // what the host looks like at the end
    installs: seq<Observation>,     // status answers while the install settles
    runs: seq<Run>,                 // the seven readings of the Run journal
    answers: seq<Answer>,           // the replies to its status, stop and status commands
    installAgain: Observation,      // status after the repeated install
    revocation: Method,             // how the host revoked the pairing
    removePreview: Preview,
    applied: Option<Observation>,   // the reply to the removal, unless lost
    removes: seq<Observation>,      // status answers while the removal settles
    removeAgain: Observation)

  /** Status answers for one intent, up to the first settled one: each valid,
      all of the execution already known, the last one final. */
  predicate Settles(statuses: seq<Observation>, selected: Intent, known: Option<Observation>, final: HostState) {
    && |statuses| > 0
    && (forall k | 0 <= k < |statuses| :: ValidObservation(statuses[k], selected, None))
    && ValidObservation(statuses[|statuses| - 1], selected, Some(final))
    && (forall k | 0 <= k < |statuses| - 1 :: !statuses[k].Settled())
    && (forall k, l | 0 <= k < l < |statuses| :: SameExecution(statuses[k].pin, statuses[l].pin))
    && (known.Some? ==> forall k | 0 <= k < |statuses| :: SameExecution(known.value.pin, statuses[k].pin))
  }

  predicate Readings(runs: seq<Run>, known: Option<Run>, clean: bool) {
    && |runs| == 7
    && (forall k | 0 <= k < |runs| :: ValidRun(runs[k]))
    && (forall k, l | 0 <= k < l < |runs| :: SameRun(runs[k], runs[l]))
    && (known.Some? ==> forall k | 0 <= k < |runs| :: SameRun(known.value, runs[k]))
    && (clean ==> forall k | 0 <= k < |runs| :: known == Some(runs[k]))
  }

  function RemoveIntent(anchor: Anchor, preview: Preview): Intent {
    Intent(Remove, anchor.removeId, anchor.installationId, preview, false)
  }

  function FenceOf(claim: Claim): Fence { Fence(claim.runId, claim.request) }

  function PinnedId(run: Run): Option<nat> {
    if run.session.Some? then Some(run.session.value.id) else None
  }

  /** What recovery knows of the Run before it asks: the claim and the Session
      of its journal. */
  function Expected(run: Run): Answer {
    Answer(FenceOf(run.claim), PinnedId(run), false, false, false, 0, false)
  }

  /** A Session once named stays the same. */
  predicate SessionsAgree(original: Answer, answers: seq<Answer>) {
    forall i, j :: 0 <= i < j < |answers| + 1 && ([original] + answers)[i].session.Some? ==>
      ([original] + answers)[j].session == ([original] + answers)[i].session
  }

  /** `verify_recovery`: one Run under one fence and one Session, stopped, final
      and clean; and if it was known to be complete, unchanged since. */
  predicate Recovered(original: Answer, before: Answer, stop: Answer, after: Answer) {
    && before.fence == original.fence && stop.fence == original.fence && after.fence == original.fence
    && SessionsAgree(original, [before, stop, after]) && stop.session == after.session
    && stop.settled && after.terminal && stop.clean && after.clean
    && (original.complete ==>
          && before.complete && before.evidence == original.evidence && before.clean
          && after.complete && after.evidence == original.evidence)
  }

  /** The check as its loop over the three replies. */
  method VerifyRecovery(original: Answer, before: Answer, stop: Answer, after: Answer) returns (ok: bool)
    ensures ok <==> Recovered(original, before, stop, after)
  {
    var answers, session := [before, stop, after], original.session;
    ghost var all := [original] + answers;
    for k := 0 to 3
      invariant forall i :: 0 <= i < k ==> answers[i].fence == original.fence
      invariant forall i, j :: 0 <= i < j <= k && all[i].session.Some? ==> all[j].session == all[i].session
      invariant session == all[k].session
    {
      assert all[k + 1] == answers[k];
      if answers[k].fence != original.fence || (session.Some? && answers[k].session != session) {
        assert SessionsAgree(original, [before, stop, after]) && all[k].session.Some? ==> all[k + 1].session == all[k].session;
        return false;
      }
      session := answers[k].session;
    }
    assert answers[0].fence == original.fence && answers[1].fence == original.fence && answers[2].fence == original.fence;
    assert SessionsAgree(original, [before, stop, after]);
    if stop.session != after.session || !stop.settled || !after.terminal { return false; }
    if original.complete {
      if !before.complete || before.evidence != original.evidence || !before.clean { return false; }
      if !after.complete || after.evidence != original.evidence || !after.clean { return false; }
    }
    ok := stop.clean && after.clean;
  }

  /** The reply names the Run and the Session its journal pins right after it. */
  predicate Answers(answer: Answer, run: Run) {
    answer.fence == FenceOf(run.claim) && answer.session == PinnedId(run)
  }

  /** The same, written out. */
  predicate Names(answer: Answer, run: Run) {
    && answer.fence.runId == run.claim.runId && answer.fence.request == run.claim.request
    && match (answer.session, run.session)
       case (None, None) => true
       case (Some(id), Some(pin)) => id == pin.id
       case _ => false
  }

  predicate CleanupProven(answers: seq<Answer>, runs: seq<Run>)
    requires |answers| == 3 && |runs| == 7
  {
    && Answers(answers[0], runs[2]) && Answers(answers[1], runs[4]) && Answers(answers[2], runs[6])
    && Recovered(Expected(runs[6]), answers[0], answers[1], answers[2])
  }

  /** When a cleanup is believed: every reply is of the Run and its pin, the
      last two prove it settled, and no Session was first pinned after the first
      command. A Session that appears in between fails this recovery. */
  lemma CleanupExactly(answers: seq<Answer>, runs: seq<Run>, known: Option<Run>, clean: bool)
    requires |answers| == 3 && Readings(runs, known, clean)
    ensures CleanupProven(answers, runs) <==>
              && Names(answers[0], runs[2]) && Names(answers[1], runs[4]) && Names(answers[2], runs[6])
              && answers[1].settled && answers[2].terminal && answers[1].clean && answers[2].clean
              && (runs[6].session.Some? ==> runs[2].session.Some?)
  {
    var all := [Expected(runs[6])] + answers;
    assert answers == [answers[0], answers[1], answers[2]];
    assert all[0] == Expected(runs[6]) && all[1] == answers[0] && all[2] == answers[1] && all[3] == answers[2];
    assert SameRun(runs[2], runs[4]) && SameRun(runs[4], runs[6]) && SameRun(runs[2], runs[6]);
  }

  predicate IsRun(stage: Stage) { stage.RunReleased? || stage.RunOwned? || stage.RunClean? }
  predicate IsRemoving(stage: Stage) { stage.RemoveReleased? || stage.RemoveObserved? }

  /** The Run's journal names the recorded target, the client's replies prove
      the cleanup. */
  predicate RunSettles(host: Host, stage: Stage, data: Doc, files: Files) {
    IsRun(stage) ==>
      && Readings(host.runs, data.run, stage.RunClean?)
      && TargetKept(stage, data, files) && StartedOn(host.runs[0], stage, data, files)
      && |host.answers| == 3 && CleanupProven(host.answers, host.runs)
      && (stage.RunClean? && data.installRepeat == Some(Released) ==>
            && InstallRecord(stage, data).Some?
            && var install := InstallRecord(stage, data).value;
               && install.intent.Some? && install.observed.Some?
               && RepeatsExactly(install.observed.value, host.installAgain, install.intent.value, HostInstalled))
  }

  /** The view proves removal: nothing foreign changed, and a target that was
      published is still there. */
  predicate ProvesRemoval(view: HostView, operator: Operator, install: Observation) {
    && !view.installationAbsent && view.taskAbsent
    && view.files == operator.before.files && view.tasks == operator.before.tasks
    && (install.publication.Published? ==> !view.targetAbsent)
  }

  predicate RemovalSettles(host: Host, anchor: Anchor) {
    && ValidIntent(RemoveIntent(anchor, host.removePreview), anchor, Remove)
    && (host.applied.Some? ==> ValidObservation(host.applied.value, RemoveIntent(anchor, host.removePreview), None))
    && Settles(host.removes, RemoveIntent(anchor, host.removePreview), host.applied, HostRemoved)
  }

  /** The host's operations end in the state recovery expects. */
  predicate Cooperates(host: Host, stage: Stage, data: Doc, anchor: Anchor, operator: Operator, files: Files) {
    && (!IsRun(stage) ==> Protected(stage, data, files))
    && (stage.Bound? ==> host.view == operator.before)
    && (stage.InstallReleased? || stage.InstallObserved? ==>
          && data.intent.Some? && Settles(host.installs, data.intent.value, data.observed, HostInstalled)
          && ProvesRemoval(host.view, operator, host.installs[|host.installs| - 1]))
    && RunSettles(host, stage, data, files)
    && (PairedAuthority(stage, data) && host.revocation.NeverGranted? ==> SettledPrior(stage, data).stage.PairReleased?)
    && (!stage.Bound? && !stage.Removed? && !IsRemoving(stage) ==> RemovalSettles(host, anchor))
    && (IsRemoving(stage) ==>
          data.intent.Some? && Settles(host.removes, data.intent.value, data.observed, HostRemoved))
    && (stage.Removed? ==>
          && data.preserved == Some(host.view)
          && (data.removeRepeat == Some(Released) ==>
                && data.intent.Some? && data.observed.Some?
                && RepeatsExactly(data.observed.value, host.removeAgain, data.intent.value, HostRemoved)))
    && (InstallRecord(stage, data).Some? && InstallRecord(stage, data).value.observed.Some? && !stage.Removed? && !stage.InstallObserved? ==>
          ProvesRemoval(host.view, operator, InstallRecord(stage, data).value.observed.value))
  }

  /** At most this many records are proposed. */
  function Budget(host: Host): nat {
    |host.installs| + |host.removes| + 18
  }

  /** `settlement`: what the controller demands before it believes recovery. */
  predicate Settlement(latest: Record, view: HostView, operator: Operator) {
    if latest.At().Bound? then view == operator.before
    else latest.At().Removed? && latest.Held().removeRepeat != Some(Released) && latest.Held().preserved == Some(view)
  }

  function Proposal(latest: Record, invocation: Invocation, stage: Stage, data: Doc): Record {
    Checkpoint(latest.anchor, latest.Number() + 1, latest, invocation, stage, data)
  }

  lemma ObservationParses(operation: Operation, stage: Stage, data: Doc, result: Observation, anchor: Anchor, operator: Operator)
    requires Parses(stage, data, anchor, operator)
    requires if operation.Install? then stage.InstallReleased? || stage.InstallObserved? else stage.RemoveReleased? || stage.RemoveObserved?
    requires data.intent.Some? && ValidObservation(result, data.intent.value, None)
    ensures Parses(if operation.Install? then InstallObserved else RemoveObserved, data.(observed := Some(result)), anchor, operator)
  {
    if operation.Remove? {
      assert Removing(stage, data, anchor, operator);
      assert Removing(RemoveObserved, data.(observed := Some(result)), anchor, operator);
    }
  }

  lemma ObservationProtected(operation: Operation, stage: Stage, data: Doc, result: Observation, files: Files)
    requires if operation.Install? then stage.InstallReleased? || stage.InstallObserved? else stage.RemoveReleased? || stage.RemoveObserved?
    requires Protected(stage, data, files) && (operation.Remove? ==> data.prior.Some?)
    ensures Protected(if operation.Install? then InstallObserved else RemoveObserved, data.(observed := Some(result)), files)
  {
    if operation.Remove? {
      Unwrap(stage, data);
      Unwrap(RemoveObserved, data.(observed := Some(result)));
      ProtectedStands(stage, data, RemoveObserved, data.(observed := Some(result)), files);
    }
  }

  /** Only the fence or the launcher of the execution is left to end. */
  predicate StopsAgain(status: Observation) {
    (status.terminal && !status.released) || status.stalled
  }

  /** How often the execution is told to stop while these answers come in: for
      the first one, and whenever only the fence or the launcher is left. */
  function Told(statuses: seq<Observation>, n: nat): nat
    requires n <= |statuses|
  {
    if n == 0 then 0
    else
      var o := statuses[n - 1];
      Told(statuses, n - 1) + if n == 1 || (o.terminal && !o.released) || o.stalled then 1 else 0
  }

  /** What is protected depends only on the stage a record stands on. */
  lemma ProtectedStands(stage: Stage, data: Doc, next: Stage, after: Doc, files: Files)
    requires SettledPrior(stage, data) == SettledPrior(next, after)
    ensures Protected(stage, data, files) <==> Protected(next, after, files)
  {
  }

  /** Past the release of the install, its intent and a status are on record. */
  lemma {:induction false} InstallKnown(stage: Stage, data: Doc, anchor: Anchor, operator: Operator)
    requires Parses(stage, data, anchor, operator) && !stage.Bound? && !stage.InstallReleased?
    ensures InstallRecord(stage, data).Some?
    ensures InstallRecord(stage, data).value.intent.Some? && InstallRecord(stage, data).value.observed.Some?
    decreases data
  {
    if Wraps(stage) {
      assert Unpairing(stage, data, anchor, operator) || Removing(stage, data, anchor, operator);
      Unwrap(stage, data);
      InstallKnown(data.prior.value.stage, data.prior.value.data, anchor, operator);
    } else if data.target.Some? {
      InstallKnown(TargetBound, data.target.value, anchor, operator);
    } else if data.install.Some? {
      InstallKnown(Installed, data.install.value, anchor, operator);
    }
  }

  /** What a repeated operation must show: the same final state, execution and
      target as the original one. */
  predicate RepeatsExactly(original: Observation, again: Observation, selected: Intent, final: HostState) {
    ValidObservation(again, selected, Some(final)) && SameExecution(original.pin, again.pin) && again.target == original.target
  }

  class Installation {
    const anchor: Anchor
    const operator: Operator
    const invocation: Invocation
    var chain: seq<Record>
    var broken: bool
    var files: Files
    ghost var seen: seq<Files>      // the files as they were for each record

    ghost predicate Valid()
      reads this
    {
      && PublishedChain(chain, operator, seen)
      && |chain| == Latest().Number() + 1
      && Latest().anchor == anchor && anchor.request == invocation.request
      && (Latest().Checkpoint? ==> Latest().invocation.attempt <= invocation.attempt)
      && Parses(At(), Data(), anchor, operator)
    }

    function Latest(): Record
      reads this
      requires |chain| > 0
    {
      chain[|chain| - 1]
    }

    function At(): Stage
      reads this
      requires |chain| > 0
    {
      Latest().At()
    }

    function Data(): Doc
      reads this
      requires |chain| > 0
    {
      Latest().Held()
    }

    constructor (records: seq<Record>, operator: Operator, invocation: Invocation, files: Files, ghost seen: seq<Files>)
      requires PublishedChain(records, operator, seen) && |records| == records[|records| - 1].Number() + 1
      requires records[|records| - 1].anchor.request == invocation.request
      requires records[|records| - 1].Checkpoint? ==> records[|records| - 1].invocation.attempt <= invocation.attempt
      ensures Valid() && !broken && chain == records && this.operator == operator && this.invocation == invocation
      ensures this.files == files && this.seen == seen
    {
      anchor, this.operator, this.invocation := records[|records| - 1].anchor, operator, invocation;
      chain, broken, this.files, this.seen := records, false, files, seen;
      ChainSound(records, operator, |records| - 1);
    }

    /** The publisher admits the record: the transition is accepted and what it
        stands on is still what the client's files say. */
    predicate Admits(stage: Stage, data: Doc)
      reads this
      requires |chain| > 0
    {
      Accepts(Latest(), Proposal(Latest(), invocation, stage, data), operator, invocation) && Protected(stage, data, files)
    }

    /** `Checkpoints.advance`: propose the next record; the chain grows by it,
        or the driver is broken, exactly as the publisher decides. */
    method Advance(stage: Stage, data: Doc)
      requires Valid() && !broken
      modifies this`chain, this`broken, this`seen
      ensures Valid()
      ensures broken <==> !old(Admits(stage, data))
      ensures chain == if broken then old(chain) else old(chain) + [Proposal(old(Latest()), invocation, stage, data)]
    {
      var proposal := Proposal(Latest(), invocation, stage, data);
      if Admits(stage, data) {
        assert Linked(Latest(), proposal, operator);
        chain := chain + [proposal];
        seen := seen + [files];
      } else {
        broken := true;
      }
    }

    /** The driver now stands on this record, at most `count` records later. */
    twostate predicate Reached(stage: Stage, data: Doc, count: nat)
      reads this
    {
      && Valid() && !broken && |old(chain)| <= |chain| <= |old(chain)| + count && old(chain) <= chain
      && At() == stage && Data() == data && Protected(stage, data, files)
    }

    // ----- one operation of the installer -----

    function Observed(operation: Operation): Stage {
      if operation.Install? then InstallObserved else RemoveObserved
    }

    function ReleasedStage(operation: Operation): Stage {
      if operation.Install? then InstallReleased else RemoveReleased
    }

    method ObserveExecution(operation: Operation, result: Observation)
      requires Valid() && !broken && (At() == ReleasedStage(operation) || At() == Observed(operation))
      requires Data().intent.Some? && ValidObservation(result, Data().intent.value, None) && |chain| < MAX_REVISIONS
      requires Data().observed.Some? ==> SameExecution(Data().observed.value.pin, result.pin)
      requires Protected(At(), Data(), files)
      modifies this`chain, this`broken, this`seen
      ensures Reached(Observed(operation), old(Data()).(observed := Some(result)), 1)
    {
      if At() == Observed(operation) && Data().observed == Some(result) {
        assert Data() == Data().(observed := Some(result));
        return;
      }
      ObservationParses(operation, At(), Data(), result, anchor, operator);
      ObservationProtected(operation, At(), Data(), result, files);
      Advance(Observed(operation), Data().(observed := Some(result)));
    }

    /** `recover_installer` with its checkpoints: every status is recorded until
        one is settled; while none is, the execution is told to stop, once, and
        again only when its fence or its launcher is what is left. A lost reply
        to a stop changes nothing. */
    method Observe(operation: Operation, statuses: seq<Observation>, ghost final: HostState)
      returns (result: Observation, stops: seq<nat>)
      requires Valid() && !broken && (At() == ReleasedStage(operation) || At() == Observed(operation))
      requires |chain| + |statuses| <= MAX_REVISIONS && Protected(At(), Data(), files)
      requires Data().intent.Some? && Settles(statuses, Data().intent.value, Data().observed, final)
      modifies this`chain, this`broken, this`seen
      ensures Reached(Observed(operation), old(Data()).(observed := Some(result)), |statuses|)
      ensures result == statuses[|statuses| - 1]
      ensures forall token :: token in stops ==> token == result.pin.token
      ensures stops == [] <==> statuses[0].Settled()
      ensures |stops| == Told(statuses, |statuses| - 1)
    {
      result, stops := statuses[0], [];
      ObserveExecution(operation, result);
      var k := 0;
      while !result.Settled()
        invariant 0 <= k < |statuses| && result == statuses[k]
        invariant Reached(Observed(operation), old(Data()).(observed := Some(result)), k + 1)
        invariant forall token :: token in stops ==> token == statuses[0].pin.token
        invariant k > 0 ==> stops != [] && !statuses[0].Settled()
        invariant k == 0 ==> stops == []
        invariant |stops| == Told(statuses, k)
        decreases |statuses| - k
      {
        if stops == [] || StopsAgain(result) {
          assert SameExecution(statuses[0].pin, statuses[k].pin) || k == 0;
          stops := stops + [result.pin.token];
        }
        k := k + 1;
        result := statuses[k];
        assert SameExecution(statuses[k - 1].pin, result.pin);
        ObserveExecution(operation, result);
      }
      assert k == |statuses| - 1;
    }

    method SettleInstall(statuses: seq<Observation>)
      requires Valid() && !broken && (At().InstallReleased? || At().InstallObserved?) && |chain| + |statuses| < MAX_REVISIONS
      requires Data().intent.Some? && Settles(statuses, Data().intent.value, Data().observed, HostInstalled)
      modifies this`chain, this`broken, this`seen
      ensures Reached(Installed, old(Data()).(observed := Some(statuses[|statuses| - 1])), |statuses| + 1)
    {
      var result, stops := Observe(Install, statuses, HostInstalled);
      Advance(Installed, EMPTY.(intent := Data().intent, observed := Some(result)));
    }

    // ----- the Run -----

    /** `own_run`: read the client's journal and record the Run it names, once
        per change. */
    method OwnRun(run: Run)
      requires Valid() && !broken && IsRun(At()) && |chain| < MAX_REVISIONS
      requires ValidRun(run) && (Data().run.Some? ==> SameRun(Data().run.value, run))
      requires At().RunClean? ==> Data().run == Some(run)
      requires TargetKept(At(), Data(), files) && StartedOn(run, At(), Data(), files)
      modifies this`chain, this`broken, this`seen, this`files
      ensures files == old(files).(run := Some(run))
      ensures Reached(if old(At()).RunClean? then RunClean else RunOwned, Owned(old(At()), old(Data()), run), 1)
    {
      files := files.(run := Some(run));
      if At().RunReleased? || (At().RunOwned? && Data().run != Some(run)) {
        Advance(RunOwned, Owned(At(), Data(), run));
      }
    }

    function Owned(stage: Stage, data: Doc, run: Run): Doc {
      if stage.RunClean? then data else EMPTY.(target := data.target, pairing := data.pairing, run := Some(run))
    }

    /** `cleanup_run`: read the Run before and after each of the three client
        commands, and record the cleanup if their replies prove it. */
    method CleanupRun(runs: seq<Run>, answers: seq<Answer>) returns (ok: bool)
      requires Valid() && !broken && IsRun(At()) && |chain| + 8 <= MAX_REVISIONS
      requires Readings(runs, Data().run, At().RunClean?) && |answers| == 3
      requires TargetKept(At(), Data(), files) && StartedOn(runs[0], At(), Data(), files)
      modifies this`chain, this`broken, this`seen, this`files
      ensures Valid() && !broken && old(chain) <= chain && |chain| <= |old(chain)| + 8
      ensures ok <==> CleanupProven(answers, runs)
      ensures ok ==> Reached(RunClean,
                             if old(At()).RunClean? then old(Data())
                             else Owned(RunOwned, old(Data()), runs[6]).(cleanup := Some(true), installRepeat := Some(Pending)), 8)
      ensures !ok ==> At() == if old(At()).RunClean? then RunClean else RunOwned
    {
      hide Accepts, Parses, Protected, Recovered, TargetKept, StartedOn, SameRun;
      ghost var stage, data, start := At(), Data(), files;
      OwnRun(runs[0]);
      for k := 0 to 3
        invariant files == start.(run := Some(runs[2 * k]))
        invariant Reached(if stage.RunClean? then RunClean else RunOwned, Owned(stage, data, runs[2 * k]), 2 * k + 1)
        invariant forall j :: 0 <= j < k ==> Answers(answers[j], runs[2 * j + 2])
      {
        OwnedKept(stage, data, runs[2 * k], runs[2 * k + 1], runs[0], start);
        OwnRun(runs[2 * k + 1]);
        OwnedKept(stage, data, runs[2 * k + 1], runs[2 * k + 2], runs[0], start);
        OwnRun(runs[2 * k + 2]);
        if !Answers(answers[k], runs[2 * k + 2]) { return false; }
      }
      ok := VerifyRecovery(Expected(runs[6]), answers[0], answers[1], answers[2]);
      if ok && At().RunOwned? {
        RecordCleanup();
      }
    }

    lemma OwnedKept(stage: Stage, data: Doc, run: Run, next: Run, first: Run, start: Files)
      requires IsRun(stage) && TargetKept(stage, data, start) && StartedOn(first, stage, data, start)
      requires first == next || SameRun(first, next)
      ensures var now := if stage.RunClean? then RunClean else RunOwned;
              && TargetKept(now, Owned(stage, data, run), start.(run := Some(run)))
              && StartedOn(next, now, Owned(stage, data, run), start.(run := Some(run)))
    {
    }

    method RecordCleanup()
      requires Valid() && !broken && At().RunOwned? && |chain| < MAX_REVISIONS && Protected(At(), Data(), files)
      modifies this`chain, this`broken, this`seen
      ensures Reached(RunClean, old(Data()).(cleanup := Some(true), installRepeat := Some(Pending)), 1)
    {
      Advance(RunClean, Data().(cleanup := Some(true), installRepeat := Some(Pending)));
    }

    /** `repeat("install", send=False)`: a released repeat is verified only by
        the same execution. */
    method VerifyInstallRepeat(again: Observation) returns (ok: bool)
      requires Valid() && !broken && At().RunClean? && Data().installRepeat == Some(Released) && |chain| < MAX_REVISIONS
      requires Protected(At(), Data(), files)
      requires InstallRecord(At(), Data()).Some? && InstallRecord(At(), Data()).value.intent.Some?
               && InstallRecord(At(), Data()).value.observed.Some?
      modifies this`chain, this`broken, this`seen
      ensures var install := old(InstallRecord(At(), Data()).value);
              ok <==> Steps.Answers(Some(again), install.intent) && Steps.Ends(Some(again), HostInstalled)
                      && Steps.OneExecution(install.observed, Some(again)) && again.target == install.observed.value.target
      ensures Reached(RunClean, if ok then old(Data()).(installRepeat := Some(Verified)) else old(Data()), 1)
    {
      var install := InstallRecord(At(), Data()).value;
      ok := RepeatsExactly(install.observed.value, again, install.intent.value, HostInstalled);
      if ok { Advance(RunClean, Data().(installRepeat := Some(Verified))); }
    }

    // ----- the pairing -----

    method ConvergePairing(how: Method)
      requires Valid() && !broken && PairedAuthority(At(), Data()) && !At().RunReleased? && !At().RunOwned?
      requires At().RunClean? ==> Data().installRepeat != Some(Released)
      requires how.NeverGranted? ==> SettledPrior(At(), Data()).stage.PairReleased?
      requires |chain| + 2 <= MAX_REVISIONS && Protected(At(), Data(), files)
      modifies this`chain, this`broken, this`seen
      ensures Valid() && !broken && At().Unpaired? && old(chain) <= chain && |chain| <= |old(chain)| + 2
      ensures Data().revocation.Some? && Data().revocation.value.how == how
      ensures Protected(At(), Data(), files)
      ensures InstallRecord(At(), Data()) == InstallRecord(old(At()), old(Data()))
    {
      hide Accepts, Parses, Protected;
      if !At().UnpairReleased? { ReleaseUnpairing(); }
      RecordRevocation(how);
    }

    method ReleaseUnpairing()
      requires Valid() && !broken && PairedAuthority(At(), Data()) && (At().PairReleased? || At().Paired? || At().RunClean?)
      requires At().RunClean? ==> Data().installRepeat != Some(Released)
      requires |chain| < MAX_REVISIONS && Protected(At(), Data(), files)
      modifies this`chain, this`broken, this`seen
      ensures Reached(UnpairReleased, EMPTY.(prior := Some(Prior(old(At()), old(Data())))), 1)
      ensures SettledPrior(At(), Data()) == SettledPrior(old(At()), old(Data()))
    {
      var data := EMPTY.(prior := Some(Prior(At(), Data())));
      assert Unpairing(UnpairReleased, data, anchor, operator);
      Unwrap(UnpairReleased, data);
      ProtectedStands(At(), Data(), UnpairReleased, data, files);
      Advance(UnpairReleased, data);
    }

    method RecordRevocation(how: Method)
      requires Valid() && !broken && At().UnpairReleased? && |chain| < MAX_REVISIONS && Protected(At(), Data(), files)
      requires how.NeverGranted? ==> SettledPrior(At(), Data()).stage.PairReleased?
      modifies this`chain, this`broken, this`seen
      ensures Valid() && !broken && At().Unpaired? && old(chain) <= chain && |chain| == |old(chain)| + 1
      ensures Data().revocation.Some? && Data().revocation.value.how == how
      ensures Protected(At(), Data(), files) && SettledPrior(At(), Data()) == SettledPrior(old(At()), old(Data()))
    {
      assert Unpairing(At(), Data(), anchor, operator);
      Unwrap(At(), Data());
      var prior := Data().prior.value;
      var data := EMPTY.(prior := Some(prior), revocation := Some(Revocation(prior.data.pairing.value.pairId, how)));
      assert Unpairing(Unpaired, data, anchor, operator);
      Unwrap(Unpaired, data);
      ProtectedStands(At(), Data(), Unpaired, data, files);
      Advance(Unpaired, data);
    }

    // ----- removal -----

    method FinishRemoval(removes: seq<Observation>, view: HostView)
      requires Valid() && !broken && IsRemoving(At()) && |chain| + |removes| < MAX_REVISIONS
      requires Protected(At(), Data(), files)
      requires Data().intent.Some? && Settles(removes, Data().intent.value, Data().observed, HostRemoved)
      requires InstallRecord(At(), Data()).Some? && InstallRecord(At(), Data()).value.observed.Some?
      requires ProvesRemoval(view, operator, InstallRecord(At(), Data()).value.observed.value)
      modifies this`chain, this`broken, this`seen
      ensures Reached(Removed,
                      old(Data()).(observed := Some(removes[|removes| - 1]), preserved := Some(view), removeRepeat := Some(Pending)),
                      |removes| + 1)
    {
      hide Accepts, Parses, Protected, ProvesRemoval;
      ghost var stage, data := At(), Data();
      RemovalStands(stage, data);
      var result, stops := Observe(Remove, removes, HostRemoved);
      ObservedStands(stage, data, result);
      RecordRemoval(view);
    }

    lemma RemovalStands(stage: Stage, data: Doc)
      requires IsRemoving(stage) && Parses(stage, data, anchor, operator)
      ensures data.prior.Some?
    {
      assert Removing(stage, data, anchor, operator);
    }

    lemma ObservedStands(stage: Stage, data: Doc, result: Observation)
      requires IsRemoving(stage) && data.prior.Some?
      ensures InstallRecord(RemoveObserved, data.(observed := Some(result))) == InstallRecord(stage, data)
    {
      Unwrap(stage, data);
      Unwrap(RemoveObserved, data.(observed := Some(result)));
    }

    method RecordRemoval(view: HostView)
      requires Valid() && !broken && At().RemoveObserved? && |chain| < MAX_REVISIONS && Protected(At(), Data(), files)
      requires Data().intent.Some? && Data().observed.Some?
      requires ValidObservation(Data().observed.value, Data().intent.value, Some(HostRemoved))
      requires InstallRecord(At(), Data()).Some? && InstallRecord(At(), Data()).value.observed.Some?
      requires ProvesRemoval(view, operator, InstallRecord(At(), Data()).value.observed.value)
      modifies this`chain, this`broken, this`seen
      ensures Reached(Removed, old(Data()).(preserved := Some(view), removeRepeat := Some(Pending)), 1)
    {
      assert Removing(At(), Data(), anchor, operator);
      Unwrap(At(), Data());
      var data := Data().(preserved := Some(view), removeRepeat := Some(Pending));
      assert Removing(Removed, data, anchor, operator);
      Unwrap(Removed, data);
      ProtectedStands(At(), Data(), Removed, data, files);
      Advance(Removed, data);
    }

    method ReleaseRemoval(preview: Preview)
      requires Valid() && !broken && (At().Installed? || At().TargetBound? || At().RunClean? || At().Unpaired?)
      requires !PairedAuthority(At(), Data()) && (At().RunClean? ==> Data().installRepeat != Some(Released))
      requires ValidIntent(RemoveIntent(anchor, preview), anchor, Remove) && |chain| < MAX_REVISIONS
      requires Protected(At(), Data(), files)
      modifies this`chain, this`broken, this`seen
      ensures Reached(RemoveReleased,
                      EMPTY.(prior := Some(Prior(old(At()), old(Data()))), intent := Some(RemoveIntent(anchor, preview))), 1)
      ensures InstallRecord(At(), Data()) == InstallRecord(old(At()), old(Data()))
    {
      var data := EMPTY.(prior := Some(Prior(At(), Data())), intent := Some(RemoveIntent(anchor, preview)));
      assert Removing(RemoveReleased, data, anchor, operator);
      Unwrap(RemoveReleased, data);
      ProtectedStands(At(), Data(), RemoveReleased, data, files);
      Advance(RemoveReleased, data);
    }

    /** The reply to the removal may be lost; if it arrives it is recorded. */
    method RecordReply(applied: Option<Observation>)
      requires Valid() && !broken && At().RemoveReleased? && |chain| < MAX_REVISIONS && Data().intent.Some?
      requires Data().observed.None? && Protected(At(), Data(), files)
      requires applied.Some? ==> ValidObservation(applied.value, Data().intent.value, None)
      modifies this`chain, this`broken, this`seen
      ensures Reached(if applied.Some? then RemoveObserved else RemoveReleased, old(Data()).(observed := applied), 1)
      ensures InstallRecord(At(), Data()) == InstallRecord(old(At()), old(Data()))
    {
      assert Removing(At(), Data(), anchor, operator);
      Unwrap(At(), Data());
      if applied.Some? {
        ObserveExecution(Remove, applied.value);
        Unwrap(At(), Data());
      } else {
        assert Data() == Data().(observed := applied);
      }
    }

    /** `remove`: the removal is released, and observed and finished even when
        the reply to it was lost, which is then reported. */
    method RemoveInstallation(host: Host) returns (replied: bool)
      requires Valid() && !broken && (At().Installed? || At().TargetBound? || At().RunClean? || At().Unpaired?)
      requires !PairedAuthority(At(), Data()) && (At().RunClean? ==> Data().installRepeat != Some(Released))
      requires RemovalSettles(host, anchor) && |chain| + |host.removes| + 2 < MAX_REVISIONS
      requires Protected(At(), Data(), files)
      requires InstallRecord(At(), Data()).Some? && InstallRecord(At(), Data()).value.observed.Some?
      requires ProvesRemoval(host.view, operator, InstallRecord(At(), Data()).value.observed.value)
      modifies this`chain, this`broken, this`seen
      ensures Valid() && !broken && At().Removed? && old(chain) <= chain && |chain| <= |old(chain)| + |host.removes| + 3
      ensures Data().preserved == Some(host.view) && Data().removeRepeat == Some(Pending)
      ensures Protected(At(), Data(), files) && (replied <==> host.applied.Some?)
    {
      hide Parses, Accepts;
      ReleaseRemoval(host.removePreview);
      RecordReply(host.applied);
      FinishRemoval(host.removes, host.view);
      replied := host.applied.Some?;
    }

    method VerifyRemoveRepeat(again: Observation) returns (ok: bool)
      requires Valid() && !broken && At().Removed? && Data().removeRepeat == Some(Released) && |chain| < MAX_REVISIONS
      requires Protected(At(), Data(), files)
      requires Data().intent.Some? && Data().observed.Some?
      modifies this`chain, this`broken, this`seen
      ensures ok <==> Steps.Answers(Some(again), old(Data()).intent) && Steps.Ends(Some(again), HostRemoved)
                      && Steps.OneExecution(old(Data()).observed, Some(again)) && again.target == old(Data()).observed.value.target
      ensures Reached(Removed, if ok then old(Data()).(removeRepeat := Some(Verified)) else old(Data()), 1)
    {
      ok := RepeatsExactly(Data().observed.value, again, Data().intent.value, HostRemoved);
      if ok {
        var data := Data().(removeRepeat := Some(Verified));
        assert Removing(At(), Data(), anchor, operator);
        assert Removing(Removed, data, anchor, operator);
        Unwrap(At(), Data());
        Unwrap(Removed, data);
        ProtectedStands(At(), Data(), Removed, data, files);
        Advance(Removed, data);
      }
    }

    // ----- recovery -----

    /** A Run to its proven cleanup, and a released repeat of the install to
        its verification. */
    method SettleRun(host: Host)
      requires Valid() && !broken && IsRun(At()) && |chain| + 9 <= MAX_REVISIONS
      requires RunSettles(host, At(), Data(), files)
      modifies this`chain, this`broken, this`seen, this`files
      ensures Valid() && !broken && old(chain) <= chain && |chain| <= |old(chain)| + 9 && At().RunClean?
      ensures Protected(At(), Data(), files) && Data().installRepeat != Some(Released)
      ensures PairedAuthority(At(), Data()) ==> old(PairedAuthority(At(), Data()))
      ensures InstallRecord(At(), Data()) == InstallRecord(old(At()), old(Data()))
    {
      hide Accepts, Parses, Protected, TargetKept, StartedOn, Recovered, CleanupProven;
      var proven := CleanupRun(host.runs, host.answers);
      if Data().installRepeat == Some(Released) {
        var verified := VerifyInstallRepeat(host.installAgain);
      }
    }

    /** From a settled installation to its removal. */
    method RecoverInstalled(host: Host) returns (replied: bool)
      requires Valid() && !broken && |chain| + |host.removes| + 14 <= MAX_REVISIONS
      requires At().Installed? || At().TargetBound? || At().PairReleased? || At().Paired? || IsRun(At()) || At().UnpairReleased? || At().Unpaired?
      requires RunSettles(host, At(), Data(), files) && RemovalSettles(host, anchor)
      requires !IsRun(At()) ==> Protected(At(), Data(), files)
      requires PairedAuthority(At(), Data()) && host.revocation.NeverGranted? ==> SettledPrior(At(), Data()).stage.PairReleased?
      requires InstallRecord(At(), Data()).Some? && InstallRecord(At(), Data()).value.observed.Some?
      requires ProvesRemoval(host.view, operator, InstallRecord(At(), Data()).value.observed.value)
      modifies this`chain, this`broken, this`seen, this`files
      ensures Valid() && !broken && At().Removed? && old(chain) <= chain
      ensures Data().preserved == Some(host.view) && Data().removeRepeat == Some(Pending)
      ensures Protected(At(), Data(), files) && (replied <==> host.applied.Some?)
    {
      hide Accepts, Parses, Protected, TargetKept, StartedOn, Recovered, CleanupProven, RemovalSettles, ProvesRemoval;
      if IsRun(At()) { SettleRun(host); }
      if PairedAuthority(At(), Data()) {
        ConvergePairing(host.revocation);
      }
      replied := RemoveInstallation(host);
    }

    /** `Installation.recover`: with a cooperating host and room in the chain,
        every record it proposes is admitted, and it ends untouched at `Bound`
        or proven at `Removed`, in a form the controller settles on. It reports
        an error, although the chain has ended there, exactly when it released
        the removal itself and lost the reply. */
    method Recover(host: Host) returns (ok: bool)
      requires Valid() && !broken && |chain| + Budget(host) <= MAX_REVISIONS
      requires Cooperates(host, At(), Data(), anchor, operator, files)
      modifies this`chain, this`broken, this`seen, this`files
      ensures Valid() && !broken && old(chain) <= chain
      ensures At() == if old(At()).Bound? then Bound else Removed
      ensures Settlement(Latest(), host.view, operator)
      ensures ok <==> old(At()).Bound? || IsRemoving(old(At())) || old(At()).Removed? || host.applied.Some?
    {
      hide Accepts, Parses;
      ok := true;
      if At().Bound? { return; }
      if At().InstallReleased? || At().InstallObserved? {
        SettleInstall(host.installs);
      }
      InstallKnown(At(), Data(), anchor, operator);
      if IsRemoving(At()) {
        FinishRemoval(host.removes, host.view);
      } else if !At().Removed? {
        ok := RecoverInstalled(host);
        if !ok { return; }
      }
      if Data().removeRepeat == Some(Released) {
        var verified := VerifyRemoveRepeat(host.removeAgain);
      }
    }
  }
}
