/**
 The facts every reachable state of the Run protocol keeps. The central one is
 `SessionHeld`: a Session that was not stopped keeps its Host Lock held.
 */
module HostInvariants {
  import opened Options
  import opened HostState
  import opened HostProtocol

  type Sessions = map<RunId, Session>

  /** The claim that owns a Run ID: its receipt's, or the lock's before there is one. */
  function Owner(d: Disk, r: RunId): Option<Claim> {
    if r in d.receipts then Some(d.receipts[r].claim)
    else if LockedBy(d, r) then Some(d.lock.value.claim)
    else None
  }

  // ----- facts about one Run -----

  /** A Run root is owned by its Run's claim or is empty; only the Run that
      holds the lock has one. */
  ghost predicate RootOwned(d: Disk, r: RunId) {
    r in d.roots ==>
      && LockedBy(d, r)
      && (d.roots[r].ownership.Some? ==> d.roots[r].ownership == Owner(d, r))
      && (d.roots[r].ownership.None? ==> d.roots[r].entries == {})
  }

  ghost predicate StagingOwned(d: Disk, r: RunId) {
    r in d.staging ==>
      LockedBy(d, r) && (d.staging[r].ownership.Some? ==> d.staging[r].ownership == Owner(d, r))
  }

  ghost predicate ReceiptKept(d: Disk, m: Sessions, r: RunId) {
    && (r in d.receipts ==>
          && d.receipts[r].claim.run == r
          && (!LockedBy(d, r) ==> d.receipts[r].cleanup.stopped)
          && (d.receipts[r].session.Some? ==> Rank(d.receipts[r].state) >= 2))
    && (r in m ==> r in d.receipts && (m[r].live ==> !m[r].stopped))
  }

  /** An unstopped Session keeps its lock held under its own identity, and
      while the lock names none the daemon can still be asked for it. */
  ghost predicate SessionHeld(d: Disk, m: Sessions, r: RunId) {
    Unstopped(m, r) ==>
      && LockedBy(d, r)
      && (d.lock.value.session.Some? ==> d.lock.value.session == Some(m[r].id))
      && (d.lock.value.session.None? ==> HasRequest(d, r) && DaemonDir in d.roots[r].entries)
  }

  /** A receipt names a Session that the lock does not only after a failed
      identity publication whose rollback failed too. */
  ghost predicate StaleIdentity(d: Disk, m: Sessions, r: RunId) {
    LockedBy(d, r) && d.lock.value.session.None? && r in d.receipts && d.receipts[r].session.Some? ==>
      && d.receipts[r].state.CleanupFailed? && d.receipts[r].rollback
      && r in m && d.receipts[r].session == Some(m[r].id)
  }

  /** Lock and receipt never name two different Sessions. */
  ghost predicate SameIdentity(d: Disk, r: RunId) {
    LockedBy(d, r) && d.lock.value.session.Some? && r in d.receipts && d.receipts[r].session.Some? ==>
      d.receipts[r].session == d.lock.value.session
  }

  ghost predicate RunInv(d: Disk, m: Sessions, r: RunId) {
    RootOwned(d, r) && StagingOwned(d, r) && ReceiptKept(d, m, r) && SessionHeld(d, m, r)
    && StaleIdentity(d, m, r) && SameIdentity(d, r)
  }

  // ----- facts about the lock -----

  ghost predicate LockInv(d: Disk) {
    && (d.setup.Some? ==> d.lock.None?)
    && (d.lock.Some? ==>
          var claim := d.lock.value.claim;
          && (claim.run in d.receipts ==> d.receipts[claim.run].claim == claim)
          && (ExactStarting(d, claim) ==> HasRequest(d, claim.run)))
  }

  // ----- facts about the executor -----

  ghost predicate KnowsIdentity(m: Sessions, claim: Claim, id: SessionId) {
    claim.run in m && m[claim.run].id == id
  }

  /** While the executor owns the launch it alone may decide the identity. */
  ghost predicate Launching(d: Disk, claim: Claim) {
    claim.run in d.receipts && (d.lock == Some(Lock(claim, None)) ==> ExactStarting(d, claim))
  }

  ghost predicate StillStarting(d: Disk, claim: Claim) {
    && claim.run in d.receipts
    && d.receipts[claim.run].claim == claim && d.receipts[claim.run].state.Starting? && d.receipts[claim.run].session.None?
  }

  ghost predicate MayBePublished(d: Disk, claim: Claim, id: SessionId) {
    d.lock == Some(Lock(claim, None)) || d.lock == Some(Lock(claim, Some(id)))
  }

  function PhaseRank(phase: Phase): nat {
    match phase
    case AwaitReady => 3
    case InScenario => 4
    case InBatch => 5
    case InCaptures => 6
  }

  ghost predicate ExecInv(d: Disk, m: Sessions, x: Exec) {
    match x
    case XInCall(claim, recorded) =>
      && Launching(d, claim)
      && (recorded ==> claim.run in m)
      && (claim.run !in m ==> ExactStarting(d, claim))
    case XReturned(claim, answer, _) =>
      Launching(d, claim) && (answer.Some? ==> KnowsIdentity(m, claim, answer.value))
    case XPublish(claim, id, _) => ExactStarting(d, claim) && KnowsIdentity(m, claim, id)
    case XRollback(claim, id) => MayBePublished(d, claim, id) && StillStarting(d, claim) && KnowsIdentity(m, claim, id)
    case XRolledBack(claim) => LockedFor(d, claim) && StillStarting(d, claim) && !Unstopped(m, claim.run)
    case XRollbackFailed(claim, id) => MayBePublished(d, claim, id) && StillStarting(d, claim) && KnowsIdentity(m, claim, id)
    case XPublished(claim, id, _) =>
      d.lock == Some(Lock(claim, Some(id))) && StillStarting(d, claim) && KnowsIdentity(m, claim, id)
    case XActive(claim, id, phase) =>
      && claim.run in d.receipts
      && (LockedFor(d, claim) ==>
            && d.lock.value.session == Some(id)
            && d.receipts[claim.run].session == Some(id)
            && Rank(d.receipts[claim.run].state) <= PhaseRank(phase))
    case _ => true
  }

  // ----- facts about the client operation -----

  /** What Settle remembers about the receipt it read is still on disk. */
  ghost predicate Remembers(d: Disk, w: Work) {
    var status := StatusOf(d, w.stored.claim.run);
    && status.Some?
    && status.value.claim == w.stored.claim
    && status.value.state == w.stored.state && status.value.rollback == w.stored.rollback
    && (status.value.session.Some? || w.lock.session.None? ==> w.stored.session == status.value.session)
    && (w.stored.session.Some? ==> Rank(w.stored.state) >= 2)
    && w.stored.cleanup == NO_CLEANUP
  }

  ghost predicate Quiet(m: Sessions, w: Work) {
    !Unstopped(m, w.stored.claim.run) && w.stored.session == w.lock.session
  }

  ghost predicate StoppedOnDisk(d: Disk, w: Work) {
    var r := w.stored.claim.run;
    && r in d.receipts && d.receipts[r].claim == w.stored.claim && d.receipts[r].cleanup.stopped
    && d.receipts[r].state == w.stored.state && d.receipts[r].session == w.stored.session
  }

  ghost predicate SettleInv(d: Disk, m: Sessions, step: Step, w: Work) {
    var claim := w.stored.claim;
    var r := claim.run;
    && (!step.Finish? ==> d.lock == Some(w.lock) && w.lock.claim == claim)
    && match step
       case RecoverStale => Remembers(d, w) && w.stored.session.Some? && w.lock.session.None?
       case ProbeStale => Remembers(d, w) && w.stored.session.Some? && w.lock.session.None? && !Unstopped(m, r)
       case WriteStale(id) =>
         && Remembers(d, w) && w.stored.session == Some(id) && w.lock.session.None?
         && (Unstopped(m, r) ==> m[r].id == id)
       case Recover => Remembers(d, w) && w.stored.session.None? && w.lock.session.None?
       case Probe => Remembers(d, w) && w.stored.session.None? && w.lock.session.None?
       case WriteLock(id) =>
         Remembers(d, w) && w.stored.session.None? && w.lock.session.None? && KnowsIdentity(m, claim, id)
       case WriteRecovered =>
         && Remembers(d, w) && w.stored.session.None? && w.lock.session.Some?
         && KnowsIdentity(m, claim, w.lock.session.value)
       case StopSession => Remembers(d, w) && w.stored.session.Some? && w.stored.session == w.lock.session
       case WriteStopped => Remembers(d, w) && Quiet(m, w)
       case RemoveRoot => StoppedOnDisk(d, w) && Quiet(m, w) && w.stored.cleanup == Cleanup(true, false, false, false)
       case RemoveStaging =>
         StoppedOnDisk(d, w) && Quiet(m, w) && w.stored.cleanup == Cleanup(true, false, false, false) && r !in d.roots
       case Release =>
         && StoppedOnDisk(d, w) && Quiet(m, w) && r !in d.roots && r !in d.staging
         && w.stored.cleanup == Cleanup(true, true, true, false)
       case Finish =>
         StoppedOnDisk(d, w) && d.lock.None? && w.stored.cleanup == Cleanup(true, true, true, false)
  }

  ghost predicate StagingIs(d: Disk, claim: Claim, dir: Dir) {
    d.lock == Some(Lock(claim, None)) && claim.run in d.staging && d.staging[claim.run] == dir
  }

  ghost predicate Startable(d: Disk, claim: Claim) {
    && d.lock == Some(Lock(claim, None)) && claim.run in d.roots
    && StatusOf(d, claim.run).Some?
    && (StatusOf(d, claim.run).value.state.Accepted? || StatusOf(d, claim.run).value.state.Staged?)
  }

  ghost predicate ClientInv(d: Disk, m: Sessions, c: Client) {
    match c
    case Idle => true
    case Acquired(claim) => d.lock == Some(Lock(claim, None)) && claim.run !in d.receipts
    case StageMade(claim) => StagingIs(d, claim, EMPTY_DIR)
    case StageTemporary(claim) => StagingIs(d, claim, Dir(None, {Temporary}))
    case StageFilling(claim) =>
      && claim.run in d.staging && StagingIs(d, claim, d.staging[claim.run])
      && d.staging[claim.run].ownership == Some(claim) && RequestFile !in d.staging[claim.run].entries
    case StageAborting(claim) => claim.run in d.staging && StagingIs(d, claim, d.staging[claim.run])
    case StagePublished(claim) =>
      && d.lock == Some(Lock(claim, None)) && claim.run in d.roots && RequestFile !in d.roots[claim.run].entries
      && d.roots[claim.run].entries != {}
    case StartRequest(claim) => Startable(d, claim) && d.roots[claim.run].entries != {}
    case StartPending(claim) => Startable(d, claim) && HasRequest(d, claim.run)
    case StartReceipt(claim) => Startable(d, claim) && HasRequest(d, claim.run)
    case Settling(step, w) => SettleInv(d, m, step, w)
    case ClearPending => d.lock.None?
    case Maintaining(own) => d.lock.None? && d.pending.None? && d.roots == map[] && d.staging == map[]
  }

  // ----- facts about both -----

  predicate AfterStop(step: Step) { step.WriteStopped? || step.RemoveRoot? || step.RemoveStaging? || step.Release? }

  /** The two locks exclude; and from the moment Settle knows there is no
      Session, the executor is not inside a launch of the claim. */
  ghost predicate Handshake(m: Sessions, c: Client, x: Exec) {
    && (!c.Idle? ==> !ExecHoldsOperation(x))
    && (c.Maintaining? ==> !ExecHoldsLaunch(x))
    && (c.Settling? ==>
          var inLaunch := ExecHoldsLaunch(x) && x.claim == c.work.stored.claim;
          && (c.step.Probe? && Unstopped(m, c.work.stored.claim.run) ==> inLaunch)
          && (AfterStop(c.step) && c.work.lock.session.None? ==> !inLaunch))
  }

  ghost predicate Inv(s: State) {
    && (forall r :: RunInv(s.disk, s.sessions, r))
    && LockInv(s.disk)
    && ExecInv(s.disk, s.sessions, s.exec)
    && ClientInv(s.disk, s.sessions, s.client)
    && Handshake(s.sessions, s.client, s.exec)
  }

  // ----- the runs the two processes and the lock speak of -----

  function ClientRun(c: Client): Option<RunId> {
    match c
    case Idle => None
    case ClearPending => None
    case Maintaining(_) => None
    case Settling(_, w) => Some(w.stored.claim.run)
    case _ => Some(c.claim.run)
  }

  function ExecRun(x: Exec): Option<RunId> {
    if x.XIdle? || x.XClearPending? then None else Some(x.claim.run)
  }

  ghost predicate Focus(s: State) {
    && (s.disk.lock.Some? ==> RunInv(s.disk, s.sessions, s.disk.lock.value.claim.run))
    && (ClientRun(s.client).Some? ==> RunInv(s.disk, s.sessions, ClientRun(s.client).value))
    && (ExecRun(s.exec).Some? ==> RunInv(s.disk, s.sessions, ExecRun(s.exec).value))
  }

  lemma InitHolds()
    ensures Inv(INIT)
  {
  }

  lemma RecordIdentityKeeps(s: State, t: State, identity: SessionId)
    requires Inv(s) && DaemonStep(s, Action.RecordIdentity(identity)) == Some(t)
    ensures Inv(t)
  {
    assert Focus(s);
    forall r ensures RunInv(t.disk, t.sessions, r) { assert RunInv(s.disk, s.sessions, r); }
  }

  lemma GoLiveKeeps(s: State, t: State, run: RunId)
    requires Inv(s) && DaemonStep(s, Action.GoLive(run)) == Some(t)
    ensures Inv(t)
  {
    assert Focus(s);
    forall r ensures RunInv(t.disk, t.sessions, r) { assert RunInv(s.disk, s.sessions, r); }
  }

  lemma DieKeeps(s: State, t: State, run: RunId)
    requires Inv(s) && DaemonStep(s, Action.Die(run)) == Some(t)
    ensures Inv(t)
  {
    assert Focus(s);
    forall r ensures RunInv(t.disk, t.sessions, r) { assert RunInv(s.disk, s.sessions, r); }
  }

  lemma AcquireLockKeeps(s: State, t: State, claim: Claim)
    requires Inv(s) && AcquireStep(s, Action.AcquireLock(claim)) == Some(t)
    ensures Inv(t)
  {
    assert Focus(s);
    forall r ensures RunInv(t.disk, t.sessions, r) { assert RunInv(s.disk, s.sessions, r); }
  }

  lemma AcquireReceiptKeeps(s: State, t: State)
    requires Inv(s) && AcquireStep(s, Action.AcquireReceipt) == Some(t)
    ensures Inv(t)
  {
    assert Focus(s);
    forall r ensures RunInv(t.disk, t.sessions, r) { assert RunInv(s.disk, s.sessions, r); }
  }

  lemma StageMakeKeeps(s: State, t: State, claim: Claim)
    requires Inv(s) && StageStep(s, Action.StageMake(claim)) == Some(t)
    ensures Inv(t)
  {
    assert Focus(s);
    forall r ensures RunInv(t.disk, t.sessions, r) { assert RunInv(s.disk, s.sessions, r); }
  }

  lemma StageTempKeeps(s: State, t: State)
    requires Inv(s) && StageStep(s, Action.StageTemp) == Some(t)
    ensures Inv(t)
  {
    assert Focus(s);
    forall r ensures RunInv(t.disk, t.sessions, r) { assert RunInv(s.disk, s.sessions, r); }
  }

  lemma StageOwnKeeps(s: State, t: State)
    requires Inv(s) && StageStep(s, Action.StageOwn) == Some(t)
    ensures Inv(t)
  {
    assert Focus(s);
    forall r ensures RunInv(t.disk, t.sessions, r) { assert RunInv(s.disk, s.sessions, r); }
  }

  lemma StageFillKeeps(s: State, t: State, entry: Entry)
    requires Inv(s) && StageStep(s, Action.StageFill(entry)) == Some(t)
    ensures Inv(t)
  {
    assert Focus(s);
    forall r ensures RunInv(t.disk, t.sessions, r) { assert RunInv(s.disk, s.sessions, r); }
  }

  lemma StageRenameKeeps(s: State, t: State)
    requires Inv(s) && StageStep(s, Action.StageRename) == Some(t)
    ensures Inv(t)
  {
    assert Focus(s);
    forall r ensures RunInv(t.disk, t.sessions, r) { assert RunInv(s.disk, s.sessions, r); }
  }

  lemma StageReceiptKeeps(s: State, t: State)
    requires Inv(s) && StageStep(s, Action.StageReceipt) == Some(t)
    ensures Inv(t)
  {
    assert Focus(s);
    forall r ensures RunInv(t.disk, t.sessions, r) { assert RunInv(s.disk, s.sessions, r); }
  }

  lemma StageFailKeeps(s: State, t: State)
    requires Inv(s) && StageStep(s, Action.StageFail) == Some(t)
    ensures Inv(t)
  {
    assert Focus(s);
    forall r ensures RunInv(t.disk, t.sessions, r) { assert RunInv(s.disk, s.sessions, r); }
  }

  lemma StageUnlinkKeeps(s: State, t: State, entry: Entry)
    requires Inv(s) && StageStep(s, Action.StageUnlink(entry)) == Some(t)
    ensures Inv(t)
  {
    assert Focus(s);
    forall r ensures RunInv(t.disk, t.sessions, r) { assert RunInv(s.disk, s.sessions, r); }
  }

  lemma StageDisownKeeps(s: State, t: State)
    requires Inv(s) && StageStep(s, Action.StageDisown) == Some(t)
    ensures Inv(t)
  {
    assert Focus(s);
    forall r ensures RunInv(t.disk, t.sessions, r) { assert RunInv(s.disk, s.sessions, r); }
  }

  lemma StageRemovedKeeps(s: State, t: State)
    requires Inv(s) && StageStep(s, Action.StageRemoved) == Some(t)
    ensures Inv(t)
  {
    assert Focus(s);
    forall r ensures RunInv(t.disk, t.sessions, r) { assert RunInv(s.disk, s.sessions, r); }
  }

  lemma StartBeginKeeps(s: State, t: State, claim: Claim)
    requires Inv(s) && StartStep(s, Action.StartBegin(claim)) == Some(t)
    ensures Inv(t)
  {
    assert Focus(s);
    forall r ensures RunInv(t.disk, t.sessions, r) { assert RunInv(s.disk, s.sessions, r); }
  }

  lemma StartWriteRequestKeeps(s: State, t: State)
    requires Inv(s) && StartStep(s, Action.StartWriteRequest) == Some(t)
    ensures Inv(t)
  {
    assert Focus(s);
    forall r ensures RunInv(t.disk, t.sessions, r) { assert RunInv(s.disk, s.sessions, r); }
  }

  lemma StartWritePendingKeeps(s: State, t: State)
    requires Inv(s) && StartStep(s, Action.StartWritePending) == Some(t)
    ensures Inv(t)
  {
    assert Focus(s);
    forall r ensures RunInv(t.disk, t.sessions, r) { assert RunInv(s.disk, s.sessions, r); }
  }

  lemma StartWriteReceiptKeeps(s: State, t: State)
    requires Inv(s) && StartStep(s, Action.StartWriteReceipt) == Some(t)
    ensures Inv(t)
  {
    assert Focus(s);
    forall r ensures RunInv(t.disk, t.sessions, r) { assert RunInv(s.disk, s.sessions, r); }
  }

  lemma StartRepairKeeps(s: State, t: State, claim: Claim)
    requires Inv(s) && StartStep(s, Action.StartRepair(claim)) == Some(t)
    ensures Inv(t)
  {
    assert Focus(s);
    forall r ensures RunInv(t.disk, t.sessions, r) { assert RunInv(s.disk, s.sessions, r); }
  }

  lemma SettleBeginKeeps(s: State, t: State, claim: Claim, asked: Option<SessionId>)
    requires Inv(s) && SettleStep(s, Action.SettleBegin(claim,asked)) == Some(t)
    ensures Inv(t)
  {
    assert Focus(s);
    forall r ensures RunInv(t.disk, t.sessions, r) { assert RunInv(s.disk, s.sessions, r); }
  }

  lemma SettleReplayKeeps(s: State, t: State, claim: Claim)
    requires Inv(s) && SettleStep(s, Action.SettleReplay(claim)) == Some(t)
    ensures Inv(t)
  {
    assert Focus(s);
    forall r ensures RunInv(t.disk, t.sessions, r) { assert RunInv(s.disk, s.sessions, r); }
  }

  lemma SettleRecoverKeeps(s: State, t: State, answer: Recovered)
    requires Inv(s) && SettleStep(s, Action.SettleRecover(answer)) == Some(t)
    ensures Inv(t)
  {
    assert Focus(s);
    forall r ensures RunInv(t.disk, t.sessions, r) { assert RunInv(s.disk, s.sessions, r); }
  }

  lemma SettleProbeKeeps(s: State, t: State)
    requires Inv(s) && SettleStep(s, Action.SettleProbe) == Some(t)
    ensures Inv(t)
  {
    assert Focus(s);
    forall r ensures RunInv(t.disk, t.sessions, r) { assert RunInv(s.disk, s.sessions, r); }
  }

  lemma WriteStaleKeeps(s: State, t: State)
    requires Inv(s) && s.client.Settling? && s.client.step.WriteStale? && SettleWriteStep(s) == Some(t)
    ensures Inv(t)
  {
    assert Focus(s);
    forall r ensures RunInv(t.disk, t.sessions, r) { assert RunInv(s.disk, s.sessions, r); }
  }

  lemma WriteLockKeeps(s: State, t: State)
    requires Inv(s) && s.client.Settling? && s.client.step.WriteLock? && SettleWriteStep(s) == Some(t)
    ensures Inv(t)
  {
    assert Focus(s);
    forall r ensures RunInv(t.disk, t.sessions, r) { assert RunInv(s.disk, s.sessions, r); }
  }

  lemma WriteRecoveredKeeps(s: State, t: State)
    requires Inv(s) && s.client.Settling? && s.client.step.WriteRecovered? && SettleWriteStep(s) == Some(t)
    ensures Inv(t)
  {
    assert Focus(s);
    forall r ensures RunInv(t.disk, t.sessions, r) { assert RunInv(s.disk, s.sessions, r); }
  }

  lemma WriteStoppedKeeps(s: State, t: State)
    requires Inv(s) && s.client.Settling? && s.client.step.WriteStopped? && SettleWriteStep(s) == Some(t)
    ensures Inv(t)
  {
    assert Focus(s);
    forall r ensures RunInv(t.disk, t.sessions, r) { assert RunInv(s.disk, s.sessions, r); }
  }

  lemma SettleStopRuns(s: State, t: State, confirmed: bool, effective: bool, r: RunId)
    requires Inv(s) && SettleStep(s, Action.SettleStop(confirmed,effective)) == Some(t)
    ensures RunInv(t.disk, t.sessions, r)
  {
    assert Focus(s) && RunInv(s.disk, s.sessions, r);
  }

  lemma SettleStopKeeps(s: State, t: State, confirmed: bool, effective: bool)
    requires Inv(s) && SettleStep(s, Action.SettleStop(confirmed,effective)) == Some(t)
    ensures Inv(t)
  {
    assert Focus(s);
    forall r ensures RunInv(t.disk, t.sessions, r) { SettleStopRuns(s, t, confirmed, effective, r); }
  }

  lemma RootUnlinkEntryKeeps(s: State, t: State, entry: Entry)
    requires Inv(s) && s.client.Settling? && s.client.step.RemoveRoot?
    requires RemoveRootStep(s, Action.UnlinkEntry(entry)) == Some(t)
    ensures Inv(t)
  {
    assert Focus(s);
    forall r ensures RunInv(t.disk, t.sessions, r) { assert RunInv(s.disk, s.sessions, r); }
  }

  lemma RootDisownKeeps(s: State, t: State)
    requires Inv(s) && s.client.Settling? && s.client.step.RemoveRoot? && RemoveRootStep(s, Action.Disown) == Some(t)
    ensures Inv(t)
  {
    assert Focus(s);
    forall r ensures RunInv(t.disk, t.sessions, r) { assert RunInv(s.disk, s.sessions, r); }
  }

  lemma RootRemoveDirKeeps(s: State, t: State)
    requires Inv(s) && s.client.Settling? && s.client.step.RemoveRoot? && RemoveRootStep(s, Action.RemoveDir) == Some(t)
    ensures Inv(t)
  {
    assert Focus(s);
    forall r ensures RunInv(t.disk, t.sessions, r) { assert RunInv(s.disk, s.sessions, r); }
  }

  lemma RootDirGoneKeeps(s: State, t: State)
    requires Inv(s) && s.client.Settling? && s.client.step.RemoveRoot? && RemoveRootStep(s, Action.DirGone) == Some(t)
    ensures Inv(t)
  {
    assert Focus(s);
    forall r ensures RunInv(t.disk, t.sessions, r) { assert RunInv(s.disk, s.sessions, r); }
  }

  lemma RemoveRootKeeps(s: State, a: Action, t: State)
    requires Inv(s) && s.client.Settling? && s.client.step.RemoveRoot? && RemoveRootStep(s, a) == Some(t)
    ensures Inv(t)
  {
    match a
    case UnlinkEntry(entry) => RootUnlinkEntryKeeps(s, t, entry);
    case Disown => RootDisownKeeps(s, t);
    case RemoveDir => RootRemoveDirKeeps(s, t);
    case DirGone => RootDirGoneKeeps(s, t);
    case _ => assert false;
  }

  lemma StagingUnlinkEntryKeeps(s: State, t: State, entry: Entry)
    requires Inv(s) && s.client.Settling? && s.client.step.RemoveStaging?
    requires RemoveStagingStep(s, Action.UnlinkEntry(entry)) == Some(t)
    ensures Inv(t)
  {
    assert Focus(s);
    forall r ensures RunInv(t.disk, t.sessions, r) { assert RunInv(s.disk, s.sessions, r); }
  }

  lemma StagingDisownKeeps(s: State, t: State)
    requires Inv(s) && s.client.Settling? && s.client.step.RemoveStaging? && RemoveStagingStep(s, Action.Disown) == Some(t)
    ensures Inv(t)
  {
    assert Focus(s);
    forall r ensures RunInv(t.disk, t.sessions, r) { assert RunInv(s.disk, s.sessions, r); }
  }

  lemma StagingRemoveDirKeeps(s: State, t: State)
    requires Inv(s) && s.client.Settling? && s.client.step.RemoveStaging?
    requires RemoveStagingStep(s, Action.RemoveDir) == Some(t)
    ensures Inv(t)
  {
    assert Focus(s);
    forall r ensures RunInv(t.disk, t.sessions, r) { assert RunInv(s.disk, s.sessions, r); }
  }

  lemma StagingDirGoneKeeps(s: State, t: State)
    requires Inv(s) && s.client.Settling? && s.client.step.RemoveStaging? && RemoveStagingStep(s, Action.DirGone) == Some(t)
    ensures Inv(t)
  {
    assert Focus(s);
    forall r ensures RunInv(t.disk, t.sessions, r) { assert RunInv(s.disk, s.sessions, r); }
  }

  lemma RemoveStagingKeeps(s: State, a: Action, t: State)
    requires Inv(s) && s.client.Settling? && s.client.step.RemoveStaging? && RemoveStagingStep(s, a) == Some(t)
    ensures Inv(t)
  {
    match a
    case UnlinkEntry(entry) => StagingUnlinkEntryKeeps(s, t, entry);
    case Disown => StagingDisownKeeps(s, t);
    case RemoveDir => StagingRemoveDirKeeps(s, t);
    case DirGone => StagingDirGoneKeeps(s, t);
    case _ => assert false;
  }

  lemma ReleaseLockRuns(s: State, t: State, r: RunId)
    requires Inv(s) && CleanupStep(s, Action.ReleaseLock) == Some(t)
    ensures RunInv(t.disk, t.sessions, r)
  {
    hide ExecInv, LockInv;
    assert Focus(s) && RunInv(s.disk, s.sessions, r);
  }

  lemma ReleaseLockKeeps(s: State, t: State)
    requires Inv(s) && CleanupStep(s, Action.ReleaseLock) == Some(t)
    ensures Inv(t)
  {
    hide RootOwned, StagingOwned, StaleIdentity, SameIdentity;
    assert Focus(s);
    forall r ensures RunInv(t.disk, t.sessions, r) { ReleaseLockRuns(s, t, r); }
  }

  lemma FinishReceiptRuns(s: State, t: State, r: RunId)
    requires Inv(s) && CleanupStep(s, Action.FinishReceipt) == Some(t)
    ensures RunInv(t.disk, t.sessions, r)
  {
    hide ExecInv, Handshake, LockInv;
    assert Focus(s) && RunInv(s.disk, s.sessions, r);
  }

  lemma FinishReceiptKeeps(s: State, t: State)
    requires Inv(s) && CleanupStep(s, Action.FinishReceipt) == Some(t)
    ensures Inv(t)
  {
    hide RootOwned, StagingOwned, SessionHeld, StaleIdentity, SameIdentity;
    assert Focus(s);
    forall r ensures RunInv(t.disk, t.sessions, r) { FinishReceiptRuns(s, t, r); }
  }

  lemma ReadPendingKeeps(s: State, t: State, request: Claim)
    requires Inv(s) && LaunchStep(s, Action.ReadPending(request)) == Some(t)
    ensures Inv(t)
  {
    assert Focus(s);
    forall r ensures RunInv(t.disk, t.sessions, r) { assert RunInv(s.disk, s.sessions, r); }
  }

  lemma AdmitKeeps(s: State, t: State)
    requires Inv(s) && LaunchStep(s, Action.Admit) == Some(t)
    ensures Inv(t)
  {
    assert Focus(s);
    forall r ensures RunInv(t.disk, t.sessions, r) { assert RunInv(s.disk, s.sessions, r); }
  }

  lemma RefuseStartKeeps(s: State, t: State, timedOut: bool)
    requires Inv(s) && LaunchStep(s, Action.RefuseStart(timedOut)) == Some(t)
    ensures Inv(t)
  {
    assert Focus(s);
    forall r ensures RunInv(t.disk, t.sessions, r) { assert RunInv(s.disk, s.sessions, r); }
  }

  lemma AbandonBatchKeeps(s: State, t: State)
    requires Inv(s) && LaunchStep(s, Action.AbandonBatch) == Some(t)
    ensures Inv(t)
  {
    assert Focus(s);
    forall r ensures RunInv(t.disk, t.sessions, r) { assert RunInv(s.disk, s.sessions, r); }
  }

  lemma ReturnStartKeeps(s: State, t: State, id: Option<SessionId>, failed: bool)
    requires Inv(s) && LaunchStep(s, Action.ReturnStart(id,failed)) == Some(t)
    ensures Inv(t)
  {
    assert Focus(s);
    forall r ensures RunInv(t.disk, t.sessions, r) { assert RunInv(s.disk, s.sessions, r); }
  }

  lemma ReconcileKeeps(s: State, t: State, answer: Recovered, timedOut: bool)
    requires Inv(s) && LaunchStep(s, Action.Reconcile(answer,timedOut)) == Some(t)
    ensures Inv(t)
  {
    assert Focus(s);
    forall r ensures RunInv(t.disk, t.sessions, r) { assert RunInv(s.disk, s.sessions, r); }
  }

  lemma PublishIdentityKeeps(s: State, t: State, applied: bool, reported: bool)
    requires Inv(s) && LaunchStep(s, Action.PublishIdentity(applied,reported)) == Some(t)
    ensures Inv(t)
  {
    assert Focus(s);
    forall r ensures RunInv(t.disk, t.sessions, r) { assert RunInv(s.disk, s.sessions, r); }
  }

  lemma RollbackStopKeeps(s: State, t: State, confirmed: bool, effective: bool)
    requires Inv(s) && LaunchStep(s, Action.RollbackStop(confirmed,effective)) == Some(t)
    ensures Inv(t)
  {
    assert Focus(s);
    forall r ensures RunInv(t.disk, t.sessions, r) { assert RunInv(s.disk, s.sessions, r); }
  }

  lemma RollbackReceiptRuns(s: State, t: State, r: RunId)
    requires Inv(s) && LaunchStep(s, Action.RollbackReceipt) == Some(t)
    ensures RunInv(t.disk, t.sessions, r)
  {
    hide ClientInv, SettleInv, Handshake, LockInv;
    assert Focus(s) && RunInv(s.disk, s.sessions, r);
  }

  lemma RollbackReceiptKeeps(s: State, t: State)
    requires Inv(s) && LaunchStep(s, Action.RollbackReceipt) == Some(t)
    ensures Inv(t)
  {
    assert Focus(s);
    forall r ensures RunInv(t.disk, t.sessions, r) { RollbackReceiptRuns(s, t, r); }
  }

  lemma PublishRunningKeeps(s: State, t: State, written: bool)
    requires Inv(s) && LaunchStep(s, Action.PublishRunning(written)) == Some(t)
    ensures Inv(t)
  {
    assert Focus(s);
    forall r ensures RunInv(t.disk, t.sessions, r) { assert RunInv(s.disk, s.sessions, r); }
  }

  lemma ProgressKeeps(s: State, t: State, next: Phase, batch: bool)
    requires Inv(s) && RunStep(s, Action.Progress(next,batch)) == Some(t)
    ensures Inv(t)
  {
    assert Focus(s);
    forall r ensures RunInv(t.disk, t.sessions, r) { assert RunInv(s.disk, s.sessions, r); }
  }

  lemma FailRunKeeps(s: State, t: State, timedOut: bool)
    requires Inv(s) && RunStep(s, Action.FailRun(timedOut)) == Some(t)
    ensures Inv(t)
  {
    assert Focus(s);
    forall r ensures RunInv(t.disk, t.sessions, r) { assert RunInv(s.disk, s.sessions, r); }
  }

  lemma CompleteRunKeeps(s: State, t: State)
    requires Inv(s) && RunStep(s, Action.CompleteRun) == Some(t)
    ensures Inv(t)
  {
    assert Focus(s);
    forall r ensures RunInv(t.disk, t.sessions, r) { assert RunInv(s.disk, s.sessions, r); }
  }

  lemma PruneRootRuns(s: State, t: State, r: RunId)
    requires Inv(s) && RunStep(s, Action.PruneRoot) == Some(t)
    ensures RunInv(t.disk, t.sessions, r)
  {
    assert Focus(s) && RunInv(s.disk, s.sessions, r);
  }

  lemma PruneRootKeeps(s: State, t: State)
    requires Inv(s) && RunStep(s, Action.PruneRoot) == Some(t)
    ensures Inv(t)
  {
    hide RunInv;
    assert Focus(s);
    forall r ensures RunInv(t.disk, t.sessions, r) { PruneRootRuns(s, t, r); }
  }

  lemma ExecutorClearsKeeps(s: State, t: State)
    requires Inv(s) && RunStep(s, Action.ExecutorClears) == Some(t)
    ensures Inv(t)
  {
    assert Focus(s);
    forall r ensures RunInv(t.disk, t.sessions, r) { assert RunInv(s.disk, s.sessions, r); }
  }

  lemma ClientKeeps(s: State, a: Action, t: State)
    requires Inv(s) && ClientStep(s, a) == Some(t)
    ensures Inv(t)
  {
    assert Focus(s);
    forall r ensures RunInv(t.disk, t.sessions, r) { assert RunInv(s.disk, s.sessions, r); }
  }

  lemma MaintenanceKeeps(s: State, a: Action, t: State)
    requires Inv(s) && MaintenanceStep(s, a) == Some(t)
    ensures Inv(t)
  {
    assert Focus(s);
    forall r ensures RunInv(t.disk, t.sessions, r) { assert RunInv(s.disk, s.sessions, r); }
  }

  lemma CrashKeeps(s: State, a: Action, t: State)
    requires Inv(s) && CrashStep(s, a) == Some(t)
    ensures Inv(t)
  {
    assert Focus(s);
    forall r ensures RunInv(t.disk, t.sessions, r) { assert RunInv(s.disk, s.sessions, r); }
  }

  lemma SettleWriteKeeps(s: State, t: State)
    requires Inv(s) && SettleStep(s, Action.SettleWrite) == Some(t)
    ensures Inv(t)
  {
    match s.client.step
    case WriteStale(_) => WriteStaleKeeps(s, t);
    case WriteLock(_) => WriteLockKeeps(s, t);
    case WriteRecovered => WriteRecoveredKeeps(s, t);
    case WriteStopped => WriteStoppedKeeps(s, t);
    case _ => assert false;
  }

  lemma CleanupKeeps(s: State, a: Action, t: State)
    requires Inv(s) && CleanupStep(s, a) == Some(t)
    ensures Inv(t)
  {
    match s.client.step
    case RemoveRoot => RemoveRootKeeps(s, a, t);
    case RemoveStaging => RemoveStagingKeeps(s, a, t);
    case Release => ReleaseLockKeeps(s, t);
    case Finish => FinishReceiptKeeps(s, t);
    case _ => assert false;
  }

  lemma DaemonKeeps(s: State, a: Action, t: State)
    requires Inv(s) && DaemonStep(s, a) == Some(t)
    ensures Inv(t)
  {
    match a
    case RecordIdentity(identity) => RecordIdentityKeeps(s, t, identity);
    case GoLive(run) => GoLiveKeeps(s, t, run);
    case Die(run) => DieKeeps(s, t, run);
    case _ => assert false;
  }

  lemma AcquireKeeps(s: State, a: Action, t: State)
    requires Inv(s) && AcquireStep(s, a) == Some(t)
    ensures Inv(t)
  {
    match a
    case AcquireLock(claim) => AcquireLockKeeps(s, t, claim);
    case AcquireReceipt => AcquireReceiptKeeps(s, t);
    case _ => assert false;
  }

  lemma StageKeeps(s: State, a: Action, t: State)
    requires Inv(s) && StageStep(s, a) == Some(t)
    ensures Inv(t)
  {
    match a
    case StageMake(claim) => StageMakeKeeps(s, t, claim);
    case StageTemp => StageTempKeeps(s, t);
    case StageOwn => StageOwnKeeps(s, t);
    case StageFill(entry) => StageFillKeeps(s, t, entry);
    case StageRename => StageRenameKeeps(s, t);
    case StageReceipt => StageReceiptKeeps(s, t);
    case StageFail => StageFailKeeps(s, t);
    case StageUnlink(entry) => StageUnlinkKeeps(s, t, entry);
    case StageDisown => StageDisownKeeps(s, t);
    case StageRemoved => StageRemovedKeeps(s, t);
    case _ => assert false;
  }

  lemma StartKeeps(s: State, a: Action, t: State)
    requires Inv(s) && StartStep(s, a) == Some(t)
    ensures Inv(t)
  {
    match a
    case StartBegin(claim) => StartBeginKeeps(s, t, claim);
    case StartWriteRequest => StartWriteRequestKeeps(s, t);
    case StartWritePending => StartWritePendingKeeps(s, t);
    case StartWriteReceipt => StartWriteReceiptKeeps(s, t);
    case StartRepair(claim) => StartRepairKeeps(s, t, claim);
    case _ => assert false;
  }

  lemma SettleKeeps(s: State, a: Action, t: State)
    requires Inv(s) && SettleStep(s, a) == Some(t)
    ensures Inv(t)
  {
    match a
    case SettleBegin(claim, asked) => SettleBeginKeeps(s, t, claim, asked);
    case SettleReplay(claim) => SettleReplayKeeps(s, t, claim);
    case SettleRecover(answer) => SettleRecoverKeeps(s, t, answer);
    case SettleProbe => SettleProbeKeeps(s, t);
    case SettleWrite => SettleWriteKeeps(s, t);
    case SettleStop(confirmed, effective) => SettleStopKeeps(s, t, confirmed, effective);
    case _ => assert false;
  }

  lemma LaunchKeeps(s: State, a: Action, t: State)
    requires Inv(s) && LaunchStep(s, a) == Some(t)
    ensures Inv(t)
  {
    match a
    case ReadPending(request) => ReadPendingKeeps(s, t, request);
    case Admit => AdmitKeeps(s, t);
    case RefuseStart(timedOut) => RefuseStartKeeps(s, t, timedOut);
    case AbandonBatch => AbandonBatchKeeps(s, t);
    case ReturnStart(id, failed) => ReturnStartKeeps(s, t, id, failed);
    case Reconcile(answer, timedOut) => ReconcileKeeps(s, t, answer, timedOut);
    case PublishIdentity(applied, reported) => PublishIdentityKeeps(s, t, applied, reported);
    case RollbackStop(confirmed, effective) => RollbackStopKeeps(s, t, confirmed, effective);
    case RollbackReceipt => RollbackReceiptKeeps(s, t);
    case PublishRunning(written) => PublishRunningKeeps(s, t, written);
    case _ => assert false;
  }

  lemma RunKeeps(s: State, a: Action, t: State)
    requires Inv(s) && RunStep(s, a) == Some(t)
    ensures Inv(t)
  {
    match a
    case Progress(next, batch) => ProgressKeeps(s, t, next, batch);
    case FailRun(timedOut) => FailRunKeeps(s, t, timedOut);
    case CompleteRun => CompleteRunKeeps(s, t);
    case PruneRoot => PruneRootKeeps(s, t);
    case ExecutorClears => ExecutorClearsKeeps(s, t);
    case _ => assert false;
  }

  /** Every step of every schedule keeps the invariant. */
  lemma NextKeeps(s: State, a: Action, t: State)
    requires Inv(s) && Next(s, a) == Some(t)
    ensures Inv(t)
  {
    hide Inv, AcquireStep, StageStep, StartStep, SettleStep, CleanupStep;
    hide MaintenanceStep, ClientStep, LaunchStep, RunStep, CrashStep, DaemonStep;
    match ActorOf(a)
    case Acquirer => AcquireKeeps(s, a, t);
    case Stager => StageKeeps(s, a, t);
    case Starter => StartKeeps(s, a, t);
    case Settler => SettleKeeps(s, a, t);
    case Cleaner => CleanupKeeps(s, a, t);
    case Maintainer => MaintenanceKeeps(s, a, t);
    case AnyClient => ClientKeeps(s, a, t);
    case Launcher => LaunchKeeps(s, a, t);
    case Runner => RunKeeps(s, a, t);
    case Crash => CrashKeeps(s, a, t);
    case Daemon => DaemonKeeps(s, a, t);
  }

  lemma {:induction false} ScheduleKeeps(s: State, schedule: seq<Action>, t: State)
    requires Inv(s) && Run(s, schedule) == Some(t)
    ensures Inv(t)
    decreases |schedule|
  {
    if schedule != [] {
      NextKeeps(s, schedule[0], Next(s, schedule[0]).value);
      ScheduleKeeps(Next(s, schedule[0]).value, schedule[1..], t);
    }
  }
}
