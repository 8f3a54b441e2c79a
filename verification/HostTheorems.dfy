/**
 What the Run protocol promises over whole schedules: a released Run stays
 quiet, a published identity never changes, a late Settle touches nothing of a
 newer Run, and a polling client never sees a receipt go backwards.
 */
module HostTheorems {
  import opened Options
  import opened HostState
  import opened HostProtocol
  import opened HostInvariants

  ghost predicate Reachable(s: State) {
    exists schedule :: Run(INIT, schedule) == Some(s)
  }

  lemma ReachableInv(s: State)
    requires Reachable(s)
    ensures Inv(s)
  {
    var schedule :| Run(INIT, schedule) == Some(s);
    InitHolds();
    ScheduleKeeps(INIT, schedule, s);
  }

  // ----- how one step changes lock and receipts -----

  /** The only write that can take a receipt backwards: Stage publishing over
      a receipt that is already past `Staged`. */
  predicate Regresses(s: State, a: Action, r: RunId) {
    && a.StageReceipt? && s.client.StagePublished? && s.client.claim.run == r
    && r in s.disk.receipts && Rank(s.disk.receipts[r].state) > Rank(RunState.Staged)
  }

  /** The Run was accepted once and its Host Lock is gone. */
  predicate WasReleased(d: Disk, r: RunId) {
    r in d.receipts && !LockedBy(d, r)
  }

  /** Receipt `next` may follow `last` in the eyes of a polling client. */
  predicate Follows(last: Receipt, next: Receipt) {
    && next.claim == last.claim
    && Rank(last.state) <= Rank(next.state)
    && (last.session.Some? ==> next.session == last.session)
  }

  /** No step returns a released lock, changes a published identity, or takes a
      receipt backwards, except `Regresses`. */
  ghost predicate Onward(s: State, a: Action, t: State, r: RunId) {
    && (WasReleased(s.disk, r) ==> WasReleased(t.disk, r))
    && (LockedBy(s.disk, r) && s.disk.lock.value.session.Some? ==> t.disk.lock == s.disk.lock || WasReleased(t.disk, r))
    && (StatusOf(s.disk, r).Some? ==>
          && StatusOf(t.disk, r).Some?
          && (Follows(StatusOf(s.disk, r).value, StatusOf(t.disk, r).value) <==> !Regresses(s, a, r)))
  }

  lemma AcquireOnward(s: State, a: Action, t: State, r: RunId)
    requires Inv(s) && AcquireStep(s, a) == Some(t)
    ensures Onward(s, a, t, r)
  {
    assert Focus(s) && RunInv(s.disk, s.sessions, r);
  }

  lemma UnwrittenOnward(s: State, a: Action, t: State, r: RunId)
    requires t.disk.lock == s.disk.lock && t.disk.receipts == s.disk.receipts && !a.StageReceipt?
    ensures Onward(s, a, t, r)
  {
  }

  lemma StageUnwritten(s: State, a: Action, t: State)
    requires StageStep(s, a) == Some(t) && !a.StageReceipt?
    ensures t.disk.lock == s.disk.lock && t.disk.receipts == s.disk.receipts
  {
  }

  lemma StageReceiptOnward(s: State, a: Action, t: State, r: RunId)
    requires Inv(s) && StageStep(s, a) == Some(t) && a.StageReceipt?
    ensures Onward(s, a, t, r)
  {
    assert Focus(s) && RunInv(s.disk, s.sessions, r);
  }

  lemma StageOnward(s: State, a: Action, t: State, r: RunId)
    requires Inv(s) && StageStep(s, a) == Some(t)
    ensures Onward(s, a, t, r)
  {
    hide Inv, Onward, StageStep;
    if a.StageReceipt? {
      StageReceiptOnward(s, a, t, r);
    } else {
      StageUnwritten(s, a, t);
      UnwrittenOnward(s, a, t, r);
    }
  }

  lemma StartOnward(s: State, a: Action, t: State, r: RunId)
    requires Inv(s) && StartStep(s, a) == Some(t)
    ensures Onward(s, a, t, r)
  {
    assert Focus(s) && RunInv(s.disk, s.sessions, r);
  }

  lemma WriteStaleOnward(s: State, t: State, r: RunId)
    requires Inv(s) && s.client.Settling? && s.client.step.WriteStale? && SettleWriteStep(s) == Some(t)
    ensures Onward(s, SettleWrite, t, r)
  {
    assert Focus(s) && RunInv(s.disk, s.sessions, r);
  }

  lemma WriteLockOnward(s: State, t: State, r: RunId)
    requires Inv(s) && s.client.Settling? && s.client.step.WriteLock? && SettleWriteStep(s) == Some(t)
    ensures Onward(s, SettleWrite, t, r)
  {
    assert Focus(s) && RunInv(s.disk, s.sessions, r);
  }

  lemma WriteRecoveredOnward(s: State, t: State, r: RunId)
    requires Inv(s) && s.client.Settling? && s.client.step.WriteRecovered? && SettleWriteStep(s) == Some(t)
    ensures Onward(s, SettleWrite, t, r)
  {
    assert Focus(s) && RunInv(s.disk, s.sessions, r);
  }

  lemma WriteStoppedOnward(s: State, t: State, r: RunId)
    requires Inv(s) && s.client.Settling? && s.client.step.WriteStopped? && SettleWriteStep(s) == Some(t)
    ensures Onward(s, SettleWrite, t, r)
  {
    assert Focus(s) && RunInv(s.disk, s.sessions, r);
  }

  lemma SettleReplayOnward(s: State, a: Action, t: State, r: RunId)
    requires Inv(s) && a.SettleReplay? && SettleStep(s, a) == Some(t)
    ensures Onward(s, a, t, r)
  {
    assert Focus(s) && RunInv(s.disk, s.sessions, r);
  }

  lemma SettleOnward(s: State, a: Action, t: State, r: RunId)
    requires Inv(s) && SettleStep(s, a) == Some(t)
    ensures Onward(s, a, t, r)
  {
    match a
    case SettleReplay(_) => SettleReplayOnward(s, a, t, r);
    case SettleWrite =>
      match s.client.step {
        case WriteStale(_) => WriteStaleOnward(s, t, r);
        case WriteLock(_) => WriteLockOnward(s, t, r);
        case WriteRecovered => WriteRecoveredOnward(s, t, r);
        case WriteStopped => WriteStoppedOnward(s, t, r);
        case _ => assert false;
      }
    case _ => UnwrittenOnward(s, a, t, r);
  }

  lemma ReleaseOnward(s: State, a: Action, t: State, r: RunId)
    requires Inv(s) && s.client.Settling? && s.client.step.Release? && CleanupStep(s, a) == Some(t)
    ensures Onward(s, a, t, r)
  {
    assert Focus(s) && RunInv(s.disk, s.sessions, r);
  }

  lemma FinishOnward(s: State, a: Action, t: State, r: RunId)
    requires Inv(s) && s.client.Settling? && s.client.step.Finish? && CleanupStep(s, a) == Some(t)
    ensures Onward(s, a, t, r)
  {
    assert Focus(s) && RunInv(s.disk, s.sessions, r);
  }

  lemma CleanupOnward(s: State, a: Action, t: State, r: RunId)
    requires Inv(s) && CleanupStep(s, a) == Some(t)
    ensures Onward(s, a, t, r)
  {
    match s.client.step
    case Release => ReleaseOnward(s, a, t, r);
    case Finish => FinishOnward(s, a, t, r);
    case RemoveRoot => UnwrittenOnward(s, a, t, r);
    case RemoveStaging => UnwrittenOnward(s, a, t, r);
    case _ => assert false;
  }

  lemma MaintenanceOnward(s: State, a: Action, t: State, r: RunId)
    requires Inv(s) && MaintenanceStep(s, a) == Some(t)
    ensures Onward(s, a, t, r)
  {
    assert Focus(s) && RunInv(s.disk, s.sessions, r);
  }

  lemma ClientOnward(s: State, a: Action, t: State, r: RunId)
    requires Inv(s) && ClientStep(s, a) == Some(t)
    ensures Onward(s, a, t, r)
  {
    assert Focus(s) && RunInv(s.disk, s.sessions, r);
  }

  lemma ReconcileOnward(s: State, a: Action, t: State, r: RunId)
    requires Inv(s) && a.Reconcile? && LaunchStep(s, a) == Some(t)
    ensures Onward(s, a, t, r)
  {
    assert Focus(s) && RunInv(s.disk, s.sessions, r);
  }

  lemma PublishIdentityOnward(s: State, a: Action, t: State, r: RunId)
    requires Inv(s) && a.PublishIdentity? && LaunchStep(s, a) == Some(t)
    ensures Onward(s, a, t, r)
  {
    assert Focus(s) && RunInv(s.disk, s.sessions, r);
  }

  lemma RollbackReceiptOnward(s: State, a: Action, t: State, r: RunId)
    requires Inv(s) && a.RollbackReceipt? && LaunchStep(s, a) == Some(t)
    ensures Onward(s, a, t, r)
  {
    assert Focus(s) && RunInv(s.disk, s.sessions, r);
  }

  lemma PublishRunningOnward(s: State, a: Action, t: State, r: RunId)
    requires Inv(s) && a.PublishRunning? && LaunchStep(s, a) == Some(t)
    ensures Onward(s, a, t, r)
  {
    assert Focus(s) && RunInv(s.disk, s.sessions, r);
  }

  lemma RefuseStartOnward(s: State, a: Action, t: State, r: RunId)
    requires Inv(s) && a.RefuseStart? && LaunchStep(s, a) == Some(t)
    ensures Onward(s, a, t, r)
  {
    assert Focus(s) && RunInv(s.disk, s.sessions, r);
  }

  lemma AbandonBatchOnward(s: State, a: Action, t: State, r: RunId)
    requires Inv(s) && a.AbandonBatch? && LaunchStep(s, a) == Some(t)
    ensures Onward(s, a, t, r)
  {
    assert Focus(s) && RunInv(s.disk, s.sessions, r);
  }

  lemma LaunchOnward(s: State, a: Action, t: State, r: RunId)
    requires Inv(s) && LaunchStep(s, a) == Some(t)
    ensures Onward(s, a, t, r)
  {
    match a
    case RefuseStart(_) => RefuseStartOnward(s, a, t, r);
    case AbandonBatch => AbandonBatchOnward(s, a, t, r);
    case Reconcile(_, _) => ReconcileOnward(s, a, t, r);
    case PublishIdentity(_, _) => PublishIdentityOnward(s, a, t, r);
    case RollbackReceipt => RollbackReceiptOnward(s, a, t, r);
    case PublishRunning(_) => PublishRunningOnward(s, a, t, r);
    case _ => UnwrittenOnward(s, a, t, r);
  }

  lemma RunOnward(s: State, a: Action, t: State, r: RunId)
    requires Inv(s) && RunStep(s, a) == Some(t)
    ensures Onward(s, a, t, r)
  {
    assert Focus(s) && RunInv(s.disk, s.sessions, r);
  }

  lemma CrashOnward(s: State, a: Action, t: State, r: RunId)
    requires Inv(s) && CrashStep(s, a) == Some(t)
    ensures Onward(s, a, t, r)
  {
    assert Focus(s) && RunInv(s.disk, s.sessions, r);
  }

  lemma DaemonOnward(s: State, a: Action, t: State, r: RunId)
    requires Inv(s) && DaemonStep(s, a) == Some(t)
    ensures Onward(s, a, t, r)
  {
    assert Focus(s) && RunInv(s.disk, s.sessions, r);
  }

  /** Every enabled step of every process is `Onward` for every Run. */
  lemma NextOnward(s: State, a: Action, t: State, r: RunId)
    requires Inv(s) && Next(s, a) == Some(t)
    ensures Onward(s, a, t, r)
  {
    match ActorOf(a)
    case Acquirer => AcquireOnward(s, a, t, r);
    case Stager => StageOnward(s, a, t, r);
    case Starter => StartOnward(s, a, t, r);
    case Settler => SettleOnward(s, a, t, r);
    case Cleaner => CleanupOnward(s, a, t, r);
    case Maintainer => MaintenanceOnward(s, a, t, r);
    case AnyClient => ClientOnward(s, a, t, r);
    case Launcher => LaunchOnward(s, a, t, r);
    case Runner => RunOnward(s, a, t, r);
    case Crash => CrashOnward(s, a, t, r);
    case Daemon => DaemonOnward(s, a, t, r);
  }

  // ----- a released Run -----

  lemma {:induction false} ReleaseLasts(s: State, schedule: seq<Action>, t: State, r: RunId)
    requires Inv(s) && Run(s, schedule) == Some(t) && WasReleased(s.disk, r)
    ensures WasReleased(t.disk, r)
    decreases |schedule|
  {
    if schedule != [] {
      var next := Next(s, schedule[0]).value;
      NextKeeps(s, schedule[0], next);
      NextOnward(s, schedule[0], next, r);
      ReleaseLasts(next, schedule[1..], t, r);
    }
  }

  /** Nothing of the Run is left, and neither the daemon nor an executor that
      is still inside its Start call can bring a Session of it to life. */
  ghost predicate Quiescence(s: State, r: RunId)
    requires r in s.disk.receipts
  {
    && s.disk.receipts[r].cleanup.stopped
    && r !in s.disk.roots && r !in s.disk.staging
    && (r in s.sessions ==> s.sessions[r].stopped && !s.sessions[r].live)
    && (s.exec.XInCall? && s.exec.claim.run == r ==> forall identity :: DaemonStep(s, RecordIdentity(identity)).None?)
    && DaemonStep(s, GoLive(r)).None?
  }

  lemma ReleasedIsQuiet(s: State, r: RunId)
    requires Inv(s) && WasReleased(s.disk, r)
    ensures Quiescence(s, r)
  {
    assert Focus(s) && RunInv(s.disk, s.sessions, r);
  }

  /** Safety: once the Host Lock of an accepted Run is gone, then in every
      later state none of its Sessions is live or can become live, its Run root
      and staging directory are gone, and it never holds the lock again. */
  lemma ReleasedRunStaysQuiet(s: State, schedule: seq<Action>, t: State, r: RunId)
    requires Reachable(s) && Run(s, schedule) == Some(t)
    requires WasReleased(s.disk, r)
    ensures WasReleased(t.disk, r) && Quiescence(t, r)
  {
    ReachableInv(s);
    ScheduleKeeps(s, schedule, t);
    ReleaseLasts(s, schedule, t, r);
    ReleasedIsQuiet(t, r);
  }

  /** At any moment the unstopped Sessions of the whole host are at most one,
      and it is the lock holder's. */
  lemma OneUnstoppedSession(s: State, r: RunId, q: RunId)
    requires Reachable(s) && Unstopped(s.sessions, r) && Unstopped(s.sessions, q)
    ensures r == q && LockedBy(s.disk, r)
  {
    ReachableInv(s);
    assert RunInv(s.disk, s.sessions, r) && RunInv(s.disk, s.sessions, q);
  }

  // ----- the identity in the lock -----

  /** The Session identity in a Run's lock goes from empty to one value and
      never changes while the lock exists. */
  lemma {:induction false} IdentityNeverChanges(s: State, schedule: seq<Action>, t: State, claim: Claim, id: SessionId)
    requires Inv(s) && Run(s, schedule) == Some(t)
    requires s.disk.lock == Some(Lock(claim, Some(id)))
    ensures LockedFor(t.disk, claim) ==> t.disk.lock.value.session == Some(id)
    decreases |schedule|
  {
    if schedule != [] {
      var next := Next(s, schedule[0]).value;
      NextKeeps(s, schedule[0], next);
      NextOnward(s, schedule[0], next, claim.run);
      if next.disk.lock == s.disk.lock {
        IdentityNeverChanges(next, schedule[1..], t, claim, id);
      } else {
        ReleaseLasts(next, schedule[1..], t, claim.run);
      }
    }
  }

  // ----- a late Settle -----

  /** A Settle that arrives while a newer Run holds the lock either does
      nothing or completes its own receipt in one write; the newer Run's lock,
      root, receipt and pending request are untouched. */
  lemma LateSettleLeavesNewerRun(s: State, a: Action, t: State, claim: Claim, newer: Claim)
    requires Reachable(s) && Next(s, a) == Some(t)
    requires a == SettleReplay(claim) || (a.SettleBegin? && a.claim == claim)
    requires LockedFor(s.disk, newer) && newer != claim
    ensures a == SettleReplay(claim) && newer.run != claim.run
    ensures t.client.Idle?
    ensures claim.run in t.disk.receipts && t.disk.receipts[claim.run].cleanup == ALL_CLEAN
    ensures Terminal(t.disk.receipts[claim.run].state)
    ensures t == s.(disk := s.disk.(receipts := s.disk.receipts[claim.run := t.disk.receipts[claim.run]]))
  {
    ReachableInv(s);
    assert Focus(s);
    assert RunInv(s.disk, s.sessions, claim.run);
  }

  /** A crash between the removal of the lock and the final receipt loses
      nothing: from then on a Settle of the same claim is answered at once. */
  lemma ReplayAfterRelease(s: State, claim: Claim)
    requires Reachable(s) && OperationFree(s)
    requires WasReleased(s.disk, claim.run) && s.disk.receipts[claim.run].claim == claim
    ensures Next(s, SettleReplay(claim)).Some?
    ensures Next(s, SettleReplay(claim)).value.disk.receipts[claim.run].cleanup.Known()
  {
    ReachableInv(s);
    assert RunInv(s.disk, s.sessions, claim.run);
  }

  // ----- setup maintenance -----

  /** The setup fence and the Host Lock never coexist, and while a maintenance
      action runs no launch is in flight and no Session of any Run is live. */
  lemma MaintenanceIsExclusive(s: State)
    requires Reachable(s)
    ensures s.disk.setup.Some? ==> s.disk.lock.None?
    ensures s.client.Maintaining? ==> !ExecHoldsLaunch(s.exec) && !ExecHoldsOperation(s.exec)
    ensures s.client.Maintaining? ==> forall r :: r in s.sessions ==> !s.sessions[r].live
  {
    ReachableInv(s);
    forall r | r in s.sessions && s.client.Maintaining?
      ensures !s.sessions[r].live
    {
      assert RunInv(s.disk, s.sessions, r);
    }
  }

}
