/**
 When an interrupted Settle can be repeated: which of its crash points leave a
 Run that a repeated Settle finishes, what executor and daemon may do to such a
 Run in the meantime, and from where no later Settle ever finishes.
 */
module HostResume {
  import opened Options
  import opened HostState
  import opened HostProtocol
  import opened HostInvariants
  import opened HostTheorems
  import opened HostService

  // ----- which crash points of a Settle cannot be resumed -----

  predicate Split(d: Disk) {
    d.lock.Some? && SplitIdentity(d, d.lock.value.claim)
  }

  predicate Orphaned(d: Disk) {
    d.lock.Some? && OrphanedStaging(d, d.lock.value.claim)
  }

  /** The lock names the recovered Session and the receipt does not yet. */
  predicate BetweenLockAndReceipt(c: Client) {
    c.Settling? && c.step.WriteRecovered? && !c.work.stored.state.Starting?
  }

  /** A crash right now leaves a Run that a repeated Settle can finish, exactly
      unless it falls between the two writes that adopt a recovered Session. */
  predicate CrashPoint(s: State) {
    !Orphaned(s.disk) && (Split(s.disk) <==> BetweenLockAndReceipt(s.client))
  }

  lemma WriteCrash(s: State, t: State)
    requires Inv(s) && s.client.Settling? && SettleWriteStep(s) == Some(t) && CrashPoint(s)
    ensures CrashPoint(t)
  {
    assert Focus(s);
  }

  lemma RootCrash(s: State, a: Action, t: State)
    requires Inv(s) && s.client.Settling? && s.client.step.RemoveRoot? && RemoveRootStep(s, a) == Some(t) && CrashPoint(s)
    ensures CrashPoint(t)
  {
  }

  lemma StagingCrash(s: State, a: Action, t: State)
    requires Inv(s) && s.client.Settling? && s.client.step.RemoveStaging? && RemoveStagingStep(s, a) == Some(t)
    requires CrashPoint(s)
    ensures CrashPoint(t)
  {
    assert Focus(s);
  }

  lemma ReleaseCrash(s: State, a: Action, t: State)
    requires Inv(s) && s.client.Settling? && (s.client.step.Release? || s.client.step.Finish?)
    requires CleanupStep(s, a) == Some(t)
    ensures CrashPoint(t)
  {
  }

  lemma CleanupCrash(s: State, a: Action, t: State)
    requires Inv(s) && s.client.Settling? && CleanupStep(s, a) == Some(t) && CrashPoint(s)
    ensures CrashPoint(t)
  {
    hide Inv, CrashPoint, RemoveRootStep, RemoveStagingStep;
    match s.client.step
    case RemoveRoot => RootCrash(s, a, t);
    case RemoveStaging => StagingCrash(s, a, t);
    case _ => ReleaseCrash(s, a, t);
  }

  /** Lock, receipts, staging directories and the Settle itself stand still. */
  predicate Untouched(s: State, t: State)
    requires s.client.Settling?
  {
    && t.disk.lock == s.disk.lock && t.disk.receipts == s.disk.receipts && t.disk.staging == s.disk.staging
    && (t.client == s.client || (t.client.Settling? && !t.client.step.WriteRecovered? && !s.client.step.WriteRecovered?))
  }

  lemma AskCrash(s: State, a: Action, t: State)
    requires s.client.Settling? && SettleStep(s, a) == Some(t) && !a.SettleWrite? && t.client.Settling?
    ensures Untouched(s, t)
  {
  }

  lemma LaunchCrash(s: State, a: Action, t: State)
    requires s.client.Settling? && !ExecHoldsOperation(s.exec) && LaunchStep(s, a) == Some(t)
    ensures Untouched(s, t)
  {
  }

  lemma EnvironmentCrash(s: State, a: Action, t: State)
    requires s.client.Settling? && !ExecHoldsOperation(s.exec)
    requires RunStep(s, a) == Some(t) || CrashStep(s, a) == Some(t) || DaemonStep(s, a) == Some(t)
    ensures Untouched(s, t)
  {
  }

  lemma NobodyElse(s: State, a: Action)
    requires s.client.Settling?
    ensures AcquireStep(s, a).None? && StartStep(s, a).None? && MaintenanceStep(s, a).None?
    ensures ClientStep(s, a).Some? ==> ClientStep(s, a).value.client.Idle?
  {
  }

  lemma NobodyStages(s: State, a: Action)
    requires s.client.Settling?
    ensures StageStep(s, a).None?
  {
  }

  lemma ExecutorWaits(s: State)
    requires Inv(s) && s.client.Settling?
    ensures !ExecHoldsOperation(s.exec)
  {
  }

  /** One step by whichever process, during a Settle. */
  lemma StepCrash(s: State, a: Action, t: State)
    requires Inv(s) && Next(s, a) == Some(t) && s.client.Settling? && t.client.Settling? && CrashPoint(s)
    ensures CrashPoint(t)
  {
    hide Inv, AcquireStep, StageStep, StartStep, CleanupStep, MaintenanceStep, ClientStep, LaunchStep, RunStep, CrashStep, DaemonStep;
    NobodyElse(s, a);
    NobodyStages(s, a);
    ExecutorWaits(s);
    match ActorOf(a)
    case Settler => if a.SettleWrite? { WriteCrash(s, t); } else { AskCrash(s, a, t); }
    case Cleaner => CleanupCrash(s, a, t);
    case Launcher => LaunchCrash(s, a, t);
    case Runner => EnvironmentCrash(s, a, t);
    case Crash => EnvironmentCrash(s, a, t);
    case Daemon => EnvironmentCrash(s, a, t);
    case _ => assert false;
  }

  /** The client is inside one Settle during the whole schedule. */
  ghost predicate SettlesThroughout(s: State, schedule: seq<Action>)
    decreases |schedule|
  {
    && s.client.Settling?
    && (schedule != [] ==> Next(s, schedule[0]).Some? && SettlesThroughout(Next(s, schedule[0]).value, schedule[1..]))
  }

  /** Settle can be resumed: in any interleaving with executor and daemon, every
      state a crash of Settle leaves behind can be finished by repeating it,
      except between the two writes that adopt a recovered Session. */
  lemma {:induction false} CrashPoints(s: State, schedule: seq<Action>, t: State)
    requires Inv(s) && Run(s, schedule) == Some(t) && SettlesThroughout(s, schedule) && CrashPoint(s)
    ensures CrashPoint(t)
    decreases |schedule|
  {
    hide Inv, Next, CrashPoint;
    if schedule != [] {
      var next := Next(s, schedule[0]).value;
      NextKeeps(s, schedule[0], next);
      StepCrash(s, schedule[0], next);
      CrashPoints(next, schedule[1..], t);
    }
  }

  // ----- the pin a Settle carries -----

  predicate BeforeCheck(step: Step) {
    step.RecoverStale? || step.ProbeStale? || step.WriteStale?
  }

  /** A Session the client names is the one Settle works on. */
  predicate PinMatches(w: Work) {
    w.asked.Some? ==> w.asked == w.stored.session
  }

  predicate PinChecked(c: Client) {
    c.Settling? && !BeforeCheck(c.step) ==> PinMatches(c.work)
  }

  lemma SettlePinChecked(s: State, a: Action, t: State)
    requires Inv(s) && SettleStep(s, a) == Some(t) && PinChecked(s.client)
    ensures PinChecked(t.client)
  {
    assert Focus(s);
  }

  lemma CleanupPinChecked(s: State, a: Action, t: State)
    requires CleanupStep(s, a) == Some(t) && PinChecked(s.client)
    ensures PinChecked(t.client)
  {
  }

  lemma OtherClient(s: State, a: Action, t: State)
    requires AcquireStep(s, a) == Some(t) || StartStep(s, a) == Some(t) || MaintenanceStep(s, a) == Some(t) || ClientStep(s, a) == Some(t)
    ensures !t.client.Settling? || t.client == s.client
  {
  }

  lemma StagingClient(s: State, a: Action, t: State)
    requires StageStep(s, a) == Some(t)
    ensures !t.client.Settling?
  {
  }

  /** Executor and daemon do not move the client's operation. */
  lemma SameClient(s: State, a: Action, t: State)
    requires LaunchStep(s, a) == Some(t) || RunStep(s, a) == Some(t) || CrashStep(s, a) == Some(t) || DaemonStep(s, a) == Some(t)
    ensures t.client == s.client
  {
  }

  /** Whatever the schedule, a Settle past its authority checks works on the
      Session it was asked for. */
  lemma {:induction false} PinIsChecked(s: State, schedule: seq<Action>, t: State)
    requires Inv(s) && Run(s, schedule) == Some(t) && PinChecked(s.client)
    ensures PinChecked(t.client)
    decreases |schedule|
  {
    hide Inv, Next, PinChecked;
    if schedule != [] {
      var next := Next(s, schedule[0]).value;
      NextKeeps(s, schedule[0], next);
      PinStep(s, schedule[0], next);
      PinIsChecked(next, schedule[1..], t);
    }
  }

  lemma PinStep(s: State, a: Action, t: State)
    requires Inv(s) && Next(s, a) == Some(t) && PinChecked(s.client)
    ensures PinChecked(t.client)
  {
    hide Inv, AcquireStep, StageStep, StartStep, SettleStep, CleanupStep, MaintenanceStep, ClientStep;
    hide LaunchStep, RunStep, CrashStep, DaemonStep;
    match ActorOf(a)
    case Settler => SettlePinChecked(s, a, t);
    case Cleaner => CleanupPinChecked(s, a, t);
    case Stager => StagingClient(s, a, t);
    case Launcher => SameClient(s, a, t);
    case Runner => SameClient(s, a, t);
    case Crash => SameClient(s, a, t);
    case Daemon => SameClient(s, a, t);
    case _ => OtherClient(s, a, t);
  }

  /** A Settle that crashes can be repeated with the request it was given, pin
      and all, exactly when the crash did not fall between the two writes of an
      adoption and the pin named the receipt's Session. Past the authority
      checks the pin always does. */
  lemma ResumeAfterCrash(s: State, t: State)
    requires Reachable(s) && s.client.Settling? && CrashPoint(s)
    requires Next(s, ClientStops) == Some(t)
    ensures Settleable(t.disk, s.client.work.stored.claim, s.client.work.asked)
            <==> !BetweenLockAndReceipt(s.client) && PinMatches(s.client.work)
    ensures !BeforeCheck(s.client.step) ==> PinMatches(s.client.work)
  {
    hide Inv, Run, CrashPoint, PinMatches, BeforeCheck, Settleable, BetweenLockAndReceipt;
    ReachablePin(s);
    CrashedDisk(s);
  }

  lemma ReachablePin(s: State)
    requires Reachable(s)
    ensures Inv(s) && PinChecked(s.client)
  {
    hide Inv, Run, Next;
    var schedule :| Run(INIT, schedule) == Some(s);
    InitHolds();
    ScheduleKeeps(INIT, schedule, s);
    PinIsChecked(INIT, schedule, s);
  }

  lemma CrashedDisk(s: State)
    requires Inv(s) && s.client.Settling? && CrashPoint(s) && PinChecked(s.client)
    ensures Settleable(s.disk, s.client.work.stored.claim, s.client.work.asked)
            <==> !BetweenLockAndReceipt(s.client) && PinMatches(s.client.work)
  {
    assert Focus(s);
  }

  // ----- how a Run comes to be split -----

  /** Settle writes the Session it recovered into the lock of a Run that is no
      longer `Starting`. */
  predicate AdoptsLock(s: State, a: Action) {
    a.SettleWrite? && s.client.Settling? && s.client.step.WriteLock? && !s.client.work.stored.state.Starting?
  }

  /** The executor fails the Run after a confirmed rollback although the lock
      already names the Session: the write reported as failed took effect. */
  predicate RollsBack(s: State, a: Action) {
    a.RollbackReceipt? && s.exec.XRolledBack? && s.disk.lock.Some? && s.disk.lock.value.session.Some?
  }

  predicate SplitCause(s: State, a: Action) { AdoptsLock(s, a) || RollsBack(s, a) }

  ghost predicate SplitsNow(s: State, a: Action, t: State) {
    Split(t.disk) <==> SplitCause(s, a)
  }

  lemma AcquireSplit(s: State, a: Action, t: State)
    requires Inv(s) && !Split(s.disk) && AcquireStep(s, a) == Some(t)
    ensures SplitsNow(s, a, t)
  {
    assert Focus(s);
  }

  lemma StageSplit(s: State, a: Action, t: State)
    requires Inv(s) && !Split(s.disk) && StageStep(s, a) == Some(t)
    ensures SplitsNow(s, a, t)
  {
    if !a.StageReceipt? {
      StageUnwritten(s, a, t);
    }
  }

  lemma StartSplit(s: State, a: Action, t: State)
    requires Inv(s) && !Split(s.disk) && StartStep(s, a) == Some(t)
    ensures SplitsNow(s, a, t)
  {
    assert Focus(s);
  }

  lemma WriteSplit(s: State, t: State)
    requires Inv(s) && !Split(s.disk) && SettleStep(s, SettleWrite) == Some(t)
    ensures SplitsNow(s, SettleWrite, t)
  {
    assert Focus(s);
  }

  lemma SettleSplit(s: State, a: Action, t: State)
    requires Inv(s) && !Split(s.disk) && SettleStep(s, a) == Some(t) && !a.SettleWrite?
    ensures SplitsNow(s, a, t)
  {
  }

  lemma CleanupSplit(s: State, a: Action, t: State)
    requires Inv(s) && !Split(s.disk) && CleanupStep(s, a) == Some(t)
    ensures SplitsNow(s, a, t)
  {
    hide RemoveRootStep, RemoveStagingStep;
    match s.client.step
    case RemoveRoot => DirectoryUnwritten(s, a, t);
    case RemoveStaging => DirectoryUnwritten(s, a, t);
    case _ =>
  }

  lemma DirectoryUnwritten(s: State, a: Action, t: State)
    requires s.client.Settling? && (RemoveRootStep(s, a) == Some(t) || RemoveStagingStep(s, a) == Some(t))
    ensures t.disk.lock == s.disk.lock && t.disk.receipts == s.disk.receipts
  {
  }

  lemma IdleSplit(s: State, a: Action, t: State)
    requires !Split(s.disk) && (MaintenanceStep(s, a) == Some(t) || ClientStep(s, a) == Some(t))
    ensures SplitsNow(s, a, t)
  {
  }

  lemma LaunchSplit(s: State, a: Action, t: State)
    requires Inv(s) && !Split(s.disk) && LaunchStep(s, a) == Some(t)
    ensures SplitsNow(s, a, t)
  {
    assert Focus(s);
  }

  lemma RunSplit(s: State, a: Action, t: State)
    requires Inv(s) && !Split(s.disk) && (RunStep(s, a) == Some(t) || CrashStep(s, a) == Some(t) || DaemonStep(s, a) == Some(t))
    ensures SplitsNow(s, a, t)
  {
    assert Focus(s);
  }

  /** A Run becomes split by these two writes and by nothing else. */
  lemma SplitExactly(s: State, a: Action, t: State)
    requires Inv(s) && Next(s, a) == Some(t) && !Split(s.disk)
    ensures Split(t.disk) <==> SplitCause(s, a)
  {
    hide Inv, Split, SplitCause, AcquireStep, StageStep, StartStep, SettleStep, CleanupStep, MaintenanceStep, ClientStep;
    hide LaunchStep, RunStep, CrashStep, DaemonStep;
    match ActorOf(a)
    case Acquirer => AcquireSplit(s, a, t);
    case Stager => StageSplit(s, a, t);
    case Starter => StartSplit(s, a, t);
    case Settler => if a.SettleWrite? { WriteSplit(s, t); } else { SettleSplit(s, a, t); }
    case Cleaner => CleanupSplit(s, a, t);
    case Maintainer => IdleSplit(s, a, t);
    case AnyClient => IdleSplit(s, a, t);
    case Launcher => LaunchSplit(s, a, t);
    case _ => RunSplit(s, a, t);
  }

  /** A staging directory is orphaned while Stage writes its ownership record,
      and when an aborting Stage drops that record before the rest. */
  predicate OrphanCause(s: State, a: Action) {
    || a.StageTemp?
    || (a.StageDisown? && s.client.StageAborting? && s.client.claim.run in s.disk.staging
        && s.disk.staging[s.client.claim.run].entries != {})
  }

  lemma FillOrphans(s: State, a: Action, t: State)
    requires Inv(s) && StageStep(s, a) == Some(t) && !Orphaned(s.disk) && !s.client.StageAborting?
    ensures Orphaned(t.disk) <==> OrphanCause(s, a)
  {
  }

  lemma AbortOrphans(s: State, a: Action, t: State)
    requires Inv(s) && StageStep(s, a) == Some(t) && !Orphaned(s.disk) && s.client.StageAborting?
    ensures Orphaned(t.disk) <==> OrphanCause(s, a)
  {
  }

  lemma StageOrphans(s: State, a: Action, t: State)
    requires Inv(s) && StageStep(s, a) == Some(t) && !Orphaned(s.disk)
    ensures Orphaned(t.disk) <==> OrphanCause(s, a)
  {
    hide Inv, StageStep, Orphaned, OrphanCause;
    if s.client.StageAborting? { AbortOrphans(s, a, t); } else { FillOrphans(s, a, t); }
  }

  lemma AcquireOrphans(s: State, a: Action, t: State)
    requires Inv(s) && AcquireStep(s, a) == Some(t)
    ensures Orphaned(t.disk) == Orphaned(s.disk)
  {
    assert a.AcquireLock? ==> RunInv(s.disk, s.sessions, a.claim.run);
  }

  lemma SettleOrphans(s: State, a: Action, t: State)
    requires Inv(s) && SettleStep(s, a) == Some(t)
    ensures Orphaned(t.disk) == Orphaned(s.disk)
  {
    hide Inv, Orphaned;
    if a.SettleWrite? {
      WriteOrphans(s, t);
    } else {
      assert t.disk.lock == s.disk.lock && t.disk.staging == s.disk.staging;
      SameOrphans(s.disk, t.disk);
    }
  }

  lemma SameOrphans(d: Disk, e: Disk)
    requires e.staging == d.staging && e.lock == d.lock
    ensures Orphaned(d) == Orphaned(e)
  {
  }

  lemma WriteOrphans(s: State, t: State)
    requires Inv(s) && SettleStep(s, SettleWrite) == Some(t)
    ensures Orphaned(t.disk) == Orphaned(s.disk)
  {
  }

  lemma ClientOrphans(s: State, a: Action, t: State)
    requires StartStep(s, a) == Some(t) || MaintenanceStep(s, a) == Some(t) || ClientStep(s, a) == Some(t)
    ensures Orphaned(t.disk) == Orphaned(s.disk)
  {
  }

  lemma ExecutorOrphans(s: State, a: Action, t: State)
    requires Inv(s)
    requires LaunchStep(s, a) == Some(t) || RunStep(s, a) == Some(t) || CrashStep(s, a) == Some(t) || DaemonStep(s, a) == Some(t)
    ensures Orphaned(t.disk) == Orphaned(s.disk)
  {
  }

  lemma RootOrphans(s: State, a: Action, t: State)
    requires s.client.Settling? && RemoveRootStep(s, a) == Some(t)
    ensures Orphaned(t.disk) == Orphaned(s.disk)
  {
  }

  lemma StagingOrphans(s: State, a: Action, t: State)
    requires Inv(s) && s.client.Settling? && s.client.step.RemoveStaging? && RemoveStagingStep(s, a) == Some(t)
    ensures Orphaned(t.disk) == Orphaned(s.disk)
  {
    assert Focus(s);
  }

  lemma CleanupOrphans(s: State, a: Action, t: State)
    requires Inv(s) && CleanupStep(s, a) == Some(t)
    ensures Orphaned(t.disk) == Orphaned(s.disk)
  {
    hide RemoveRootStep, RemoveStagingStep;
    match s.client.step
    case RemoveRoot => RootOrphans(s, a, t);
    case RemoveStaging => StagingOrphans(s, a, t);
    case _ =>
  }

  /** Only Stage orphans a staging directory; nothing else it does, and no
      other process, changes whether it is orphaned. */
  lemma OrphanedExactly(s: State, a: Action, t: State)
    requires Inv(s) && Next(s, a) == Some(t)
    ensures !Orphaned(s.disk) ==> (Orphaned(t.disk) <==> OrphanCause(s, a))
    ensures !ActorOf(a).Stager? ==> Orphaned(t.disk) == Orphaned(s.disk)
  {
    hide Inv, Orphaned, AcquireStep, StageStep, StartStep, SettleStep, CleanupStep, MaintenanceStep, ClientStep;
    hide LaunchStep, RunStep, CrashStep, DaemonStep;
    match ActorOf(a)
    case Acquirer => AcquireOrphans(s, a, t);
    case Stager => if !Orphaned(s.disk) { StageOrphans(s, a, t); }
    case Settler => SettleOrphans(s, a, t);
    case Cleaner => CleanupOrphans(s, a, t);
    case Starter => ClientOrphans(s, a, t);
    case Maintainer => ClientOrphans(s, a, t);
    case AnyClient => ClientOrphans(s, a, t);
    case _ => ExecutorOrphans(s, a, t);
  }

  // ----- from where no Settle ever finishes -----

  predicate StagesOrphan(c: Client) { c.StageTemporary? || c.StageAborting? }

  lemma StageWaits(s: State, a: Action, t: State)
    requires Inv(s) && StageStep(s, a) == Some(t) && Orphaned(s.disk) && !StagesOrphan(s.client)
    ensures Orphaned(t.disk) && !StagesOrphan(t.client) && t.disk.lock == s.disk.lock
  {
    assert Focus(s);
  }

  /** The lock passes to another claim only by being released first. */
  predicate SameHolder(s: State, t: State) {
    s.disk.lock.Some? && t.disk.lock.Some? ==> t.disk.lock.value.claim == s.disk.lock.value.claim
  }

  lemma SettlerHolder(s: State, a: Action, t: State)
    requires Inv(s) && SettleStep(s, a) == Some(t)
    ensures SameHolder(s, t) && !StagesOrphan(t.client)
  {
  }

  lemma CleanerHolder(s: State, a: Action, t: State)
    requires CleanupStep(s, a) == Some(t)
    ensures SameHolder(s, t) && !StagesOrphan(t.client)
  {
  }

  lemma AcquireHolder(s: State, a: Action, t: State)
    requires AcquireStep(s, a) == Some(t)
    ensures SameHolder(s, t) && !StagesOrphan(t.client)
  {
  }

  lemma ClientHolder(s: State, a: Action, t: State)
    requires StartStep(s, a) == Some(t) || MaintenanceStep(s, a) == Some(t) || ClientStep(s, a) == Some(t)
    ensures SameHolder(s, t) && (StagesOrphan(t.client) ==> StagesOrphan(s.client))
  {
  }

  lemma ExecutorHolder(s: State, a: Action, t: State)
    requires Inv(s)
    requires LaunchStep(s, a) == Some(t) || RunStep(s, a) == Some(t) || CrashStep(s, a) == Some(t) || DaemonStep(s, a) == Some(t)
    ensures SameHolder(s, t) && t.client == s.client
  {
  }

  lemma HolderStep(s: State, a: Action, t: State)
    requires Inv(s) && Next(s, a) == Some(t) && !ActorOf(a).Stager?
    ensures SameHolder(s, t) && (StagesOrphan(t.client) ==> StagesOrphan(s.client))
  {
    hide Inv, SameHolder, StagesOrphan, AcquireStep, StageStep, StartStep, SettleStep, CleanupStep, MaintenanceStep, ClientStep;
    hide LaunchStep, RunStep, CrashStep, DaemonStep;
    match ActorOf(a)
    case Settler => SettlerHolder(s, a, t);
    case Cleaner => CleanerHolder(s, a, t);
    case Acquirer => AcquireHolder(s, a, t);
    case Starter => ClientHolder(s, a, t);
    case Maintainer => ClientHolder(s, a, t);
    case AnyClient => ClientHolder(s, a, t);
    case _ => ExecutorHolder(s, a, t);
  }

  lemma OrphanStep(s: State, a: Action, t: State)
    requires Inv(s) && Next(s, a) == Some(t) && Orphaned(s.disk) && !StagesOrphan(s.client)
    ensures Orphaned(t.disk) && !StagesOrphan(t.client) && LockedFor(t.disk, s.disk.lock.value.claim)
  {
    hide Inv, StagesOrphan, AcquireStep, StageStep, StartStep, SettleStep, CleanupStep, MaintenanceStep, ClientStep;
    hide LaunchStep, RunStep, CrashStep, DaemonStep;
    if ActorOf(a).Stager? {
      StageWaits(s, a, t);
    } else {
      OrphanedExactly(s, a, t);
      HolderStep(s, a, t);
    }
  }

  /** An orphaned staging directory that its Stage left behind is never removed,
      and the Run keeps its lock: no Settle, now or later, finishes. */
  lemma {:induction false} OrphanLasts(s: State, schedule: seq<Action>, t: State)
    requires Inv(s) && Run(s, schedule) == Some(t) && Orphaned(s.disk) && !StagesOrphan(s.client)
    ensures Orphaned(t.disk) && LockedFor(t.disk, s.disk.lock.value.claim)
    ensures forall asked :: !Settleable(t.disk, s.disk.lock.value.claim, asked)
    decreases |schedule|
  {
    hide Inv, Next;
    if schedule != [] {
      var next := Next(s, schedule[0]).value;
      NextKeeps(s, schedule[0], next);
      OrphanStep(s, schedule[0], next);
      OrphanLasts(next, schedule[1..], t);
    }
  }

  lemma SplitSettle(s: State, a: Action, t: State)
    requires Inv(s) && SettleStep(s, a) == Some(t) && Split(s.disk) && s.client.Idle?
    ensures Split(t.disk) && t.client.Idle? && t.disk.lock == s.disk.lock
  {
    assert Focus(s);
  }

  /** With a split Run no other client operation can begin. */
  lemma SplitClient(s: State, a: Action)
    requires Inv(s) && Split(s.disk) && s.client.Idle? && !a.StartRepair?
    ensures AcquireStep(s, a).None? && StartStep(s, a).None? && MaintenanceStep(s, a).None?
  {
  }

  lemma SplitIdle(s: State, a: Action)
    requires Split(s.disk) && s.client.Idle?
    ensures StageStep(s, a).None? && CleanupStep(s, a).None? && ClientStep(s, a).None?
  {
  }

  lemma SplitLaunch(s: State, a: Action, t: State)
    requires Inv(s) && Split(s.disk) && s.client.Idle? && LaunchStep(s, a) == Some(t)
    ensures Split(t.disk) && t.client.Idle? && t.disk.lock == s.disk.lock
  {
    assert Focus(s);
  }

  lemma SplitRun(s: State, a: Action, t: State)
    requires Inv(s) && Split(s.disk) && s.client.Idle?
    requires RunStep(s, a) == Some(t) || CrashStep(s, a) == Some(t) || DaemonStep(s, a) == Some(t)
    ensures Split(t.disk) && t.client.Idle? && t.disk.lock == s.disk.lock
  {
    assert Focus(s);
  }

  lemma SplitStep(s: State, a: Action, t: State)
    requires Inv(s) && Next(s, a) == Some(t) && Split(s.disk) && s.client.Idle? && !a.StartRepair?
    ensures Split(t.disk) && t.client.Idle? && t.disk.lock == s.disk.lock
  {
    hide Inv, Split, AcquireStep, StageStep, StartStep, SettleStep, CleanupStep, MaintenanceStep, ClientStep;
    hide LaunchStep, RunStep, CrashStep, DaemonStep;
    SplitIdle(s, a);
    SplitClient(s, a);
    match ActorOf(a)
    case Settler => SplitSettle(s, a, t);
    case Launcher => SplitLaunch(s, a, t);
    case _ => SplitRun(s, a, t);
  }

  /** A step of the executor or the daemon. */
  predicate ByHost(a: Action) {
    ActorOf(a).Launcher? || ActorOf(a).Runner? || ActorOf(a).Crash? || ActorOf(a).Daemon?
  }

  predicate NoRepair(schedule: seq<Action>) {
    forall a | a in schedule :: !a.StartRepair?
  }

  predicate OnlyHost(schedule: seq<Action>) {
    forall a | a in schedule :: ByHost(a)
  }

  /** A split Run stays as it is under every schedule, however often Settle is
      tried, until Start repairs the receipt. */
  lemma {:induction false} SplitLasts(s: State, schedule: seq<Action>, t: State)
    requires Inv(s) && Run(s, schedule) == Some(t) && Split(s.disk) && s.client.Idle?
    requires NoRepair(schedule)
    ensures Split(t.disk) && t.client.Idle? && t.disk.lock == s.disk.lock
    ensures forall asked :: !Settleable(t.disk, s.disk.lock.value.claim, asked)
    decreases |schedule|
  {
    hide Inv, Next;
    if schedule != [] {
      var next := Next(s, schedule[0]).value;
      NextKeeps(s, schedule[0], next);
      SplitStep(s, schedule[0], next);
      SplitLasts(next, schedule[1..], t);
    }
  }

  /** Start, as long as the Run's deadline allows one, repairs a split Run
      exactly while its stored request exists, and a Settle can then finish. */
  lemma RepairResumes(s: State)
    requires Inv(s) && Split(s.disk) && OperationFree(s)
    ensures var claim := s.disk.lock.value.claim;
            && (Next(s, StartRepair(claim)).Some? <==> HasRequest(s.disk, claim.run))
            && (Next(s, StartRepair(claim)).Some? && !Orphaned(s.disk) ==>
                  Settleable(Next(s, StartRepair(claim)).value.disk, claim, s.disk.lock.value.session))
  {
    assert Focus(s);
  }

  // ----- what happens between the crash and the repeat -----

  predicate RollsBackRun(s: State, a: Action, claim: Claim) { RollsBack(s, a) && s.exec.claim == claim }

  lemma RollbackSettleable(s: State, t: State, claim: Claim, asked: Option<SessionId>)
    requires Inv(s) && LaunchStep(s, RollbackReceipt) == Some(t) && Settleable(s.disk, claim, asked)
    ensures Settleable(t.disk, claim, asked) <==> !RollsBackRun(s, RollbackReceipt, claim)
  {
    assert Focus(s);
  }

  lemma LaunchSettleable(s: State, a: Action, t: State, claim: Claim, asked: Option<SessionId>)
    requires Inv(s) && LaunchStep(s, a) == Some(t) && Settleable(s.disk, claim, asked) && !a.RollbackReceipt?
    ensures Settleable(t.disk, claim, asked)
  {
    assert Focus(s);
  }

  lemma RunSettleable(s: State, a: Action, t: State, claim: Claim, asked: Option<SessionId>)
    requires Inv(s) && Settleable(s.disk, claim, asked)
    requires RunStep(s, a) == Some(t) || CrashStep(s, a) == Some(t) || DaemonStep(s, a) == Some(t)
    ensures Settleable(t.disk, claim, asked)
  {
    assert Focus(s);
  }

  lemma HostSettleable(s: State, a: Action, t: State, claim: Claim, asked: Option<SessionId>)
    requires Inv(s) && Next(s, a) == Some(t) && ByHost(a) && Settleable(s.disk, claim, asked)
    ensures Settleable(t.disk, claim, asked) <==> !RollsBackRun(s, a, claim)
    ensures t.client == s.client
  {
    hide Inv, Settleable, LaunchStep, RunStep, CrashStep, DaemonStep;
    SameClient(s, a, t);
    if a.RollbackReceipt? { RollbackSettleable(s, t, claim, asked); }
    else if ActorOf(a).Launcher? { LaunchSettleable(s, a, t, claim, asked); }
    else { RunSettleable(s, a, t, claim, asked); }
  }

  ghost predicate RollsBackWithin(s: State, schedule: seq<Action>, claim: Claim)
    decreases |schedule|
  {
    && schedule != []
    && (RollsBackRun(s, schedule[0], claim)
        || (Next(s, schedule[0]).Some? && RollsBackWithin(Next(s, schedule[0]).value, schedule[1..], claim)))
  }

  /** Whatever executor and daemon do in the meantime, a Settle that could
      finish still can, unless the executor rolls the Run back. */
  lemma {:induction false} StaysSettleable(s: State, schedule: seq<Action>, t: State, claim: Claim, asked: Option<SessionId>)
    requires Inv(s) && Run(s, schedule) == Some(t) && s.client.Idle? && Settleable(s.disk, claim, asked)
    requires OnlyHost(schedule)
    ensures Settleable(t.disk, claim, asked) <==> !RollsBackWithin(s, schedule, claim)
    ensures RollsBackWithin(s, schedule, claim) ==> Split(t.disk)
    ensures t.client.Idle?
    decreases |schedule|
  {
    hide Inv, Next, Settleable, RollsBackRun;
    if schedule != [] {
      var next := Next(s, schedule[0]).value;
      NextKeeps(s, schedule[0], next);
      HostSettleable(s, schedule[0], next, claim, asked);
      if RollsBackRun(s, schedule[0], claim) {
        RolledBackSplits(s, schedule[0], next, claim);
        HostRepairsNothing(schedule[1..]);
        SplitLasts(next, schedule[1..], t);
      } else {
        StaysSettleable(next, schedule[1..], t, claim, asked);
      }
    }
  }

  lemma HostRepairsNothing(schedule: seq<Action>)
    requires OnlyHost(schedule)
    ensures NoRepair(schedule)
  {
  }

  lemma RolledBackSplits(s: State, a: Action, t: State, claim: Claim)
    requires Inv(s) && Next(s, a) == Some(t) && s.client.Idle? && RollsBackRun(s, a, claim)
    ensures Split(t.disk) && t.client.Idle? && t.disk.lock.value.claim == claim
  {
    assert Focus(s);
  }

  lemma {:induction false} StillSettling(s: State, schedule: seq<Action>, t: State)
    requires Run(s, schedule) == Some(t) && SettlesThroughout(s, schedule)
    ensures t.client.Settling?
    decreases |schedule|
  {
    hide Next;
    if schedule != [] {
      StillSettling(Next(s, schedule[0]).value, schedule[1..], t);
    }
  }

  /** Settle can be resumed, whole: a Settle that began where it could finish
      crashes at any point of any interleaving, executor and daemon run on, and
      the same request is sent again. With the Session it works on, it can
      finish exactly when the crash did not fall between the two writes of an
      adoption and the executor did not roll the Run back in the meantime under
      a lock that names its Session. */
  lemma RepeatFinishes(s: State, schedule: seq<Action>, t: State, rest: seq<Action>, u: State)
    requires Reachable(s) && CrashPoint(s) && SettlesThroughout(s, schedule) && Run(s, schedule) == Some(t)
    requires Run(t.(client := Idle), rest) == Some(u) && OnlyHost(rest)
    ensures t.client.Settling?
    ensures PinMatches(t.client.work) ==>
              (Settleable(u.disk, t.client.work.stored.claim, t.client.work.asked)
               <==> !BetweenLockAndReceipt(t.client) && !RollsBackWithin(t.(client := Idle), rest, t.client.work.stored.claim))
  {
    hide Inv, Run, CrashPoint, PinMatches, PinChecked, Settleable, BetweenLockAndReceipt, RollsBackWithin;
    ReachablePin(s);
    StillSettling(s, schedule, t);
    ScheduleKeeps(s, schedule, t);
    PinIsChecked(s, schedule, t);
    CrashPoints(s, schedule, t);
    CrashedDisk(t);
    CrashKeeps(t);
    if BetweenLockAndReceipt(t.client) {
      BetweenSplits(t);
      HostRepairsNothing(rest);
      SplitLasts(t.(client := Idle), rest, u);
    } else if PinMatches(t.client.work) {
      StaysSettleable(t.(client := Idle), rest, u, t.client.work.stored.claim, t.client.work.asked);
    }
  }

  lemma CrashKeeps(s: State)
    requires Inv(s)
    ensures Inv(s.(client := Idle))
  {
    assert Focus(s);
    forall r ensures RunInv(s.disk, s.sessions, r) { assert RunInv(s.disk, s.sessions, r); }
  }

  lemma BetweenSplits(s: State)
    requires Inv(s) && CrashPoint(s) && BetweenLockAndReceipt(s.client)
    ensures Split(s.disk) && s.disk.lock.value.claim == s.client.work.stored.claim
  {
    assert Focus(s);
  }

  // ----- any number of crashes, whatever else happens -----

  /** The Run is the claim's; and if the request carries a Session, the lock
      names it as long as there is one. */
  predicate Carried(d: Disk, claim: Claim, asked: Option<SessionId>) {
    && StatusOf(d, claim.run).Some? && StatusOf(d, claim.run).value.claim == claim
    && (LockedFor(d, claim) && asked.Some? ==> d.lock.value.session == asked)
  }

  lemma HeldOrReleased(s: State, claim: Claim, asked: Option<SessionId>)
    requires Inv(s) && Carried(s.disk, claim, asked)
    ensures LockedFor(s.disk, claim) <==> LockedBy(s.disk, claim.run)
    ensures !LockedFor(s.disk, claim) ==> WasReleased(s.disk, claim.run)
  {
    assert RunInv(s.disk, s.sessions, claim.run);
  }

  lemma RegressKeepsClaim(s: State, a: Action, t: State, claim: Claim)
    requires Inv(s) && Next(s, a) == Some(t) && Regresses(s, a, claim.run)
    requires StatusOf(s.disk, claim.run).Some? && StatusOf(s.disk, claim.run).value.claim == claim
    ensures StatusOf(t.disk, claim.run).Some? && StatusOf(t.disk, claim.run).value.claim == claim && t.disk.lock == s.disk.lock
  {
    assert Focus(s);
  }

  lemma CarriedStep(s: State, a: Action, t: State, claim: Claim, asked: Option<SessionId>)
    requires Inv(s) && Next(s, a) == Some(t) && Carried(s.disk, claim, asked)
    ensures Carried(t.disk, claim, asked)
  {
    hide Inv, Next, Regresses;
    NextKeeps(s, a, t);
    NextOnward(s, a, t, claim.run);
    HeldOrReleased(s, claim, asked);
    if Regresses(s, a, claim.run) { RegressKeepsClaim(s, a, t, claim); }
  }

  /** Any number of Settles, each crashing anywhere, and any other operation,
      crash or daemon step in between: the request can still be sent again, and
      a Settle of it finishes, exactly when the Run is then neither split nor
      orphaned. Only the writes of `SplitExactly` and `OrphanedExactly` make it
      so. */
  lemma {:induction false} AlwaysSettleable(s: State, schedule: seq<Action>, t: State, claim: Claim, asked: Option<SessionId>)
    requires Inv(s) && Run(s, schedule) == Some(t) && Carried(s.disk, claim, asked)
    ensures Settleable(t.disk, claim, asked) <==> (LockedFor(t.disk, claim) ==> !Split(t.disk) && !Orphaned(t.disk))
    decreases |schedule|
  {
    hide Inv, Next, Carried, Settleable, Split, Orphaned;
    if schedule == [] {
      CarriedSettleable(t, claim, asked);
    } else {
      var next := Next(s, schedule[0]).value;
      NextKeeps(s, schedule[0], next);
      CarriedStep(s, schedule[0], next, claim, asked);
      AlwaysSettleable(next, schedule[1..], t, claim, asked);
    }
  }

  lemma CarriedSettleable(s: State, claim: Claim, asked: Option<SessionId>)
    requires Inv(s) && Carried(s.disk, claim, asked)
    ensures Settleable(s.disk, claim, asked) <==> (LockedFor(s.disk, claim) ==> !Split(s.disk) && !Orphaned(s.disk))
  {
    assert RunInv(s.disk, s.sessions, claim.run);
  }

  ghost predicate SpoiledWithin(s: State, schedule: seq<Action>)
    decreases |schedule|
  {
    && schedule != []
    && (SplitCause(s, schedule[0]) || OrphanCause(s, schedule[0])
        || (Next(s, schedule[0]).Some? && SpoiledWithin(Next(s, schedule[0]).value, schedule[1..])))
  }

  /** In particular it stays settleable over any schedule without them. */
  lemma {:induction false} UnspoiledStays(s: State, schedule: seq<Action>, t: State)
    requires Inv(s) && Run(s, schedule) == Some(t) && !Split(s.disk) && !Orphaned(s.disk) && !SpoiledWithin(s, schedule)
    ensures !Split(t.disk) && !Orphaned(t.disk)
    decreases |schedule|
  {
    hide Inv, Next, Split, Orphaned, SplitCause, OrphanCause;
    if schedule != [] {
      var next := Next(s, schedule[0]).value;
      NextKeeps(s, schedule[0], next);
      SplitExactly(s, schedule[0], next);
      OrphanedExactly(s, schedule[0], next);
      UnspoiledStays(next, schedule[1..], t);
    }
  }

  // ----- Settles that crash one after the other -----

  /** One Settle of the request: it begins, is interleaved with the others up
      to its crash, and executor and daemon run on until the next. */
  datatype Round = Round(during: seq<Action>, rest: seq<Action>)

  /** Where a Settle of the request that begins here stands before its crash. */
  ghost predicate Crashes(s: State, round: Round, claim: Claim, asked: Option<SessionId>, t: State) {
    && Next(s, SettleBegin(claim, asked)).Some?
    && SettlesThroughout(Next(s, SettleBegin(claim, asked)).value, round.during)
    && Run(Next(s, SettleBegin(claim, asked)).value, round.during) == Some(t)
  }

  /** One round loses the Run: by its crash point, or by a rollback after it. */
  ghost predicate Loses(t: State, round: Round, claim: Claim) {
    BetweenLockAndReceipt(t.client) || RollsBackWithin(t.(client := Idle), round.rest, claim)
  }

  /** `crashed` are the states before the crashes, in order; `u` is where the
      last round ends. */
  ghost predicate Rounds(s: State, rounds: seq<Round>, crashed: seq<State>, claim: Claim, asked: Option<SessionId>, u: State)
    decreases |rounds|
  {
    && |crashed| == |rounds|
    && if rounds == [] then s == u
       else
         && Crashes(s, rounds[0], claim, asked, crashed[0]) && OnlyHost(rounds[0].rest)
         && Run(crashed[0].(client := Idle), rounds[0].rest).Some?
         && Rounds(Run(crashed[0].(client := Idle), rounds[0].rest).value, rounds[1..], crashed[1..], claim, asked, u)
  }

  /** What the Settle works on is the request's. */
  predicate WorksOn(c: Client, claim: Claim, asked: Option<SessionId>) {
    c.Settling? ==> c.work.stored.claim == claim && c.work.asked == asked && PinMatches(c.work)
  }

  lemma SettleWorksOn(s: State, a: Action, t: State, claim: Claim, asked: Option<SessionId>)
    requires Inv(s) && s.client.Settling? && WorksOn(s.client, claim, asked) && SettleStep(s, a) == Some(t)
    ensures WorksOn(t.client, claim, asked)
  {
  }

  lemma CleanupWorksOn(s: State, a: Action, t: State, claim: Claim, asked: Option<SessionId>)
    requires s.client.Settling? && WorksOn(s.client, claim, asked) && CleanupStep(s, a) == Some(t)
    ensures WorksOn(t.client, claim, asked)
  {
  }

  lemma {:induction false} StillWorksOn(s: State, schedule: seq<Action>, t: State, claim: Claim, asked: Option<SessionId>)
    requires Inv(s) && Run(s, schedule) == Some(t) && SettlesThroughout(s, schedule) && WorksOn(s.client, claim, asked)
    ensures t.client.Settling? && WorksOn(t.client, claim, asked)
    decreases |schedule|
  {
    hide Inv, Next, WorksOn;
    if schedule != [] {
      var next := Next(s, schedule[0]).value;
      NextKeeps(s, schedule[0], next);
      WorksOnStep(s, schedule[0], next, claim, asked);
      StillWorksOn(next, schedule[1..], t, claim, asked);
    }
  }

  lemma WorksOnStep(s: State, a: Action, t: State, claim: Claim, asked: Option<SessionId>)
    requires Inv(s) && Next(s, a) == Some(t) && s.client.Settling? && t.client.Settling? && WorksOn(s.client, claim, asked)
    ensures WorksOn(t.client, claim, asked)
  {
    hide Inv, WorksOn, AcquireStep, StageStep, StartStep, SettleStep, CleanupStep, MaintenanceStep, ClientStep;
    hide LaunchStep, RunStep, CrashStep, DaemonStep;
    NobodyElse(s, a);
    NobodyStages(s, a);
    match ActorOf(a)
    case Settler => SettleWorksOn(s, a, t, claim, asked);
    case Cleaner => CleanupWorksOn(s, a, t, claim, asked);
    case _ => SameClient(s, a, t);
  }

  lemma BeginsSettleable(s: State, t: State, claim: Claim, asked: Option<SessionId>)
    requires Inv(s) && Next(s, SettleBegin(claim, asked)) == Some(t) && t.client.Settling? && Settleable(s.disk, claim, asked)
    ensures CrashPoint(t) && WorksOn(t.client, claim, asked)
  {
  }

  lemma OneRound(s: State, round: Round, t: State, claim: Claim, asked: Option<SessionId>, u: State)
    requires Inv(s) && s.client.Idle? && Settleable(s.disk, claim, asked) && Crashes(s, round, claim, asked, t)
    requires OnlyHost(round.rest) && Run(t.(client := Idle), round.rest) == Some(u)
    ensures Inv(u) && u.client.Idle?
    ensures Settleable(u.disk, claim, asked) <==> !Loses(t, round, claim)
    ensures Loses(t, round, claim) ==> Split(u.disk)
  {
    hide Inv, Next, Run, CrashPoint, Settleable, BetweenLockAndReceipt, RollsBackWithin, PinMatches, Split, OnlyHost;
    var b := Next(s, SettleBegin(claim, asked)).value;
    NextKeeps(s, SettleBegin(claim, asked), b);
    BeginsSettleable(s, b, claim, asked);
    StillWorksOn(b, round.during, t, claim, asked);
    ScheduleKeeps(b, round.during, t);
    CrashPoints(b, round.during, t);
    CrashedDisk(t);
    CrashKeeps(t);
    ScheduleKeeps(t.(client := Idle), round.rest, u);
    if BetweenLockAndReceipt(t.client) {
      BetweenSplits(t);
      HostRepairsNothing(round.rest);
      SplitLasts(t.(client := Idle), round.rest, u);
    } else {
      StaysSettleable(t.(client := Idle), round.rest, u, claim, asked);
    }
  }

  lemma NoRoundAfterSplit(s: State, round: Round, t: State, claim: Claim, asked: Option<SessionId>)
    requires Inv(s) && s.client.Idle? && Split(s.disk)
    ensures !Crashes(s, round, claim, asked, t)
  {
    hide Inv, SettleStep, Split;
    if Next(s, SettleBegin(claim, asked)).Some? {
      SplitSettle(s, SettleBegin(claim, asked), Next(s, SettleBegin(claim, asked)).value);
    }
  }

  /** However many Settles of one request crash one after the other, with
      executor and daemon running on in between, the next one can finish exactly
      when no round lost the Run. */
  lemma {:induction false} RoundsFinish(s: State, rounds: seq<Round>, crashed: seq<State>, claim: Claim, asked: Option<SessionId>, u: State)
    requires Inv(s) && s.client.Idle? && Settleable(s.disk, claim, asked) && Rounds(s, rounds, crashed, claim, asked, u)
    ensures Settleable(u.disk, claim, asked) <==> forall k :: 0 <= k < |rounds| ==> !Loses(crashed[k], rounds[k], claim)
    decreases |rounds|
  {
    hide Inv, Run, Crashes, Loses, Settleable, Split, OnlyHost;
    if rounds != [] {
      var next := Run(crashed[0].(client := Idle), rounds[0].rest).value;
      OneRound(s, rounds[0], crashed[0], claim, asked, next);
      if Loses(crashed[0], rounds[0], claim) {
        if rounds[1..] != [] { NoRoundAfterSplit(next, rounds[1], crashed[1], claim, asked); }
      } else {
        RoundsFinish(next, rounds[1..], crashed[1..], claim, asked, u);
        assert forall k :: 0 < k < |rounds| ==> rounds[k] == rounds[1..][k - 1] && crashed[k] == crashed[1..][k - 1];
      }
    }
  }
}
