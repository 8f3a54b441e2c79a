/**
 An ordinary Run, step by step: accepted, staged, started, published, called,
 collected, complete, settled. It shows that the protocol can do what it is for.
 */
module HostRuns {
  import opened Options
  import opened HostState
  import opened HostProtocol
  import opened HostInvariants
  import opened HostTheorems
  import opened HostCorners

  /** The Run under its lock, its Session published. */
  function Working(receipt: Receipt, pending: Option<Claim>, live: bool, client: Client, exec: Exec): State {
    State(Held(Some(SESSION), Some(receipt), REQUESTED, None, pending), map[1 := Session(SESSION, false, live)], client, exec)
  }

  function Named(state: RunState): Receipt { Receipt(C, state, Some(SESSION), NO_CLEANUP, false) }

  lemma PublishedReachable()
    ensures Reachable(Working(STARTING, Some(C), false, Idle, XPublished(C, SESSION, false)))
  {
    hide Inv, Run, Reachable, AcquireStep, StageStep, StartStep, SettleStep, CleanupStep, MaintenanceStep, ClientStep, RunStep, CrashStep, DaemonStep;
    RecordedReachable();
    var s1 := Recovering(None, STARTING, Idle, XInCall(C, true));
    var s2 := Recovering(None, STARTING, Idle, XReturned(C, Some(SESSION), false));
    ReachableNext(s1, ReturnStart(Some(SESSION), false), s2);
    var s3 := Recovering(None, STARTING, Idle, XPublish(C, SESSION, false));
    ReachableNext(s2, Reconcile(Unanswered, false), s3);
    ReachableNext(s3, PublishIdentity(true, true), Working(STARTING, Some(C), false, Idle, XPublished(C, SESSION, false)));
  }

  function Active(state: RunState, live: bool, phase: Phase): State {
    Working(Named(state), Some(C), live, Idle, XActive(C, SESSION, phase))
  }

  lemma RunningReachable()
    ensures Reachable(Active(Running, true, AwaitReady))
  {
    hide Inv, Run, Reachable, AcquireStep, StageStep, StartStep, SettleStep, CleanupStep, MaintenanceStep, ClientStep, RunStep, CrashStep;
    PublishedReachable();
    OneUpdates(Some(STARTING), Named(Running));
    ReachableNext(Working(STARTING, Some(C), false, Idle, XPublished(C, SESSION, false)), PublishRunning(true), Active(Running, false, AwaitReady));
    assert map[1 := Session(SESSION, false, false)][1 := Session(SESSION, false, true)] == map[1 := Session(SESSION, false, true)];
    ReachableNext(Active(Running, false, AwaitReady), GoLive(1), Active(Running, true, AwaitReady));
  }

  lemma CollectingReachable()
    ensures Reachable(Active(Collecting, true, InCaptures))
  {
    hide Inv, Run, Reachable, AcquireStep, StageStep, StartStep, SettleStep, CleanupStep, MaintenanceStep, ClientStep, LaunchStep, CrashStep, DaemonStep;
    RunningReachable();
    OneUpdates(Some(Named(Running)), Named(Calling));
    ReachableNext(Active(Running, true, AwaitReady), Progress(InScenario, false), Active(Calling, true, InScenario));
    OneUpdates(Some(Named(Calling)), Named(Collecting));
    ReachableNext(Active(Calling, true, InScenario), Progress(InCaptures, false), Active(Collecting, true, InCaptures));
  }

  lemma CompleteReachable()
    ensures Reachable(Working(Named(Complete), None, true, Idle, XIdle))
  {
    hide Inv, Run, Reachable, AcquireStep, StageStep, StartStep, SettleStep, CleanupStep, MaintenanceStep, ClientStep, LaunchStep, CrashStep, DaemonStep;
    CollectingReachable();
    var done := Working(Named(Complete), Some(C), true, Idle, Exec.XClearPending);
    OneUpdates(Some(Named(Collecting)), Named(Complete));
    ReachableNext(Active(Collecting, true, InCaptures), CompleteRun, done);
    ReachableNext(done, ExecutorClears, Working(Named(Complete), None, true, Idle, XIdle));
  }

  // ----- its settlement -----

  const STOPPED := Named(Complete).(cleanup := Cleanup(true, false, false, false))
  const CLEARED := Named(Complete).(cleanup := Cleanup(true, true, true, false))
  const CLEAN := Named(Complete).(cleanup := ALL_CLEAN)

  function Settles(step: Step, on: Receipt, work: Receipt, root: Option<Dir>): State {
    State(Held(Some(SESSION), Some(on), root, None, None), map[1 := Session(SESSION, true, false)],
          Settling(step, Work(work, Lock(C, Some(SESSION)), Some(SESSION))), XIdle)
  }

  lemma StoppedReachable()
    ensures Reachable(Settles(Step.RemoveRoot, STOPPED, STOPPED, REQUESTED))
  {
    hide Inv, Run, Reachable, AcquireStep, StageStep, StartStep, CleanupStep, MaintenanceStep, ClientStep, LaunchStep, RunStep, CrashStep, DaemonStep;
    CompleteReachable();
    var s0 := Working(Named(Complete), None, true, Idle, XIdle);
    var s1 := s0.(client := Settling(Step.StopSession, Work(Named(Complete), Lock(C, Some(SESSION)), Some(SESSION))));
    ReachableNext(s0, SettleBegin(C, Some(SESSION)), s1);
    var s2 := Settles(WriteStopped, Named(Complete), Named(Complete), REQUESTED);
    assert s1.sessions[1 := Session(SESSION, true, false)] == s2.sessions;
    ReachableNext(s1, SettleStop(true, true), s2);
    OneUpdates(Some(Named(Complete)), STOPPED);
    ReachableNext(s2, SettleWrite, Settles(Step.RemoveRoot, STOPPED, STOPPED, REQUESTED));
  }

  lemma UnlinkReachable(entries: set<Entry>, entry: Entry)
    requires Reachable(Settles(Step.RemoveRoot, STOPPED, STOPPED, Owned(entries))) && entry in entries
    ensures Reachable(Settles(Step.RemoveRoot, STOPPED, STOPPED, Owned(entries - {entry})))
  {
    hide Inv, Run, Reachable, AcquireStep, StageStep, StartStep, SettleStep, MaintenanceStep, ClientStep, LaunchStep, RunStep, CrashStep, DaemonStep;
    OneUpdates(Owned(entries), Owned(entries - {entry}).value);
    ReachableNext(Settles(Step.RemoveRoot, STOPPED, STOPPED, Owned(entries)), UnlinkEntry(entry),
                  Settles(Step.RemoveRoot, STOPPED, STOPPED, Owned(entries - {entry})));
  }

  lemma EmptiedReachable()
    ensures Reachable(Settles(Step.RemoveRoot, STOPPED, STOPPED, Owned({})))
  {
    hide Inv, Run, Next, Reachable;
    StoppedReachable();
    UnlinkReachable({DaemonDir, StagedFile, RequestFile}, DaemonDir);
    assert {DaemonDir, StagedFile, RequestFile} - {DaemonDir} == {StagedFile, RequestFile};
    UnlinkReachable({StagedFile, RequestFile}, StagedFile);
    assert {StagedFile, RequestFile} - {StagedFile} == {RequestFile};
    UnlinkReachable({RequestFile}, RequestFile);
    assert {RequestFile} - {RequestFile} == {};
  }

  lemma RemovedReachable()
    ensures Reachable(Settles(Release, STOPPED, CLEARED, None))
  {
    hide Inv, Run, Reachable, AcquireStep, StageStep, StartStep, SettleStep, MaintenanceStep, ClientStep, LaunchStep, RunStep, CrashStep, DaemonStep;
    EmptiedReachable();
    OneUpdates(Owned({}), EMPTY_DIR);
    var s1 := Settles(Step.RemoveRoot, STOPPED, STOPPED, Some(EMPTY_DIR));
    ReachableNext(Settles(Step.RemoveRoot, STOPPED, STOPPED, Owned({})), Disown, s1);
    OneUpdates(Some(EMPTY_DIR), EMPTY_DIR);
    var s2 := Settles(Step.RemoveRoot, STOPPED, STOPPED, None);
    ReachableNext(s1, RemoveDir, s2);
    var s3 := Settles(Step.RemoveStaging, STOPPED, STOPPED, None);
    ReachableNext(s2, DirGone, s3);
    ReachableNext(s3, DirGone, Settles(Release, STOPPED, CLEARED, None));
  }

  function Left(receipt: Receipt, client: Client): State {
    State(Disk(None, map[1 := receipt], map[], map[], None, None), map[1 := Session(SESSION, true, false)], client, XIdle)
  }

  lemma ReleasedReachable()
    ensures Reachable(Left(CLEAN, ClearPending))
  {
    hide Inv, Run, Reachable, AcquireStep, StageStep, StartStep, SettleStep, MaintenanceStep, ClientStep, LaunchStep, RunStep, CrashStep, DaemonStep;
    RemovedReachable();
    var s1 := Left(STOPPED, Settling(Finish, Settles(Release, STOPPED, CLEARED, None).client.work));
    ReachableNext(Settles(Release, STOPPED, CLEARED, None), Action.ReleaseLock, s1);
    assert map[1 := STOPPED][1 := CLEAN] == map[1 := CLEAN];
    ReachableNext(s1, FinishReceipt, Left(CLEAN, ClearPending));
  }

  /** A Run completes and is settled, from an empty work root: its receipt says
      so with all four flags, its Session is stopped, and root, lock and pending
      request are gone. */
  lemma OrdinaryRun()
    ensures exists s :: Reachable(s) && OperationFree(s) && s.exec == XIdle
                        && s.disk == Disk(None, map[1 := Receipt(C, Complete, Some(SESSION), Cleanup(true, true, true, true), false)],
                                          map[], map[], None, None)
                        && s.sessions == map[1 := Session(SESSION, true, false)]
  {
    hide Inv, Run, Reachable, AcquireStep, StageStep, StartStep, SettleStep, CleanupStep, MaintenanceStep, LaunchStep, RunStep, CrashStep, DaemonStep;
    ReleasedReachable();
    ReachableNext(Left(CLEAN, ClearPending), Action.RemovePending, Left(CLEAN, Idle));
  }
}
