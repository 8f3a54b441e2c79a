/**
 Where the Run protocol needs an assumption or falls short, with the states
 that show it: the window between Settle's two questions, and the three ways
 into a Run that Settle refuses from then on. An adoption that crashes between
 its two writes and a rollback under a lock that already names its Session
 leave a split Run, which only Start can repair; a Stage that crashes inside a
 file replacement leaves an orphaned directory, which nothing repairs.
 */
module HostCorners {
  import opened Options
  import opened HostState
  import opened HostProtocol
  import opened HostInvariants
  import opened HostTheorems
  import opened HostService
  import opened HostResume

  lemma ReachableNext(s: State, a: Action, t: State)
    requires Reachable(s) && Next(s, a) == Some(t)
    ensures Reachable(t)
  {
    hide Next;
    var schedule :| Run(INIT, schedule) == Some(s);
    RunAppend(INIT, schedule, s, a, t);
  }

  // ----- concrete schedules -----

  const C := Claim(1, 0)

  /** The disk while Run 1 holds the lock, with at most one receipt, one root
      and one staging directory. */
  function Held(session: Option<SessionId>, receipt: Option<Receipt>, root: Option<Dir>, staging: Option<Dir>, pending: Option<Claim>): Disk {
    Disk(Some(Lock(C, session)), One(receipt), One(root), One(staging), pending, None)
  }

  function One<T>(value: Option<T>): (m: map<RunId, T>)
    ensures value.Some? ==> m == map[1 := value.value]
    ensures value.None? ==> m == map[]
  {
    if value.Some? then map[1 := value.value] else map[]
  }

  lemma OneUpdates<T>(value: Option<T>, next: T)
    ensures One(value)[1 := next] == One(Some(next))
    ensures One(value) - {1} == One<T>(None)
  {
  }

  const ACCEPTED := Receipt(C, Accepted, None, NO_CLEANUP, false)

  function Locked(): State {
    State(Held(None, Some(ACCEPTED), None, None, None), map[], Idle, XIdle)
  }

  lemma LockedReachable()
    ensures Reachable(Locked())
  {
    assert Run(INIT, []) == Some(INIT);
    var s := State(Held(None, None, None, None, None), map[], Acquired(C), XIdle);
    ReachableNext(INIT, AcquireLock(C), s);
    OneUpdates<Receipt>(None, ACCEPTED);
    ReachableNext(s, AcquireReceipt, Locked());
  }

  /** Where this schedule leads, the Run is still locked and no Settle of it
      finishes, whatever pin it carries. */
  ghost predicate Refused(s: State, schedule: seq<Action>) {
    Run(s, schedule).Some? ==>
      var d := Run(s, schedule).value.disk;
      LockedFor(d, C) && forall asked :: !Settleable(d, C, asked)
  }

  /** Nothing is under way, and no Settle of the Run finishes, now or in any
      later state. */
  ghost predicate StuckForGood(s: State) {
    OperationFree(s) && LaunchFree(s) && forall schedule :: Refused(s, schedule)
  }

  /** The same until Start repairs the receipt. */
  ghost predicate StuckUntilRepair(s: State) {
    OperationFree(s) && LaunchFree(s) && forall schedule :: NoRepair(schedule) ==> Refused(s, schedule)
  }

  lemma OrphanIsStuck(s: State)
    requires Reachable(s) && OperationFree(s) && LaunchFree(s) && LockedFor(s.disk, C) && Orphaned(s.disk)
    ensures StuckForGood(s)
  {
    hide Run, Inv;
    ReachableInv(s);
    forall schedule ensures Refused(s, schedule) {
      if Run(s, schedule).Some? { OrphanLasts(s, schedule, Run(s, schedule).value); }
    }
  }

  lemma SplitIsStuck(s: State)
    requires Reachable(s) && OperationFree(s) && LaunchFree(s) && LockedFor(s.disk, C) && Split(s.disk)
    ensures StuckUntilRepair(s)
  {
    hide Run, Inv, NoRepair;
    ReachableInv(s);
    forall schedule | NoRepair(schedule) ensures Refused(s, schedule) {
      if Run(s, schedule).Some? { SplitLasts(s, schedule, Run(s, schedule).value); }
    }
  }

  /** A crash while Stage writes the ownership record of its staging directory
      leaves a Run that no Settle ever finishes. */
  lemma CrashedStageIsStuck()
    ensures exists s :: Reachable(s) && Orphaned(s.disk) && StuckForGood(s)
  {
    hide Inv, Run, Reachable;
    LockedReachable();
    OneUpdates<Dir>(None, EMPTY_DIR);
    var s1 := State(Held(None, Some(ACCEPTED), None, Some(EMPTY_DIR), None), map[], StageMade(C), XIdle);
    ReachableNext(Locked(), StageMake(C), s1);
    OneUpdates(Some(EMPTY_DIR), Dir(None, {Temporary}));
    var s2 := State(Held(None, Some(ACCEPTED), None, Some(Dir(None, {Temporary})), None), map[], StageTemporary(C), XIdle);
    ReachableNext(s1, StageTemp, s2);
    var s := s2.(client := Idle);
    ReachableNext(s2, ClientStops, s);
    OrphanIsStuck(s);
    assert Orphaned(s.disk) && StuckForGood(s);
  }

  const STAGED := Receipt(C, RunState.Staged, None, NO_CLEANUP, false)
  const STARTING := Receipt(C, RunState.Starting, None, NO_CLEANUP, false)

  function Owned(entries: set<Entry>): Option<Dir> {
    Some(Dir(Some(C), entries))
  }

  function Filling(entries: set<Entry>): State {
    State(Held(None, Some(ACCEPTED), None, Owned(entries), None), map[], StageFilling(C), XIdle)
  }

  lemma FillingReachable()
    ensures Reachable(Filling({}))
  {
    hide Inv, Run, Reachable;
    LockedReachable();
    OneUpdates<Dir>(None, EMPTY_DIR);
    var s1 := State(Held(None, Some(ACCEPTED), None, Some(EMPTY_DIR), None), map[], StageMade(C), XIdle);
    ReachableNext(Locked(), StageMake(C), s1);
    OneUpdates(Some(EMPTY_DIR), Dir(None, {Temporary}));
    var s2 := State(Held(None, Some(ACCEPTED), None, Some(Dir(None, {Temporary})), None), map[], StageTemporary(C), XIdle);
    ReachableNext(s1, StageTemp, s2);
    OneUpdates(Some(Dir(None, {Temporary})), Dir(Some(C), {}));
    ReachableNext(s2, StageOwn, Filling({}));
  }

  function Published(receipt: Receipt, client: Client): State {
    State(Held(None, Some(receipt), Owned({DaemonDir, StagedFile}), None, None), map[], client, XIdle)
  }

  lemma StagedReachable()
    ensures Reachable(Published(STAGED, Idle))
  {
    FillingReachable();
    OneUpdates(Owned({}), Owned({DaemonDir}).value);
    assert {} + {DaemonDir} == {DaemonDir};
    ReachableNext(Filling({}), StageFill(DaemonDir), Filling({DaemonDir}));
    OneUpdates(Owned({DaemonDir}), Owned({DaemonDir, StagedFile}).value);
    assert {DaemonDir} - {Temporary} + {StagedFile} == {DaemonDir, StagedFile};
    ReachableNext(Filling({DaemonDir}), StageFill(StagedFile), Filling({DaemonDir, StagedFile}));
    PublishReachable();
  }

  lemma PublishReachable()
    requires Reachable(Filling({DaemonDir, StagedFile}))
    ensures Reachable(Published(STAGED, Idle))
  {
    OneUpdates<Dir>(None, Owned({DaemonDir, StagedFile}).value);
    OneUpdates<Dir>(Owned({DaemonDir, StagedFile}), EMPTY_DIR);
    ReachableNext(Filling({DaemonDir, StagedFile}), StageRename, Published(ACCEPTED, StagePublished(C)));
    OneUpdates(Some(ACCEPTED), STAGED);
    ReachableNext(Published(ACCEPTED, StagePublished(C)), Action.StageReceipt, Published(STAGED, Idle));
  }

  const REQUESTED := Owned({DaemonDir, StagedFile, RequestFile})

  function Ready(exec: Exec): State {
    State(Held(None, Some(STARTING), REQUESTED, None, Some(C)), map[], Idle, exec)
  }

  lemma ReadyReachable()
    ensures Reachable(Ready(XIdle))
  {
    hide Inv, Run, Reachable;
    StagedReachable();
    ReachableNext(Published(STAGED, Idle), StartBegin(C), Published(STAGED, StartRequest(C)));
    OneUpdates(Owned({DaemonDir, StagedFile}), REQUESTED.value);
    assert {DaemonDir, StagedFile} + {RequestFile} == {DaemonDir, StagedFile, RequestFile};
    var s1 := State(Held(None, Some(STAGED), REQUESTED, None, None), map[], StartPending(C), XIdle);
    ReachableNext(Published(STAGED, StartRequest(C)), StartWriteRequest, s1);
    WritePendingReachable(s1);
  }

  lemma WritePendingReachable(s1: State)
    requires s1 == State(Held(None, Some(STAGED), REQUESTED, None, None), map[], StartPending(C), XIdle) && Reachable(s1)
    ensures Reachable(Ready(XIdle))
  {
    var s2 := State(Held(None, Some(STAGED), REQUESTED, None, Some(C)), map[], Client.StartReceipt(C), XIdle);
    ReachableNext(s1, StartWritePending, s2);
    OneUpdates(Some(STAGED), STARTING);
    ReachableNext(s2, StartWriteReceipt, Ready(XIdle));
  }

  lemma InCallReachable()
    ensures Reachable(Ready(XInCall(C, false)))
  {
    hide Inv, Run, Reachable;
    ReadyReachable();
    ReachableNext(Ready(XIdle), ReadPending(C), Ready(XWanting(C)));
    ReachableNext(Ready(XWanting(C)), Admit, Ready(XInCall(C, false)));
  }

  // ----- the launch window -----

  const WORK := Work(STARTING, Lock(C, None), None)
  const SESSION: SessionId := 7

  /** Settle was told there is no Session and is about to probe the launch
      lock; meanwhile the executor's call recorded one. */
  function InWindow(exec: Exec): State {
    State(Held(None, Some(STARTING), REQUESTED, None, Some(C)), map[1 := Session(SESSION, false, false)], Settling(Probe, WORK), exec)
  }

  lemma WindowReachable()
    ensures Reachable(InWindow(XInCall(C, true)))
  {
    hide Inv, Run, Reachable;
    InCallReachable();
    var s0 := Ready(XInCall(C, false));
    var s1 := s0.(client := Settling(Step.Recover, WORK));
    ReachableNext(s0, SettleBegin(C, None), s1);
    var s2 := s0.(client := Settling(Probe, WORK));
    ReachableNext(s1, SettleRecover(NotFound), s2);
    assert REQUESTED.value.entries + {DaemonDir} == REQUESTED.value.entries;
    OneUpdates(REQUESTED, REQUESTED.value);
    assert s2.sessions[1 := Session(SESSION, false, false)] == map[1 := Session(SESSION, false, false)];
    ReachableNext(s2, RecordIdentity(SESSION), InWindow(XInCall(C, true)));
  }

  const STOPPED_RECEIPT := STARTING.(cleanup := Cleanup(true, false, false, false))

  function Removing(step: Step, root: Option<Dir>): State {
    State(Held(None, Some(STOPPED_RECEIPT), root, None, Some(C)), map[1 := Session(SESSION, false, false)],
          Settling(step, Work(STOPPED_RECEIPT, Lock(C, None), None)), XIdle)
  }

  ghost predicate Leads(s: State, t: State) {
    exists schedule :: Run(s, schedule) == Some(t)
  }

  lemma LeadsNext(s: State, t: State, a: Action, u: State)
    requires Leads(s, t) && Next(t, a) == Some(u)
    ensures Leads(s, u)
  {
    hide Next;
    var schedule :| Run(s, schedule) == Some(t);
    RunAppend(s, schedule, t, a, u);
  }

  lemma LeadsSelf(s: State)
    ensures Leads(s, s)
  {
    assert Run(s, []) == Some(s);
  }

  lemma WindowStops()
    ensures Leads(InWindow(XIdle), Removing(Step.RemoveRoot, REQUESTED))
  {
    hide Inv, Run, Leads;
    LeadsSelf(InWindow(XIdle));
    var s1 := InWindow(XIdle).(client := Settling(WriteStopped, WORK));
    LeadsNext(InWindow(XIdle), InWindow(XIdle), SettleProbe, s1);
    OneUpdates(Some(STARTING), STOPPED_RECEIPT);
    LeadsNext(InWindow(XIdle), s1, SettleWrite, Removing(Step.RemoveRoot, REQUESTED));
  }

  lemma UnlinkOne(entries: set<Entry>, entry: Entry)
    requires Leads(InWindow(XIdle), Removing(Step.RemoveRoot, Owned(entries))) && entry in entries
    ensures Leads(InWindow(XIdle), Removing(Step.RemoveRoot, Owned(entries - {entry})))
  {
    hide Inv, Run, Leads;
    OneUpdates(Owned(entries), Owned(entries - {entry}).value);
    LeadsNext(InWindow(XIdle), Removing(Step.RemoveRoot, Owned(entries)), UnlinkEntry(entry),
              Removing(Step.RemoveRoot, Owned(entries - {entry})));
  }

  lemma WindowEmpties()
    ensures Leads(InWindow(XIdle), Removing(Step.RemoveRoot, Owned({})))
  {
    hide Inv, Run, Next, Leads;
    WindowStops();
    UnlinkOne({DaemonDir, StagedFile, RequestFile}, DaemonDir);
    assert {DaemonDir, StagedFile, RequestFile} - {DaemonDir} == {StagedFile, RequestFile};
    UnlinkOne({StagedFile, RequestFile}, StagedFile);
    assert {StagedFile, RequestFile} - {StagedFile} == {RequestFile};
    UnlinkOne({RequestFile}, RequestFile);
    assert {RequestFile} - {RequestFile} == {};
  }

  lemma WindowDisowns()
    ensures Leads(InWindow(XIdle), Removing(Step.RemoveRoot, Some(EMPTY_DIR)))
  {
    hide Inv, Run, Leads;
    WindowEmpties();
    OneUpdates(Owned({}), EMPTY_DIR);
    LeadsNext(InWindow(XIdle), Removing(Step.RemoveRoot, Owned({})), Disown, Removing(Step.RemoveRoot, Some(EMPTY_DIR)));
  }

  lemma WindowRemoves()
    ensures Leads(InWindow(XIdle), Removing(Step.RemoveStaging, None))
  {
    hide Inv, Run, Leads;
    WindowDisowns();
    OneUpdates(Some(EMPTY_DIR), EMPTY_DIR);
    LeadsNext(InWindow(XIdle), Removing(Step.RemoveRoot, Some(EMPTY_DIR)), RemoveDir, Removing(Step.RemoveRoot, None));
    LeadsNext(InWindow(XIdle), Removing(Step.RemoveRoot, None), DirGone, Removing(Step.RemoveStaging, None));
  }

  /** The Host Lock is gone and the Session of the Run is live. */
  function Escaped(live: bool): State {
    var cleaned := STOPPED_RECEIPT.(cleanup := Cleanup(true, true, true, false));
    State(Held(None, Some(STOPPED_RECEIPT), None, None, Some(C)).(lock := None), map[1 := Session(SESSION, false, live)],
          Settling(Finish, Work(cleaned, Lock(C, None), None)), XIdle)
  }

  lemma WindowReleases()
    ensures Leads(InWindow(XIdle), Escaped(false))
  {
    hide Inv, Run, Leads;
    WindowRemoves();
    var s0 := Removing(Step.RemoveStaging, None);
    var s1 := s0.(client := Settling(Release, Escaped(false).client.work));
    LeadsNext(InWindow(XIdle), s0, DirGone, s1);
    LeadsNext(InWindow(XIdle), s1, Action.ReleaseLock, Escaped(false));
  }

  lemma WindowGoesLive()
    ensures Leads(InWindow(XIdle), Escaped(true))
  {
    hide Inv, Run, Leads;
    WindowReleases();
    assert Escaped(false).sessions[1 := Session(SESSION, false, true)] == Escaped(true).sessions;
    LeadsNext(InWindow(XIdle), Escaped(false), GoLive(1), Escaped(true));
  }

  /** Without the assumption about the launch window the protocol is unsafe: if
      the executor lets go of the launch lock between Settle's question and its
      probe, the Host Lock is released while the Session can still go live. */
  lemma LaunchWindowMatters()
    ensures exists s, u ::
              && Reachable(s) && InLaunchWindow(s) && StopExecutor(s).Some? && Leads(StopExecutor(s).value, u)
              && WasReleased(u.disk, 1) && 1 in u.sessions && u.sessions[1].live
  {
    hide Inv, Run, Next, Leads;
    WindowReachable();
    WindowGoesLive();
    var s, u := InWindow(XInCall(C, true)), Escaped(true);
    assert StopExecutor(s) == Some(InWindow(XIdle)) && Leads(StopExecutor(s).value, u);
  }

  // ----- a recovered Session that is named by the lock alone -----

  const FAILED_RECEIPT := Receipt(C, Failed, None, NO_CLEANUP, false)

  function Recovering(session: Option<SessionId>, receipt: Receipt, client: Client, exec: Exec): State {
    State(Held(session, Some(receipt), REQUESTED, None, Some(C)), map[1 := Session(SESSION, false, false)], client, exec)
  }

  lemma RecordedReachable()
    ensures Reachable(Recovering(None, STARTING, Idle, XInCall(C, true)))
  {
    hide Inv, Run, Reachable;
    InCallReachable();
    var s0 := Ready(XInCall(C, false));
    var s1 := Recovering(None, STARTING, Idle, XInCall(C, true));
    assert REQUESTED.value.entries + {DaemonDir} == REQUESTED.value.entries;
    OneUpdates(REQUESTED, REQUESTED.value);
    assert s0.sessions[1 := Session(SESSION, false, false)] == s1.sessions;
    ReachableNext(s0, RecordIdentity(SESSION), s1);
  }

  lemma FailedReachable()
    ensures Reachable(Recovering(None, FAILED_RECEIPT, Idle, XIdle))
  {
    hide Inv, Run, Reachable;
    RecordedReachable();
    var s1 := Recovering(None, STARTING, Idle, XInCall(C, true));
    var s2 := Recovering(None, STARTING, Idle, XReturned(C, None, true));
    ReachableNext(s1, ReturnStart(None, true), s2);
    OneUpdates(Some(STARTING), FAILED_RECEIPT);
    ReachableNext(s2, Reconcile(Unanswered, false), Recovering(None, FAILED_RECEIPT, Idle, XIdle));
  }

  /** A crash of Settle between the two writes that adopt a recovered Session
      of a failed Run leaves a state from which no Settle finishes until Start
      repairs it. */
  lemma CrashedAdoptionIsStuck()
    ensures exists s :: Reachable(s) && Split(s.disk) && StuckUntilRepair(s)
  {
    hide Inv, Run, Reachable;
    FailedReachable();
    var w := Work(FAILED_RECEIPT, Lock(C, None), None);
    var s0 := Recovering(None, FAILED_RECEIPT, Idle, XIdle);
    var s1 := Recovering(None, FAILED_RECEIPT, Settling(Step.Recover, w), XIdle);
    ReachableNext(s0, SettleBegin(C, None), s1);
    var s2 := Recovering(None, FAILED_RECEIPT, Settling(Step.WriteLock(SESSION), w), XIdle);
    ReachableNext(s1, SettleRecover(Found(SESSION)), s2);
    var s3 := Recovering(Some(SESSION), FAILED_RECEIPT, Settling(WriteRecovered, w.(lock := Lock(C, Some(SESSION)))), XIdle);
    ReachableNext(s2, SettleWrite, s3);
    var s := Recovering(Some(SESSION), FAILED_RECEIPT, Idle, XIdle);
    ReachableNext(s3, ClientStops, s);
    SplitIsStuck(s);
    assert Split(s.disk) && StuckUntilRepair(s);
  }

  // ----- a rollback under a lock that names its Session -----

  /** The Session was stopped by the executor that started it. */
  function RolledBack(receipt: Receipt, exec: Exec): State {
    State(Held(Some(SESSION), Some(receipt), REQUESTED, None, Some(C)), map[1 := Session(SESSION, true, false)], Idle, exec)
  }

  lemma UnpublishedReachable()
    ensures Reachable(Recovering(Some(SESSION), STARTING, Idle, XRollback(C, SESSION)))
  {
    hide Inv, Run, Reachable;
    RecordedReachable();
    var s1 := Recovering(None, STARTING, Idle, XInCall(C, true));
    var s2 := Recovering(None, STARTING, Idle, XReturned(C, Some(SESSION), false));
    ReachableNext(s1, ReturnStart(Some(SESSION), false), s2);
    var s3 := Recovering(None, STARTING, Idle, XPublish(C, SESSION, false));
    ReachableNext(s2, Reconcile(Unanswered, false), s3);
    ReachableNext(s3, PublishIdentity(true, false), Recovering(Some(SESSION), STARTING, Idle, XRollback(C, SESSION)));
  }

  /** The executor writes the identity into the lock, is told that the write
      failed although it took effect, stops its Session and fails the Run: the
      lock names a Session that the receipt does not, without any crash. */
  lemma RolledBackIsStuck()
    ensures exists s :: Reachable(s) && Split(s.disk) && StuckUntilRepair(s)
    ensures exists s, a, t :: Reachable(s) && RollsBack(s, a) && Next(s, a) == Some(t) && Split(t.disk)
  {
    hide Inv, Run, Reachable;
    UnpublishedReachable();
    var s1 := Recovering(Some(SESSION), STARTING, Idle, XRollback(C, SESSION));
    var s2 := RolledBack(STARTING, XRolledBack(C));
    assert s1.sessions[1 := Session(SESSION, true, false)] == s2.sessions;
    ReachableNext(s1, RollbackStop(true, true), s2);
    var s := RolledBack(FAILED_RECEIPT, XIdle);
    OneUpdates(Some(STARTING), FAILED_RECEIPT);
    ReachableNext(s2, RollbackReceipt, s);
    SplitIsStuck(s);
    assert Split(s.disk) && StuckUntilRepair(s);
    assert RollsBack(s2, RollbackReceipt) && Next(s2, RollbackReceipt) == Some(s);
  }
}
