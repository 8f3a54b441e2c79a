/**
 The durable records of one work root, the abstract Session daemon, and the
 program counters of the two processes that share them: a client operation
 (Acquire, Stage, Start, Settle or setup maintenance) and the Run executor.
 Every field of a file that decides a branch is kept; the rest is abstract.
 */
module HostState {
  import opened Options

  type RunId = nat
  type SessionId = nat

  /** Two claims are equal exactly when every field of the Go struct is equal;
      `request` stands for all fields other than the Run ID. */
  datatype Claim = Claim(run: RunId, request: nat)

  datatype Lock = Lock(claim: Claim, session: Option<SessionId>)

  datatype RunState =
    | Accepted | Staged | Starting | Running | Calling | Interacting
    | Collecting | SettlingState | Complete | Failed | TimedOut | CleanupFailed

  datatype Cleanup = Cleanup(stopped: bool, payload: bool, root: bool, released: bool)
  {
    predicate Known() { stopped && payload && root && released }
  }

  const NO_CLEANUP := Cleanup(false, false, false, false)
  const ALL_CLEAN := Cleanup(true, true, true, true)

  /** `rollback` holds when the receipt's error text is the one that a failed
      identity publication with a failed rollback writes. */
  datatype Receipt = Receipt(claim: Claim, state: RunState, session: Option<SessionId>,
                             cleanup: Cleanup, rollback: bool)

  /** What a Run root or a staging directory may hold beside ownership.json.
      `Temporary` is the half-written file of an atomic replacement. */
  datatype Entry = RequestFile | DaemonDir | StagedFile | Temporary | Other(name: nat)

  datatype Dir = Dir(ownership: Option<Claim>, entries: set<Entry>)

  const EMPTY_DIR := Dir(None, {})

  /** The daemon's record of the Session of one Run. A stopped Session can
      never become live again. */
  datatype Session = Session(id: SessionId, stopped: bool, live: bool)

  /** The local variables of one Settle: the receipt and lock it read, and the
      Session identity the client asked for. */
  datatype Work = Work(stored: Receipt, lock: Lock, asked: Option<SessionId>)

  datatype Step =
    | RecoverStale | ProbeStale | WriteStale(id: SessionId)
    | Recover | Probe | WriteLock(id: SessionId) | WriteRecovered
    | StopSession | WriteStopped | RemoveRoot | RemoveStaging | Release | Finish

  datatype Client =
    | Idle
    | Acquired(claim: Claim)
    | StageMade(claim: Claim) | StageTemporary(claim: Claim) | StageFilling(claim: Claim)
    | StageAborting(claim: Claim) | StagePublished(claim: Claim)
    | StartRequest(claim: Claim) | StartPending(claim: Claim) | StartReceipt(claim: Claim)
    | Settling(step: Step, work: Work)
    | ClearPending
    | Maintaining(own: Option<nat>)

  /** Where the executor stands between the receipts it publishes. */
  datatype Phase = AwaitReady | InScenario | InBatch | InCaptures

  datatype Exec =
    | XIdle
    | XWanting(claim: Claim)
    | XInCall(claim: Claim, recorded: bool)
    | XReturned(claim: Claim, answer: Option<SessionId>, failed: bool)
    | XPublish(claim: Claim, id: SessionId, failed: bool)
    | XRollback(claim: Claim, id: SessionId)
    | XRolledBack(claim: Claim)
    | XRollbackFailed(claim: Claim, id: SessionId)
    | XPublished(claim: Claim, id: SessionId, failed: bool)
    | XActive(claim: Claim, id: SessionId, phase: Phase)
    | XClearPending

  /** Everything that survives a crash of either process: host-lock.json, the
      receipts, the Run roots and staging directories, pending-request.json and
      pending-setup.json. */
  datatype Disk = Disk(
    lock: Option<Lock>,
    receipts: map<RunId, Receipt>,
    roots: map<RunId, Dir>,
    staging: map<RunId, Dir>,
    pending: Option<Claim>,
    setup: Option<nat>)

  datatype State = State(disk: Disk, sessions: map<RunId, Session>, client: Client, exec: Exec)

  const INIT := State(Disk(None, map[], map[], map[], None, None), map[], Idle, XIdle)

  // ----- the two locks -----

  predicate ExecHoldsOperation(x: Exec) {
    x.XPublish? || x.XRollback? || x.XRolledBack? || x.XRollbackFailed? || x.XPublished? || x.XClearPending?
  }

  predicate ExecHoldsLaunch(x: Exec) {
    x.XInCall? || x.XReturned? || x.XPublish? || x.XRollback? || x.XRolledBack? || x.XRollbackFailed? || x.XPublished?
  }

  predicate OperationFree(s: State) {
    s.client.Idle? && !ExecHoldsOperation(s.exec)
  }

  predicate LaunchFree(s: State) {
    !s.client.Maintaining? && !ExecHoldsLaunch(s.exec)
  }

  // ----- receipts -----

  predicate Terminal(state: RunState) {
    state.Complete? || state.Failed? || state.TimedOut? || state.CleanupFailed?
  }

  function Rank(state: RunState): nat {
    match state
    case Accepted => 0
    case Staged => 1
    case Starting => 2
    case Running => 3
    case Calling => 4
    case Interacting => 5
    case Collecting => 6
    case SettlingState => 7
    case Complete => 8
    case Failed => 9
    case TimedOut => 9
    case CleanupFailed => 9
  }

  predicate ValidTransition(previous: RunState, next: RunState) {
    !Terminal(previous) && Rank(previous) <= Rank(next)
  }

  function Terminalized(r: Receipt): Receipt {
    if Terminal(r.state) then r else r.(state := Failed)
  }

  predicate LockedFor(d: Disk, claim: Claim) {
    d.lock.Some? && d.lock.value.claim == claim
  }

  predicate LockedBy(d: Disk, r: RunId) {
    d.lock.Some? && d.lock.value.claim.run == r
  }

  /** The receipt a Status request returns: the stored one, or one made from the
      Host Lock when the lock names this Run and no receipt exists yet. */
  function StatusOf(d: Disk, r: RunId): Option<Receipt> {
    if r in d.receipts then Some(d.receipts[r])
    else if LockedBy(d, r) then
      var lock := d.lock.value;
      Some(Receipt(lock.claim, if lock.session.Some? then CleanupFailed else Accepted, lock.session, NO_CLEANUP, false))
    else None
  }

  /** The executor may still act on a Run: nobody settled it, and the lock and
      the receipt carry the expected Session identity. */
  predicate ActiveReceipt(d: Disk, claim: Claim, session: Option<SessionId>) {
    var status := StatusOf(d, claim.run);
    && status.Some?
    && !status.value.cleanup.Known()
    && d.lock == Some(Lock(claim, session))
    && status.value.session == session
    && status.value.claim == claim
  }

  /** The state in which alone the executor may start a Session. */
  predicate ExactStarting(d: Disk, claim: Claim) {
    && d.lock == Some(Lock(claim, None))
    && claim.run in d.receipts
    && var stored := d.receipts[claim.run];
      stored.claim == claim && stored.state.Starting? && stored.session.None? && stored.cleanup == NO_CLEANUP
  }

  predicate HasRequest(d: Disk, r: RunId) {
    r in d.roots && RequestFile in d.roots[r].entries
  }

  /** A Session exists that has not been stopped: it is live or may become so. */
  predicate Unstopped(sessions: map<RunId, Session>, r: RunId) {
    r in sessions && !sessions[r].stopped
  }
}
