/**
 The steps of the Run protocol on one host. One action is one durable write, one
 daemon effect or one change of lock ownership, so a crash is possible between
 any two of them; `ClientStops` and `ExecutorStops` stand for a crash and for an
 error return alike. Environment choices (what the daemon answers, whether a
 write or a deadline fails) are parameters of the action.
 */
module HostProtocol {
  import opened Options
  import opened HostState

  /** What the daemon answers when asked for the identity of a Session name. */
  datatype Recovered = NotFound | Found(id: SessionId) | Unanswered

  datatype Action =
    // Acquire
    | AcquireLock(claim: Claim) | AcquireReceipt
    // Stage
    | StageMake(claim: Claim) | StageTemp | StageOwn | StageFill(entry: Entry) | StageRename | StageReceipt
    | StageFail | StageUnlink(entry: Entry) | StageDisown | StageRemoved
    // Start
    | StartBegin(claim: Claim) | StartWriteRequest | StartWritePending | StartWriteReceipt | StartRepair(claim: Claim)
    // Settle
    | SettleBegin(claim: Claim, asked: Option<SessionId>) | SettleReplay(claim: Claim)
    | SettleRecover(answer: Recovered) | SettleProbe | SettleWrite
    | SettleStop(confirmed: bool, effective: bool)
    | UnlinkEntry(entry: Entry) | Disown | RemoveDir | DirGone
    | ReleaseLock | FinishReceipt | RemovePending
    // setup maintenance
    | MaintenanceBegin(own: Option<nat>) | PublishSetup(setupId: nat) | ClearSetup
    // crash or error return of the client operation
    | ClientStops
    // executor
    | ReadPending(request: Claim) | Admit | RefuseStart(timedOut: bool) | AbandonBatch
    | ReturnStart(id: Option<SessionId>, failed: bool) | Reconcile(answer: Recovered, timedOut: bool)
    | PublishIdentity(applied: bool, reported: bool) | RollbackStop(confirmed: bool, effective: bool) | RollbackReceipt
    | PublishRunning(written: bool) | Progress(next: Phase, batch: bool) | FailRun(timedOut: bool) | CompleteRun
    | PruneRoot | ExecutorClears
    | ExecutorStops
    // daemon
    | RecordIdentity(identity: SessionId) | GoLive(run: RunId) | Die(run: RunId)

  // ----- the daemon -----

  /** The answers `recoverUnpublishedSession` may get. Without the stored request
      it answers "not found" without asking; an unstopped recorded Session whose
      record is on disk is always found. */
  predicate MayAnswer(s: State, r: RunId, answer: Recovered) {
    match answer
    case Unanswered => HasRequest(s.disk, r)
    case Found(id) => HasRequest(s.disk, r) && DaemonDir in s.disk.roots[r].entries && r in s.sessions && s.sessions[r].id == id
    case NotFound => !(HasRequest(s.disk, r) && DaemonDir in s.disk.roots[r].entries && Unstopped(s.sessions, r))
  }

  /** A confirmed stop of `id` means no other Session of the name is unstopped. */
  predicate MayConfirm(s: State, r: RunId, id: SessionId) {
    Unstopped(s.sessions, r) ==> s.sessions[r].id == id
  }

  function Stopped(s: State, r: RunId, id: SessionId): State {
    if r in s.sessions && s.sessions[r].id == id
    then s.(sessions := s.sessions[r := Session(id, true, false)])
    else s
  }

  function DaemonStep(s: State, a: Action): Option<State> {
    match a
    case RecordIdentity(identity) =>
      // One identity per Session name; it is recorded before the process can be launched.
      if s.exec.XInCall? && !s.exec.recorded && s.exec.claim.run !in s.sessions then
        var r := s.exec.claim.run;
        var roots := if r in s.disk.roots then s.disk.roots[r := s.disk.roots[r].(entries := s.disk.roots[r].entries + {DaemonDir})]
                     else s.disk.roots;
        Some(s.(disk := s.disk.(roots := roots),
                sessions := s.sessions[r := Session(identity, false, false)], exec := s.exec.(recorded := true)))
      else None
    case GoLive(r) =>
      if Unstopped(s.sessions, r) then Some(s.(sessions := s.sessions[r := s.sessions[r].(live := true)])) else None
    case Die(r) =>
      if r in s.sessions then Some(s.(sessions := s.sessions[r := s.sessions[r].(live := false)])) else None
    case _ => None
  }

  // ----- Acquire, Stage, Start -----

  function AcquireStep(s: State, a: Action): Option<State> {
    match a
    case AcquireLock(claim) =>
      if OperationFree(s) && s.disk.setup.None? && claim.run !in s.disk.receipts && (s.disk.lock.None? || s.disk.lock == Some(Lock(claim, None)))
      then Some(s.(disk := s.disk.(lock := Some(Lock(claim, None))), client := Acquired(claim)))
      else None
    case AcquireReceipt =>
      if s.client.Acquired? then
        var claim := s.client.claim;
        Some(s.(disk := s.disk.(receipts := s.disk.receipts[claim.run := Receipt(claim, Accepted, None, NO_CLEANUP, false)]), client := Idle))
      else None
    case _ => None
  }

  function SetStaging(s: State, r: RunId, dir: Dir, next: Client): State {
    s.(disk := s.disk.(staging := s.disk.staging[r := dir]), client := next)
  }

  function StageStep(s: State, a: Action): Option<State> {
    match a
    case StageMake(claim) =>
      if OperationFree(s) && s.disk.lock == Some(Lock(claim, None)) && claim.run !in s.disk.staging
      then Some(SetStaging(s, claim.run, EMPTY_DIR, StageMade(claim)))
      else None
    case StageTemp =>
      if s.client.StageMade?
      then Some(SetStaging(s, s.client.claim.run, Dir(None, {Temporary}), StageTemporary(s.client.claim)))
      else None
    case StageOwn =>
      if s.client.StageTemporary?
      then Some(SetStaging(s, s.client.claim.run, Dir(Some(s.client.claim), {}), StageFilling(s.client.claim)))
      else None
    case StageFill(entry) =>
      if s.client.StageFilling? && s.client.claim.run in s.disk.staging && entry != RequestFile then
        var dir := s.disk.staging[s.client.claim.run];
        var rest := if entry == StagedFile then dir.entries - {Temporary} else dir.entries;
        Some(SetStaging(s, s.client.claim.run, dir.(entries := rest + {entry}), s.client))
      else None
    case StageRename =>
      // A rename replaces an empty directory and refuses any other.
      if && s.client.StageFilling? && s.client.claim.run in s.disk.staging
         && {StagedFile, DaemonDir} <= s.disk.staging[s.client.claim.run].entries && Temporary !in s.disk.staging[s.client.claim.run].entries
         && (s.client.claim.run in s.disk.roots ==> s.disk.roots[s.client.claim.run] == EMPTY_DIR)
      then
        var claim := s.client.claim;
        Some(s.(disk := s.disk.(roots := s.disk.roots[claim.run := s.disk.staging[claim.run]],
                                staging := s.disk.staging - {claim.run}),
                client := StagePublished(claim)))
      else None
    case StageReceipt =>
      if s.client.StagePublished? then
        var claim := s.client.claim;
        Some(s.(disk := s.disk.(receipts := s.disk.receipts[claim.run := Receipt(claim, RunState.Staged, None, NO_CLEANUP, false)]),
                client := Idle))
      else None
    case StageFail =>
      if s.client.StageMade? || s.client.StageTemporary? || s.client.StageFilling?
      then Some(s.(client := StageAborting(s.client.claim)))
      else None
    case StageUnlink(entry) =>
      if s.client.StageAborting? && s.client.claim.run in s.disk.staging then
        var dir := s.disk.staging[s.client.claim.run];
        Some(SetStaging(s, s.client.claim.run, dir.(entries := dir.entries - {entry}), s.client))
      else None
    case StageDisown =>
      if s.client.StageAborting? && s.client.claim.run in s.disk.staging
      then Some(SetStaging(s, s.client.claim.run, s.disk.staging[s.client.claim.run].(ownership := None), s.client))
      else None
    case StageRemoved =>
      if s.client.StageAborting? && s.client.claim.run in s.disk.staging && s.disk.staging[s.client.claim.run] == EMPTY_DIR
      then Some(s.(disk := s.disk.(staging := s.disk.staging - {s.client.claim.run}), client := Idle))
      else None
    case _ => None
  }

  function StartStep(s: State, a: Action): Option<State> {
    match a
    case StartBegin(claim) =>
      if && OperationFree(s) && s.disk.setup.None? && s.disk.lock == Some(Lock(claim, None))
         && StatusOf(s.disk, claim.run).Some? && StatusOf(s.disk, claim.run).value.claim == claim
         && (StatusOf(s.disk, claim.run).value.state.Accepted? || StatusOf(s.disk, claim.run).value.state.Staged?)
         && claim.run in s.disk.roots && StagedFile in s.disk.roots[claim.run].entries
      then Some(s.(client := StartRequest(claim)))
      else None
    case StartWriteRequest =>
      if s.client.StartRequest? && s.client.claim.run in s.disk.roots then
        var r := s.client.claim.run;
        Some(s.(disk := s.disk.(roots := s.disk.roots[r := s.disk.roots[r].(entries := s.disk.roots[r].entries + {RequestFile})]),
                client := StartPending(s.client.claim)))
      else None
    case StartWritePending =>
      if s.client.StartPending?
      then Some(s.(disk := s.disk.(pending := Some(s.client.claim)), client := Client.StartReceipt(s.client.claim)))
      else None
    case StartWriteReceipt =>
      if s.client.StartReceipt? then
        var claim := s.client.claim;
        Some(s.(disk := s.disk.(receipts := s.disk.receipts[claim.run := Receipt(claim, Starting, None, NO_CLEANUP, false)]), client := Idle))
      else None
    case StartRepair(claim) =>
      if && OperationFree(s) && s.disk.setup.None? && LockedFor(s.disk, claim) && s.disk.lock.value.session.Some?
         && claim.run in s.disk.receipts && s.disk.receipts[claim.run].claim == claim && s.disk.receipts[claim.run].session.None?
         && HasRequest(s.disk, claim.run)
      then
        var repaired := s.disk.receipts[claim.run].(session := s.disk.lock.value.session, state := CleanupFailed, rollback := false);
        Some(s.(disk := s.disk.(receipts := s.disk.receipts[claim.run := repaired])))
      else None
    case _ => None
  }

  // ----- Settle -----

  /** The receipt Settle works on: cleanup is never trusted, and a Session
      published only in the lock is adopted while the Run is still starting. */
  function Opened(stored: Receipt, lock: Lock): Receipt {
    var reset := stored.(cleanup := NO_CLEANUP);
    if reset.state.Starting? && reset.session.None? && lock.session.Some? then reset.(session := lock.session) else reset
  }

  /** The two authority checks before Settle decides whether there is a Session
      to stop; a failed check ends the operation. */
  function Checked(w: Work): Client {
    if w.asked.Some? && w.asked != w.stored.session then Idle
    else if w.lock.session != w.stored.session then Idle
    else Settling(if w.stored.session.None? then Step.Recover else StopSession, w)
  }

  function Entered(w: Work): Client {
    if w.stored.session.Some? && w.lock.session.None? then Settling(RecoverStale, w) else Checked(w)
  }

  /** An earlier Settle of this Run released the lock but may not have
      published the final receipt. */
  predicate ReleasedEarlier(s: State, stored: Receipt) {
    stored.cleanup.stopped && stored.claim.run !in s.disk.roots && !LockedFor(s.disk, stored.claim)
  }

  function SettleStep(s: State, a: Action): Option<State> {
    match a
    case SettleBegin(claim, asked) =>
      if && OperationFree(s) && StatusOf(s.disk, claim.run).Some? && StatusOf(s.disk, claim.run).value.claim == claim
         && LockedFor(s.disk, claim)
      then
        var lock := s.disk.lock.value;
        Some(s.(client := Entered(Work(Opened(StatusOf(s.disk, claim.run).value, lock), lock, asked))))
      else None
    case SettleReplay(claim) =>
      if && OperationFree(s) && claim.run in s.disk.receipts && s.disk.receipts[claim.run].claim == claim
         && ReleasedEarlier(s, s.disk.receipts[claim.run])
      then
        var final := Terminalized(s.disk.receipts[claim.run].(cleanup := ALL_CLEAN));
        Some(s.(disk := s.disk.(receipts := s.disk.receipts[claim.run := final]), client := if s.disk.lock.Some? then Idle else ClearPending))
      else None
    case SettleRecover(answer) => SettleRecoverStep(s, answer)
    case SettleProbe =>
      if s.client.Settling? && LaunchFree(s) then
        match s.client.step
        case ProbeStale =>
          if s.client.work.stored.session.Some?
          then Some(s.(client := Settling(WriteStale(s.client.work.stored.session.value), s.client.work)))
          else None
        case Probe => Some(s.(client := Settling(WriteStopped, s.client.work)))
        case _ => None
      else None
    case SettleWrite => SettleWriteStep(s)
    case SettleStop(confirmed, effective) =>
      if s.client.Settling? && s.client.step.StopSession? && s.client.work.stored.session.Some? then
        var w := s.client.work;
        var r := w.stored.claim.run;
        var after := Stopped(s, r, w.stored.session.value);
        if confirmed then
          if MayConfirm(s, r, w.stored.session.value) then Some(after.(client := Settling(WriteStopped, w))) else None
        else
          Some((if effective then after else s).(client := Idle))
      else None
    case _ => None
  }

  function SettleRecoverStep(s: State, answer: Recovered): Option<State> {
    if s.client.Settling? && MayAnswer(s, s.client.work.stored.claim.run, answer) then
      var w := s.client.work;
      match (s.client.step, answer)
      case (RecoverStale, Found(id)) =>
        if w.stored.session == Some(id) then Some(s.(client := Settling(WriteStale(id), w))) else None
      case (RecoverStale, NotFound) =>
        if w.stored.state.CleanupFailed? && w.stored.rollback then Some(s.(client := Settling(ProbeStale, w))) else None
      case (Recover, Found(id)) =>
        Some(s.(client := Settling(Step.WriteLock(id), w)))
      case (Recover, NotFound) =>
        Some(s.(client := Settling(if w.stored.state.Starting? then Probe else WriteStopped, w)))
      case _ => None
    else None
  }

  function SettleWriteStep(s: State): Option<State> {
    if s.client.Settling? then
      var w := s.client.work;
      var claim := w.stored.claim;
      match s.client.step
      case WriteStale(id) =>
        var lock := Lock(w.lock.claim, Some(id));
        Some(s.(disk := s.disk.(lock := Some(lock)), client := Checked(w.(lock := lock))))
      case WriteLock(id) =>
        var lock := Lock(w.lock.claim, Some(id));
        Some(s.(disk := s.disk.(lock := Some(lock)), client := Settling(WriteRecovered, w.(lock := lock))))
      case WriteRecovered =>
        var stored := w.stored.(session := w.lock.session, state := CleanupFailed, rollback := false);
        Some(s.(disk := s.disk.(receipts := s.disk.receipts[claim.run := stored]), client := Settling(StopSession, w.(stored := stored))))
      case WriteStopped =>
        var stored := w.stored.(cleanup := w.stored.cleanup.(stopped := true));
        Some(s.(disk := s.disk.(receipts := s.disk.receipts[claim.run := stored]), client := Settling(Step.RemoveRoot, w.(stored := stored))))
      case _ => None
    else None
  }

  /** One step of removing a directory: entries first, ownership next to last,
      the directory itself last. A directory that is neither owned nor empty is
      left alone. */
  function Removal(dir: Dir, claim: Claim, a: Action): Option<Option<Dir>> {
    match a
    case UnlinkEntry(entry) =>
      if dir.ownership == Some(claim) && entry in dir.entries
      then Some(Some(dir.(entries := dir.entries - {entry}))) else None
    case Disown =>
      if dir.ownership == Some(claim) && dir.entries == {} then Some(Some(EMPTY_DIR)) else None
    case RemoveDir =>
      if dir == EMPTY_DIR then Some(None) else None
    case _ => None
  }

  function Put(dirs: map<RunId, Dir>, r: RunId, dir: Option<Dir>): map<RunId, Dir> {
    if dir.Some? then dirs[r := dir.value] else dirs - {r}
  }

  function RemoveRootStep(s: State, a: Action): Option<State>
    requires s.client.Settling?
  {
    var claim := s.client.work.stored.claim;
    if claim.run !in s.disk.roots then
      if a.DirGone? then Some(s.(client := Settling(RemoveStaging, s.client.work))) else None
    else
      var left := Removal(s.disk.roots[claim.run], claim, a);
      if left.None? then None else Some(s.(disk := s.disk.(roots := Put(s.disk.roots, claim.run, left.value))))
  }

  function RemoveStagingStep(s: State, a: Action): Option<State>
    requires s.client.Settling?
  {
    var w := s.client.work;
    var claim := w.stored.claim;
    if claim.run !in s.disk.staging then
      var cleanup := w.stored.cleanup.(payload := true, root := true);
      if a.DirGone? then Some(s.(client := Settling(Release, w.(stored := w.stored.(cleanup := cleanup))))) else None
    else
      var left := Removal(s.disk.staging[claim.run], claim, a);
      if left.None? then None else Some(s.(disk := s.disk.(staging := Put(s.disk.staging, claim.run, left.value))))
  }

  function CleanupStep(s: State, a: Action): Option<State> {
    if !s.client.Settling? then None
    else
      var w := s.client.work;
      match s.client.step
      case RemoveRoot => RemoveRootStep(s, a)
      case RemoveStaging => RemoveStagingStep(s, a)
      case Release =>
        if a.ReleaseLock? && s.disk.lock == Some(Lock(w.stored.claim, w.stored.session))
        then Some(s.(disk := s.disk.(lock := None), client := Settling(Finish, w)))
        else None
      case Finish =>
        var final := Terminalized(w.stored.(cleanup := w.stored.cleanup.(released := true)));
        if a.FinishReceipt?
        then Some(s.(disk := s.disk.(receipts := s.disk.receipts[w.stored.claim.run := final]), client := ClearPending))
        else None
      case _ => None
  }

  // ----- setup maintenance and client failure -----

  /** What `InspectSetupMaintenance` demands of the work root. */
  predicate Quiescent(s: State) {
    && s.disk.lock.None? && s.disk.pending.None? && s.disk.roots == map[] && s.disk.staging == map[]
    && forall r | r in s.disk.receipts :: s.disk.receipts[r].cleanup.Known() && Terminal(s.disk.receipts[r].state)
  }

  function MaintenanceStep(s: State, a: Action): Option<State> {
    match a
    case MaintenanceBegin(own) =>
      if OperationFree(s) && LaunchFree(s) && s.disk.setup == own && Quiescent(s)
      then Some(s.(client := Maintaining(own))) else None
    case PublishSetup(id) =>
      if s.client.Maintaining? && s.disk.setup.None? then Some(s.(disk := s.disk.(setup := Some(id)))) else None
    case ClearSetup =>
      if s.client.Maintaining? && s.client.own.Some? && s.disk.setup == s.client.own then Some(s.(disk := s.disk.(setup := None))) else None
    case _ => None
  }

  function ClientStep(s: State, a: Action): Option<State> {
    match a
    case ClientStops => if s.client.Idle? then None else Some(s.(client := Idle))
    case RemovePending => if s.client.ClearPending? then Some(s.(disk := s.disk.(pending := None), client := Idle)) else None
    case _ => None
  }

  // ----- the executor -----

  function WriteState(s: State, r: RunId, state: RunState): map<RunId, Receipt>
    requires r in s.disk.receipts
  {
    s.disk.receipts[r := s.disk.receipts[r].(state := state, rollback := false)]
  }

  function LaunchStep(s: State, a: Action): Option<State> {
    match a
    case ReadPending(request) =>
      if s.exec.XIdle? && s.disk.pending == Some(request) then Some(s.(exec := XWanting(request))) else None
    case Admit =>
      if s.exec.XWanting? && OperationFree(s) && s.disk.setup.None? && ExactStarting(s.disk, s.exec.claim) && LaunchFree(s)
      then Some(s.(exec := XInCall(s.exec.claim, false))) else None
    case RefuseStart(timedOut) =>
      if s.exec.XWanting? && OperationFree(s) && s.disk.setup.None? && ExactStarting(s.disk, s.exec.claim)
      then Some(s.(disk := s.disk.(receipts := WriteState(s, s.exec.claim.run, if timedOut then TimedOut else Failed)), exec := XIdle)) else None
    case AbandonBatch =>
      if && s.exec.XWanting? && OperationFree(s) && s.disk.setup.None? && LockedFor(s.disk, s.exec.claim) && s.disk.lock.value.session.Some?
         && s.exec.claim.run in s.disk.receipts && s.disk.receipts[s.exec.claim.run].claim == s.exec.claim
         && s.disk.receipts[s.exec.claim.run].session == s.disk.lock.value.session && s.disk.receipts[s.exec.claim.run].state.Interacting?
      then Some(s.(disk := s.disk.(receipts := WriteState(s, s.exec.claim.run, Failed)), exec := XIdle)) else None
    case ReturnStart(id, failed) =>
      if s.exec.XInCall? && (id.Some? ==> s.exec.recorded && s.exec.claim.run in s.sessions && s.sessions[s.exec.claim.run].id == id.value)
      then Some(s.(exec := XReturned(s.exec.claim, id, failed))) else None
    case Reconcile(answer, timedOut) =>
      if && s.exec.XReturned? && OperationFree(s) && ActiveReceipt(s.disk, s.exec.claim, None) && s.exec.claim.run in s.disk.receipts
         && MayAnswer(s, s.exec.claim.run, answer)
      then
        var id := if s.exec.answer.Some? then s.exec.answer
                  else if s.exec.failed && answer.Found? then Some(answer.id) else None;
        if id.Some? then Some(s.(exec := XPublish(s.exec.claim, id.value, s.exec.failed)))
        else Some(s.(disk := s.disk.(receipts := WriteState(s, s.exec.claim.run, if timedOut then TimedOut else Failed)), exec := XIdle))
      else None
    case PublishIdentity(applied, reported) =>
      if s.exec.XPublish? && (reported ==> applied) then
        var x := s.exec;
        var lock := if applied then Some(Lock(x.claim, Some(x.id))) else s.disk.lock;
        Some(s.(disk := s.disk.(lock := lock), exec := if reported then XPublished(x.claim, x.id, x.failed) else XRollback(x.claim, x.id)))
      else None
    case RollbackStop(confirmed, effective) =>
      if s.exec.XRollback? then
        var after := Stopped(s, s.exec.claim.run, s.exec.id);
        if confirmed then
          if MayConfirm(s, s.exec.claim.run, s.exec.id) then Some(after.(exec := XRolledBack(s.exec.claim))) else None
        else
          Some((if effective then after else s).(exec := XRollbackFailed(s.exec.claim, s.exec.id)))
      else None
    case RollbackReceipt =>
      if s.exec.XRolledBack? && s.exec.claim.run in s.disk.receipts then
        Some(s.(disk := s.disk.(receipts := WriteState(s, s.exec.claim.run, Failed)), exec := XIdle))
      else if s.exec.XRollbackFailed? then
        var receipt := Receipt(s.exec.claim, CleanupFailed, Some(s.exec.id), NO_CLEANUP, true);
        Some(s.(disk := s.disk.(receipts := s.disk.receipts[s.exec.claim.run := receipt]), exec := XIdle))
      else None
    case PublishRunning(written) =>
      if s.exec.XPublished? then
        var x := s.exec;
        var state := if x.failed then Failed else if written then Running else CleanupFailed;
        var receipt := Receipt(x.claim, state, Some(x.id), NO_CLEANUP, false);
        Some(s.(disk := s.disk.(receipts := s.disk.receipts[x.claim.run := receipt]),
                exec := if written && !x.failed then XActive(x.claim, x.id, AwaitReady) else XIdle))
      else None
    case _ => None
  }

  /** The receipt state written when the executor leaves one phase for the
      next; `batch` tells whether the Scenario declares UI actions. */
  function ProgressState(phase: Phase, next: Phase, batch: bool): Option<RunState> {
    match (phase, next)
    case (AwaitReady, InScenario) => Some(Calling)
    case (InScenario, InBatch) => if batch then Some(Calling) else None
    case (InScenario, InCaptures) => if batch then None else Some(Collecting)
    case (InBatch, InBatch) => if batch then Some(Interacting) else None
    case (InBatch, InCaptures) => if batch then Some(Collecting) else None
    case (InCaptures, InCaptures) => Some(Collecting)
    case _ => None
  }

  predicate MayPublish(s: State) {
    && s.exec.XActive? && OperationFree(s) && s.exec.claim.run in s.disk.receipts
    && ActiveReceipt(s.disk, s.exec.claim, Some(s.exec.id))
  }

  function RunStep(s: State, a: Action): Option<State> {
    match a
    case Progress(next, batch) =>
      if MayPublish(s) && ProgressState(s.exec.phase, next, batch).Some? then
        var stored := s.disk.receipts[s.exec.claim.run].(state := ProgressState(s.exec.phase, next, batch).value);
        Some(s.(disk := s.disk.(receipts := s.disk.receipts[s.exec.claim.run := stored]), exec := s.exec.(phase := next)))
      else None
    case FailRun(timedOut) =>
      if MayPublish(s)
      then Some(s.(disk := s.disk.(receipts := WriteState(s, s.exec.claim.run, if timedOut then TimedOut else Failed)), exec := XIdle)) else None
    case CompleteRun =>
      if MayPublish(s) && s.exec.phase.InCaptures? then
        var stored := s.disk.receipts[s.exec.claim.run].(state := Complete);
        Some(s.(disk := s.disk.(receipts := s.disk.receipts[s.exec.claim.run := stored]), exec := Exec.XClearPending))
      else None
    case PruneRoot =>
      // The best-effort removal of capture leftovers may take an empty Run root with it.
      if s.exec.XActive? && s.exec.claim.run in s.disk.roots && s.disk.roots[s.exec.claim.run] == EMPTY_DIR
      then Some(s.(disk := s.disk.(roots := s.disk.roots - {s.exec.claim.run}))) else None
    case ExecutorClears =>
      if s.exec.XClearPending? then Some(s.(disk := s.disk.(pending := None), exec := XIdle)) else None
    case _ => None
  }

  /** Settle asks the daemon before it probes the launch lock. Between the two
      the executor must not let go of that lock by dying or timing out. */
  predicate InLaunchWindow(s: State) {
    s.client.Settling? && s.client.step.Probe? && ExecHoldsLaunch(s.exec) && s.exec.claim == s.client.work.stored.claim
  }

  function StopExecutor(s: State): Option<State> {
    if s.exec.XIdle? then None else Some(s.(exec := XIdle))
  }

  function CrashStep(s: State, a: Action): Option<State> {
    match a
    case ExecutorStops => if InLaunchWindow(s) then None else StopExecutor(s)
    case _ => None
  }

  // ----- the whole protocol -----

  /** Which operation an action belongs to. */
  datatype Actor = Acquirer | Stager | Starter | Settler | Cleaner | Maintainer | AnyClient | Launcher | Runner | Crash | Daemon

  function ActorOf(a: Action): Actor {
    match a
    case AcquireLock(_) => Acquirer
    case AcquireReceipt => Acquirer
    case StageMake(_) => Stager
    case StageTemp => Stager
    case StageOwn => Stager
    case StageFill(_) => Stager
    case StageRename => Stager
    case StageReceipt => Stager
    case StageFail => Stager
    case StageUnlink(_) => Stager
    case StageDisown => Stager
    case StageRemoved => Stager
    case StartBegin(_) => Starter
    case StartWriteRequest => Starter
    case StartWritePending => Starter
    case StartWriteReceipt => Starter
    case StartRepair(_) => Starter
    case SettleBegin(_, _) => Settler
    case SettleReplay(_) => Settler
    case SettleRecover(_) => Settler
    case SettleProbe => Settler
    case SettleWrite => Settler
    case SettleStop(_, _) => Settler
    case UnlinkEntry(_) => Cleaner
    case Disown => Cleaner
    case RemoveDir => Cleaner
    case DirGone => Cleaner
    case ReleaseLock => Cleaner
    case FinishReceipt => Cleaner
    case MaintenanceBegin(_) => Maintainer
    case PublishSetup(_) => Maintainer
    case ClearSetup => Maintainer
    case ClientStops => AnyClient
    case RemovePending => AnyClient
    case Progress(_, _) => Runner
    case FailRun(_) => Runner
    case CompleteRun => Runner
    case PruneRoot => Runner
    case ExecutorClears => Runner
    case ExecutorStops => Crash
    case RecordIdentity(_) => Daemon
    case GoLive(_) => Daemon
    case Die(_) => Daemon
    case _ => Launcher
  }

  function Next(s: State, a: Action): Option<State> {
    match ActorOf(a)
    case Acquirer => AcquireStep(s, a)
    case Stager => StageStep(s, a)
    case Starter => StartStep(s, a)
    case Settler => SettleStep(s, a)
    case Cleaner => CleanupStep(s, a)
    case Maintainer => MaintenanceStep(s, a)
    case AnyClient => ClientStep(s, a)
    case Launcher => LaunchStep(s, a)
    case Runner => RunStep(s, a)
    case Crash => CrashStep(s, a)
    case Daemon => DaemonStep(s, a)
  }

  /** The state after a whole schedule, if every action of it was enabled. */
  function Run(s: State, schedule: seq<Action>): Option<State>
    decreases |schedule|
  {
    if schedule == [] then Some(s)
    else
      var next := Next(s, schedule[0]);
      if next.None? then None else Run(next.value, schedule[1..])
  }
}
