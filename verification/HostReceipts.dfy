/**
 The life of a receipt: which step of which process may move a Run from which
 state to which, which ends are final, and what a complete Run has been through.
 */
module HostReceipts {
  import opened Options
  import opened HostState
  import opened HostProtocol
  import opened HostInvariants
  import opened HostTheorems
  import opened HostPolling

  /** What the receipt says while the executor works on the Run under its lock. */
  predicate PhaseShown(d: Disk, x: Exec) {
    x.XActive? && LockedFor(d, x.claim) && x.claim.run in d.receipts ==>
      match x.phase
      case AwaitReady => d.receipts[x.claim.run].state.Running?
      case InScenario => d.receipts[x.claim.run].state.Calling?
      case InBatch => d.receipts[x.claim.run].state.Calling? || d.receipts[x.claim.run].state.Interacting?
      case InCaptures => d.receipts[x.claim.run].state.Collecting?
  }

  function StateOf(d: Disk, r: RunId): Option<RunState> {
    if StatusOf(d, r).Some? then Some(StatusOf(d, r).value.state) else None
  }

  predicate Live(state: RunState) {
    state == Running || state == Calling || state == Interacting || state == Collecting
  }

  /** The steps that may take a Run from one state to another. A deadline that
      expired is the executor's choice of `TimedOut`. */
  predicate Moves(a: Action, before: RunState, after: RunState) {
    match after
    case Accepted => false
    case Staged => a == StageReceipt
    case Starting => a == StartWriteReceipt && (before == Accepted || before == RunState.Staged)
    case Running => a == PublishRunning(true) && before == Starting
    case Calling => a.Progress? && a.next == InScenario && before == Running
    case Interacting => a == Progress(InBatch, true) && before == Calling
    case Collecting => a.Progress? && a.next == InCaptures && (before == Calling || before == Interacting)
    case SettlingState => false
    case Complete => a == CompleteRun && before == Collecting
    case TimedOut =>
      || (before == Starting && (a == RefuseStart(true) || (a.Reconcile? && a.timedOut)))
      || (Live(before) && a == FailRun(true))
    case CleanupFailed =>
      || (before == Starting && (a == RollbackReceipt || a == PublishRunning(false)))
      || a == SettleWrite || a.StartRepair?
    case Failed =>
      || (before == Starting && (a == RefuseStart(false) || (a.Reconcile? && !a.timedOut) || a == RollbackReceipt || a.PublishRunning?))
      || (before == Interacting && a == AbandonBatch)
      || (Live(before) && a == FailRun(false))
      || (!Terminal(before) && (a == FinishReceipt || a.SettleReplay?))
  }

  /** An end stays; only a Session that nobody published turns it into a failed
      cleanup. */
  predicate EndKept(before: Receipt, after: Receipt) {
    before.state == Complete || before.state == Failed || before.state == TimedOut || before.state == CleanupFailed ==>
      || after.state == before.state
      || (after.state == CleanupFailed && before.session.None? && after.session.Some?)
  }

  ghost predicate MovesRun(s: State, a: Action, t: State, r: RunId) {
    StatusOf(s.disk, r).Some? && StatusOf(t.disk, r).Some? ==>
      var before, after := StatusOf(s.disk, r).value, StatusOf(t.disk, r).value;
      && (after.state == before.state || Moves(a, before.state, after.state))
      && (EndKept(before, after) || Regresses(s, a, r))
  }

  lemma UnwrittenMoves(s: State, a: Action, t: State, r: RunId)
    requires t.disk.lock == s.disk.lock && t.disk.receipts == s.disk.receipts
    ensures MovesRun(s, a, t, r)
  {
  }

  lemma AcquireMoves(s: State, a: Action, t: State, r: RunId)
    requires Inv(s) && AcquireStep(s, a) == Some(t)
    ensures MovesRun(s, a, t, r)
  {
    assert Focus(s) && RunInv(s.disk, s.sessions, r);
  }

  lemma StageMoves(s: State, a: Action, t: State, r: RunId)
    requires Inv(s) && StageStep(s, a) == Some(t)
    ensures MovesRun(s, a, t, r)
  {
    if !a.StageReceipt? { StageUnwritten(s, a, t); }
  }

  lemma StartMoves(s: State, a: Action, t: State, r: RunId)
    requires Inv(s) && StartStep(s, a) == Some(t)
    ensures MovesRun(s, a, t, r)
  {
    if a.StartWriteReceipt? {
      StartedMoves(s, t, r);
    } else if a.StartRepair? {
      RepairMoves(s, a, t, r);
    } else {
      UnwrittenMoves(s, a, t, r);
    }
  }

  lemma StartedMoves(s: State, t: State, r: RunId)
    requires Inv(s) && StartStep(s, StartWriteReceipt) == Some(t)
    ensures MovesRun(s, StartWriteReceipt, t, r)
  {
  }

  lemma RepairMoves(s: State, a: Action, t: State, r: RunId)
    requires Inv(s) && a.StartRepair? && StartStep(s, a) == Some(t)
    ensures MovesRun(s, a, t, r)
  {
  }

  lemma WriteMoves(s: State, t: State, r: RunId)
    requires Inv(s) && SettleStep(s, SettleWrite) == Some(t)
    ensures MovesRun(s, SettleWrite, t, r)
  {
    if s.client.step.WriteRecovered? || s.client.step.WriteStopped? {
      SettledReceiptMoves(s, t, r);
    } else {
      LockMoves(s, t, r);
    }
  }

  lemma SettledReceiptMoves(s: State, t: State, r: RunId)
    requires Inv(s) && SettleStep(s, SettleWrite) == Some(t) && (s.client.step.WriteRecovered? || s.client.step.WriteStopped?)
    ensures MovesRun(s, SettleWrite, t, r)
  {
  }

  lemma LockMoves(s: State, t: State, r: RunId)
    requires Inv(s) && SettleStep(s, SettleWrite) == Some(t) && !s.client.step.WriteRecovered? && !s.client.step.WriteStopped?
    ensures MovesRun(s, SettleWrite, t, r)
  {
  }

  lemma SettleMoves(s: State, a: Action, t: State, r: RunId)
    requires Inv(s) && SettleStep(s, a) == Some(t) && !a.SettleWrite?
    ensures MovesRun(s, a, t, r)
  {
    assert RunInv(s.disk, s.sessions, r);
  }

  lemma CleanupMoves(s: State, a: Action, t: State, r: RunId)
    requires Inv(s) && CleanupStep(s, a) == Some(t)
    ensures MovesRun(s, a, t, r)
  {
    hide RemoveRootStep, RemoveStagingStep, MovesRun;
    match s.client.step
    case RemoveRoot => DirectoryMoves(s, a, t, r);
    case RemoveStaging => DirectoryMoves(s, a, t, r);
    case Release => ReleaseMoves(s, a, t, r);
    case Finish => FinishMoves(s, a, t, r);
    case _ => assert false;
  }

  lemma DirectoryMoves(s: State, a: Action, t: State, r: RunId)
    requires s.client.Settling? && (RemoveRootStep(s, a) == Some(t) || RemoveStagingStep(s, a) == Some(t))
    ensures MovesRun(s, a, t, r)
  {
    UnwrittenMoves(s, a, t, r);
  }

  lemma ReleaseMoves(s: State, a: Action, t: State, r: RunId)
    requires Inv(s) && CleanupStep(s, a) == Some(t) && s.client.step.Release?
    ensures MovesRun(s, a, t, r)
  {
    assert RunInv(s.disk, s.sessions, r);
  }

  lemma FinishMoves(s: State, a: Action, t: State, r: RunId)
    requires Inv(s) && CleanupStep(s, a) == Some(t) && s.client.step.Finish?
    ensures MovesRun(s, a, t, r)
  {
  }

  lemma OtherMoves(s: State, a: Action, t: State, r: RunId)
    requires Inv(s)
    requires MaintenanceStep(s, a) == Some(t) || ClientStep(s, a) == Some(t) || CrashStep(s, a) == Some(t) || DaemonStep(s, a) == Some(t)
    ensures MovesRun(s, a, t, r)
  {
    UnwrittenMoves(s, a, t, r);
  }

  lemma LaunchMoves(s: State, a: Action, t: State, r: RunId)
    requires Inv(s) && LaunchStep(s, a) == Some(t)
    ensures MovesRun(s, a, t, r)
  {
    hide MovesRun;
    if a.PublishRunning? || a.RollbackReceipt? {
      PublishMoves(s, a, t, r);
    } else {
      AskMoves(s, a, t, r);
    }
  }

  lemma PublishMoves(s: State, a: Action, t: State, r: RunId)
    requires Inv(s) && LaunchStep(s, a) == Some(t) && (a.PublishRunning? || a.RollbackReceipt?)
    ensures MovesRun(s, a, t, r)
  {
  }

  lemma AskMoves(s: State, a: Action, t: State, r: RunId)
    requires Inv(s) && LaunchStep(s, a) == Some(t) && !a.PublishRunning? && !a.RollbackReceipt?
    ensures MovesRun(s, a, t, r)
  {
    assert RunInv(s.disk, s.sessions, r);
  }

  lemma RunMoves(s: State, a: Action, t: State, r: RunId)
    requires Inv(s) && RunStep(s, a) == Some(t) && PhaseShown(s.disk, s.exec)
    ensures MovesRun(s, a, t, r)
  {
    assert Focus(s) && RunInv(s.disk, s.sessions, r);
  }

  // ----- the phase stays shown -----

  lemma UnwrittenShown(s: State, t: State)
    requires PhaseShown(s.disk, s.exec) && t.exec == s.exec
    requires t.disk.receipts == s.disk.receipts && (t.disk.lock == s.disk.lock || t.disk.lock.None?)
    ensures PhaseShown(t.disk, t.exec)
  {
  }

  lemma AcquireShown(s: State, a: Action, t: State)
    requires Inv(s) && PhaseShown(s.disk, s.exec) && AcquireStep(s, a) == Some(t)
    ensures PhaseShown(t.disk, t.exec)
  {
  }

  lemma StartShown(s: State, a: Action, t: State)
    requires Inv(s) && PhaseShown(s.disk, s.exec) && StartStep(s, a) == Some(t)
    ensures PhaseShown(t.disk, t.exec)
  {
  }

  lemma ClientShown(s: State, a: Action, t: State)
    requires Inv(s) && PhaseShown(s.disk, s.exec) && (MaintenanceStep(s, a) == Some(t) || ClientStep(s, a) == Some(t))
    ensures PhaseShown(t.disk, t.exec)
  {
  }

  lemma StageShown(s: State, a: Action, t: State)
    requires Inv(s) && PhaseShown(s.disk, s.exec) && StageStep(s, a) == Some(t)
    ensures PhaseShown(t.disk, t.exec)
  {
    if a.StageReceipt? { StagedShown(s, t); } else { StageUnwritten(s, a, t); }
  }

  lemma StagedShown(s: State, t: State)
    requires Inv(s) && PhaseShown(s.disk, s.exec) && StageStep(s, StageReceipt) == Some(t)
    ensures PhaseShown(t.disk, t.exec)
  {
  }

  lemma WriteShown(s: State, t: State)
    requires Inv(s) && PhaseShown(s.disk, s.exec) && SettleStep(s, SettleWrite) == Some(t)
    ensures PhaseShown(t.disk, t.exec)
  {
    if s.client.step.WriteRecovered? || s.client.step.WriteStopped? {
      SettledReceiptShown(s, t);
    } else {
      LockShown(s, t);
    }
  }

  lemma SettledReceiptShown(s: State, t: State)
    requires Inv(s) && SettleStep(s, SettleWrite) == Some(t) && (s.client.step.WriteRecovered? || s.client.step.WriteStopped?)
    requires PhaseShown(s.disk, s.exec)
    ensures PhaseShown(t.disk, t.exec)
  {
  }

  lemma LockShown(s: State, t: State)
    requires Inv(s) && SettleStep(s, SettleWrite) == Some(t) && !s.client.step.WriteRecovered? && !s.client.step.WriteStopped?
    requires PhaseShown(s.disk, s.exec)
    ensures PhaseShown(t.disk, t.exec)
  {
  }

  lemma SettleShown(s: State, a: Action, t: State)
    requires Inv(s) && PhaseShown(s.disk, s.exec) && SettleStep(s, a) == Some(t) && !a.SettleWrite?
    ensures PhaseShown(t.disk, t.exec)
  {
  }

  lemma CleanupShown(s: State, a: Action, t: State)
    requires Inv(s) && PhaseShown(s.disk, s.exec) && CleanupStep(s, a) == Some(t)
    ensures PhaseShown(t.disk, t.exec)
  {
    hide RemoveRootStep, RemoveStagingStep;
    if s.client.step.RemoveRoot? || s.client.step.RemoveStaging? { DirectoryShown(s, a, t); }
  }

  lemma DirectoryShown(s: State, a: Action, t: State)
    requires s.client.Settling? && (RemoveRootStep(s, a) == Some(t) || RemoveStagingStep(s, a) == Some(t)) && PhaseShown(s.disk, s.exec)
    ensures PhaseShown(t.disk, t.exec)
  {
    UnwrittenShown(s, t);
  }

  lemma ExecutorShown(s: State, a: Action, t: State)
    requires Inv(s) && PhaseShown(s.disk, s.exec)
    requires LaunchStep(s, a) == Some(t) || RunStep(s, a) == Some(t) || CrashStep(s, a) == Some(t) || DaemonStep(s, a) == Some(t)
    ensures PhaseShown(t.disk, t.exec)
  {
  }

  /** One step by whichever process. */
  lemma StepMoves(s: State, a: Action, t: State, r: RunId)
    requires Inv(s) && Next(s, a) == Some(t) && PhaseShown(s.disk, s.exec)
    ensures PhaseShown(t.disk, t.exec) && MovesRun(s, a, t, r)
  {
    hide Inv, PhaseShown, MovesRun, AcquireStep, StageStep, StartStep, SettleStep, CleanupStep, MaintenanceStep, ClientStep;
    hide LaunchStep, RunStep, CrashStep, DaemonStep;
    match ActorOf(a)
    case Acquirer => AcquireShown(s, a, t); AcquireMoves(s, a, t, r);
    case Stager => StageShown(s, a, t); StageMoves(s, a, t, r);
    case Starter => StartShown(s, a, t); StartMoves(s, a, t, r);
    case Settler =>
      if a.SettleWrite? {
        WriteShown(s, t);
        WriteMoves(s, t, r);
      } else {
        SettleShown(s, a, t);
        SettleMoves(s, a, t, r);
      }
    case Cleaner => CleanupShown(s, a, t); CleanupMoves(s, a, t, r);
    case Maintainer => ClientShown(s, a, t); OtherMoves(s, a, t, r);
    case AnyClient => ClientShown(s, a, t); OtherMoves(s, a, t, r);
    case Launcher => ExecutorShown(s, a, t); LaunchMoves(s, a, t, r);
    case Runner => ExecutorShown(s, a, t); RunMoves(s, a, t, r);
    case Crash => ExecutorShown(s, a, t); OtherMoves(s, a, t, r);
    case Daemon => ExecutorShown(s, a, t); OtherMoves(s, a, t, r);
  }

  // ----- what the steps that end or advance a Run leave -----

  predicate ByClient(s: State, t: State, state: RunState) {
    ClientRun(s.client).Some? && StateOf(t.disk, ClientRun(s.client).value) == Some(state)
  }

  predicate ByExecutor(s: State, t: State, state: RunState) {
    ExecRun(s.exec).Some? && StateOf(t.disk, ExecRun(s.exec).value) == Some(state)
  }

  /** The receipt a step leaves of the Run it works on, by what happened. */
  ghost predicate Shows(s: State, a: Action, t: State) {
    match a
    case AcquireReceipt => ByClient(s, t, Accepted)
    case StageReceipt => ByClient(s, t, RunState.Staged)
    case StartWriteReceipt => ByClient(s, t, Starting)
    case RefuseStart(late) => ByExecutor(s, t, if late then TimedOut else Failed)
    case AbandonBatch => ByExecutor(s, t, Failed)
    case Reconcile(_, late) => t.exec.XPublish? || (t.exec.XIdle? && ByExecutor(s, t, if late then TimedOut else Failed))
    case RollbackReceipt => ByExecutor(s, t, if s.exec.XRolledBack? then Failed else CleanupFailed)
    case PublishRunning(written) =>
      && s.exec.XPublished? && ByExecutor(s, t, if s.exec.failed then Failed else if written then Running else CleanupFailed)
      && StatusOf(t.disk, s.exec.claim.run).value.session == Some(s.exec.id)
      && (t.exec.XActive? <==> written && !s.exec.failed)
    case Progress(next, batch) =>
      && s.exec.XActive? && t.exec == s.exec.(phase := next)
      && ByExecutor(s, t, if next.InScenario? then Calling else if next.InCaptures? then Collecting
                          else if s.exec.phase.InBatch? then Interacting else Calling)
      && (next.InBatch? ==> batch) && (next.InCaptures? && s.exec.phase.InScenario? ==> !batch)
    case FailRun(late) => t.exec.XIdle? && ByExecutor(s, t, if late then TimedOut else Failed)
    case CompleteRun => s.exec.XActive? && s.exec.phase.InCaptures? && t.exec.XClearPending? && ByExecutor(s, t, Complete)
    case _ => true
  }

  lemma LaunchShows(s: State, a: Action, t: State)
    requires Inv(s) && LaunchStep(s, a) == Some(t)
    ensures Shows(s, a, t)
  {
  }

  lemma OthersShow(s: State, a: Action, t: State)
    requires Inv(s) && Next(s, a) == Some(t) && !ActorOf(a).Launcher?
    ensures Shows(s, a, t)
  {
    hide LaunchStep;
  }

  /** No step that announces a state leaves another one. */
  lemma StepShows(s: State, a: Action, t: State)
    requires Inv(s) && Next(s, a) == Some(t)
    ensures Shows(s, a, t)
  {
    hide Inv, Shows;
    if ActorOf(a).Launcher? { LaunchShows(s, a, t); } else { OthersShow(s, a, t); }
  }

  // ----- over whole schedules -----

  lemma EndKeptTwice(a: Receipt, b: Receipt, c: Receipt)
    requires EndKept(a, b) && EndKept(b, c) && Follows(a, b) && Follows(b, c)
    ensures EndKept(a, c) && Follows(a, c)
  {
  }

  lemma {:induction false} EndsStay(n: nat, s: State, schedule: seq<Action>, t: State, r: RunId)
    requires Inv(s) && Run(s, schedule) == Some(t) && StageDiscipline(n, s, r) && PhaseShown(s.disk, s.exec)
    requires n + Stages(schedule, r) <= 1 && StatusOf(s.disk, r).Some?
    ensures StatusOf(t.disk, r).Some? && Follows(StatusOf(s.disk, r).value, StatusOf(t.disk, r).value)
    ensures EndKept(StatusOf(s.disk, r).value, StatusOf(t.disk, r).value)
    decreases |schedule|
  {
    hide Inv, Next, PhaseShown, EndKept, Follows, StageDiscipline;
    if schedule == [] {
      EndKeptSelf(StatusOf(s.disk, r).value);
    } else {
      var a, next := schedule[0], Next(s, schedule[0]).value;
      assert Run(next, []) == Some(next) && [a][1..] == [];
      assert Run(s, [a]) == Some(next);
      assert Stages([a], r) + Stages(schedule[1..], r) == Stages(schedule, r);
      NextKeeps(s, a, next);
      StepMoves(s, a, next, r);
      ReceiptsAdvance(n, s, [a], next, r);
      NotRegressing(s, a, next, r);
      EndsStay(n + Stages([a], r), next, schedule[1..], t, r);
      EndKeptTwice(StatusOf(s.disk, r).value, StatusOf(next.disk, r).value, StatusOf(t.disk, r).value);
    }
  }

  lemma EndKeptSelf(receipt: Receipt)
    ensures EndKept(receipt, receipt) && Follows(receipt, receipt)
  {
  }

  lemma NotRegressing(s: State, a: Action, t: State, r: RunId)
    requires Inv(s) && Next(s, a) == Some(t) && StatusOf(s.disk, r).Some? && StatusOf(t.disk, r).Some?
    requires Follows(StatusOf(s.disk, r).value, StatusOf(t.disk, r).value)
    ensures !Regresses(s, a, r)
  {
    NextOnward(s, a, t, r);
  }

  /** In any schedule that stages the Run at most once, the end of a Run is
      final: a complete Run never fails, a failed one never times out. Only a
      Session that no record named until then turns it into a failed cleanup. */
  lemma EndIsFinal(before: seq<Action>, between: seq<Action>, s: State, t: State, r: RunId)
    requires Run(INIT, before) == Some(s) && Run(s, between) == Some(t)
    requires Stages(before, r) + Stages(between, r) <= 1 && StatusOf(s.disk, r).Some?
    ensures StatusOf(t.disk, r).Some?
    ensures var first, later := StatusOf(s.disk, r).value, StatusOf(t.disk, r).value;
            && (first.state == Complete && first.session.Some? ==> later.state == Complete)
            && (first.state in {Complete, Failed, TimedOut, CleanupFailed} ==>
                  later.state == first.state || (later.state == CleanupFailed && first.session.None? && later.session.Some?))
  {
    hide Inv, Next, Run, PhaseShown, StageDiscipline;
    InitHolds();
    InitShows();
    ScheduleKeeps(INIT, before, s);
    ScheduleShows(INIT, before, s);
    ReceiptsAdvance(0, INIT, before, s, r);
    EndsStay(Stages(before, r), s, between, t, r);
  }

  lemma InitShows()
    ensures PhaseShown(INIT.disk, INIT.exec)
  {
  }

  lemma {:induction false} ScheduleShows(s: State, schedule: seq<Action>, t: State)
    requires Inv(s) && PhaseShown(s.disk, s.exec) && Run(s, schedule) == Some(t)
    ensures PhaseShown(t.disk, t.exec)
    decreases |schedule|
  {
    hide Inv, Next, PhaseShown;
    if schedule != [] {
      var next := Next(s, schedule[0]).value;
      NextKeeps(s, schedule[0], next);
      StepMoves(s, schedule[0], next, 0);
      ScheduleShows(next, schedule[1..], t);
    }
  }

  // ----- what a complete Run has been through -----

  lemma {:induction false} RunJoined(s: State, a: seq<Action>, t: State, b: seq<Action>, u: State)
    requires Run(s, a) == Some(t) && Run(t, b) == Some(u)
    ensures Run(s, a + b) == Some(u)
    decreases |a|
  {
    hide Next;
    if a == [] {
      assert a + b == b;
    } else {
      RunJoined(Next(s, a[0]).value, a[1..], t, b, u);
      assert (a + b)[1..] == a[1..] + b;
    }
  }

  lemma {:induction false} RunSplit(s: State, schedule: seq<Action>, k: nat, u: State) returns (t: State)
    requires Run(s, schedule) == Some(u) && k <= |schedule|
    ensures Run(s, schedule[..k]) == Some(t) && Run(t, schedule[k..]) == Some(u)
    decreases k
  {
    hide Next;
    if k == 0 {
      t := s;
      assert schedule[..0] == [] && schedule[0..] == schedule;
    } else {
      t := RunSplit(Next(s, schedule[0]).value, schedule[1..], k - 1, u);
      assert schedule[..k][1..] == schedule[1..][..k - 1] && schedule[k..] == schedule[1..][k - 1..];
    }
  }

  /** The step at which the Run entered the state it is in. */
  lemma {:induction false} Entered(schedule: seq<Action>, t: State, r: RunId) returns (k: nat, s: State)
    requires Run(INIT, schedule) == Some(t) && StatusOf(t.disk, r).Some? && !StatusOf(t.disk, r).value.state.Accepted?
    ensures k < |schedule| && Run(INIT, schedule[..k]) == Some(s) && StatusOf(s.disk, r).Some?
    ensures Moves(schedule[k], StatusOf(s.disk, r).value.state, StatusOf(t.disk, r).value.state)
    decreases |schedule|
  {
    hide Inv, Next, PhaseShown, Moves;
    if schedule == [] {
      assert false;
    } else {
      var n := |schedule| - 1;
      var before := RunSplit(INIT, schedule, n, t);
      assert schedule[n..] == [schedule[n]] && [schedule[n]][1..] == [];
      InitHolds();
      InitShows();
      ScheduleKeeps(INIT, schedule[..n], before);
      ScheduleShows(INIT, schedule[..n], before);
      StepMoves(before, schedule[n], t, r);
      if StatusOf(before.disk, r).None? {
        FirstStatus(before, schedule[n], t, r);
        assert false;
      }
      if StatusOf(before.disk, r).value.state == StatusOf(t.disk, r).value.state {
        k, s := Entered(schedule[..n], before, r);
        assert schedule[..n][..k] == schedule[..k];
      } else {
        k, s := n, before;
      }
    }
  }

  /** The first receipt of a Run says that it was accepted. */
  lemma FirstStatus(s: State, a: Action, t: State, r: RunId)
    requires Inv(s) && Next(s, a) == Some(t) && StatusOf(t.disk, r).Some? && StatusOf(s.disk, r).None?
    ensures StatusOf(t.disk, r).value.state.Accepted?
  {
    hide Inv, AcquireStep, StageStep, StartStep, SettleStep, CleanupStep, MaintenanceStep, ClientStep;
    hide LaunchStep, RunStep, CrashStep, DaemonStep;
    match ActorOf(a)
    case Acquirer => AcquireFirst(s, a, t, r);
    case Stager => StageFirst(s, a, t, r);
    case Starter => ClientFirst(s, a, t, r);
    case Settler => SettleFirst(s, a, t, r);
    case Cleaner => CleanupFirst(s, a, t, r);
    case Maintainer => ClientFirst(s, a, t, r);
    case AnyClient => ClientFirst(s, a, t, r);
    case _ => ExecutorFirst(s, a, t, r);
  }

  lemma AcquireFirst(s: State, a: Action, t: State, r: RunId)
    requires AcquireStep(s, a) == Some(t) && StatusOf(s.disk, r).None? && Inv(s)
    ensures StatusOf(t.disk, r).Some? ==> StatusOf(t.disk, r).value.state.Accepted?
  {
  }

  lemma StageFirst(s: State, a: Action, t: State, r: RunId)
    requires Inv(s) && StageStep(s, a) == Some(t) && StatusOf(s.disk, r).None?
    ensures StatusOf(t.disk, r).None?
  {
    if !a.StageReceipt? { StageUnwritten(s, a, t); }
  }

  lemma ClientFirst(s: State, a: Action, t: State, r: RunId)
    requires Inv(s) && StatusOf(s.disk, r).None?
    requires StartStep(s, a) == Some(t) || MaintenanceStep(s, a) == Some(t) || ClientStep(s, a) == Some(t)
    ensures StatusOf(t.disk, r).None?
  {
  }

  lemma SettleFirst(s: State, a: Action, t: State, r: RunId)
    requires Inv(s) && SettleStep(s, a) == Some(t) && StatusOf(s.disk, r).None?
    ensures StatusOf(t.disk, r).None?
  {
  }

  lemma CleanupFirst(s: State, a: Action, t: State, r: RunId)
    requires Inv(s) && CleanupStep(s, a) == Some(t) && StatusOf(s.disk, r).None?
    ensures StatusOf(t.disk, r).None?
  {
    hide RemoveRootStep, RemoveStagingStep;
    if s.client.step.RemoveRoot? || s.client.step.RemoveStaging? { DirectoryFirst(s, a, t, r); }
  }

  lemma DirectoryFirst(s: State, a: Action, t: State, r: RunId)
    requires s.client.Settling? && (RemoveRootStep(s, a) == Some(t) || RemoveStagingStep(s, a) == Some(t)) && StatusOf(s.disk, r).None?
    ensures StatusOf(t.disk, r).None?
  {
  }

  lemma ExecutorFirst(s: State, a: Action, t: State, r: RunId)
    requires Inv(s) && StatusOf(s.disk, r).None?
    requires LaunchStep(s, a) == Some(t) || RunStep(s, a) == Some(t) || CrashStep(s, a) == Some(t) || DaemonStep(s, a) == Some(t)
    ensures StatusOf(t.disk, r).None?
  {
  }

  /** The milestones of a Run that went well, in order. */
  predicate Milestones(schedule: seq<Action>, a: nat, b: nat, c: nat, d: nat, e: nat) {
    && a < b < c < d < e < |schedule|
    && schedule[a] == StartWriteReceipt && schedule[b] == PublishRunning(true)
    && schedule[c].Progress? && schedule[c].next == InScenario
    && schedule[d].Progress? && schedule[d].next == InCaptures && schedule[e] == CompleteRun
  }

  lemma EnteredCalling(schedule: seq<Action>, t: State, r: RunId) returns (c: nat, s: State)
    requires Run(INIT, schedule) == Some(t) && StatusOf(t.disk, r).Some?
    requires StatusOf(t.disk, r).value.state.Calling? || StatusOf(t.disk, r).value.state.Interacting?
    ensures c < |schedule| && Run(INIT, schedule[..c]) == Some(s) && schedule[c].Progress? && schedule[c].next == InScenario
    ensures StatusOf(s.disk, r).Some? && StatusOf(s.disk, r).value.state == Running
  {
    hide Inv, Next, PhaseShown;
    var k, before := Entered(schedule, t, r);
    if StatusOf(t.disk, r).value.state.Interacting? {
      c, s := Entered(schedule[..k], before, r);
      assert schedule[..k][..c] == schedule[..c];
    } else {
      c, s := k, before;
    }
  }

  /** A Run is complete only after it was started, its Session was published,
      its Scenario was called and its evidence collected, in this order. */
  lemma CompleteRunPassed(schedule: seq<Action>, t: State, r: RunId) returns (a: nat, b: nat, c: nat, d: nat, e: nat)
    requires Run(INIT, schedule) == Some(t) && StateOf(t.disk, r) == Some(Complete)
    ensures Milestones(schedule, a, b, c, d, e)
  {
    hide Inv, Next, PhaseShown, Run;
    var collecting, calling, running, starting, staged: State;
    e, collecting := Entered(schedule, t, r);
    d, calling := Entered(schedule[..e], collecting, r);
    assert schedule[..e][..d] == schedule[..d];
    c, running := EnteredCalling(schedule[..d], calling, r);
    assert schedule[..d][..c] == schedule[..c];
    b, starting := Entered(schedule[..c], running, r);
    assert schedule[..c][..b] == schedule[..b];
    a, staged := Entered(schedule[..b], starting, r);
  }
}
