/**
 What setup maintenance finds on the host: the inspection that lets it begin
 holds for as long as it runs, whatever executor and daemon do meanwhile.
 */
module HostMaintenance {
  import opened Options
  import opened HostState
  import opened HostProtocol
  import opened HostInvariants

  /** Nothing of any Run is left to do or to lose. */
  predicate Cleared(d: Disk) {
    && d.lock.None? && d.pending.None? && d.roots == map[] && d.staging == map[]
    && forall r | r in d.receipts ::
         && (d.receipts[r].state == Complete || d.receipts[r].state == Failed || d.receipts[r].state == TimedOut || d.receipts[r].state == CleanupFailed)
         && d.receipts[r].cleanup == Cleanup(true, true, true, true)
  }

  predicate MaintainsCleared(s: State) { s.client.Maintaining? ==> Cleared(s.disk) }

  lemma OperationsWait(s: State, a: Action)
    requires s.client.Maintaining?
    ensures AcquireStep(s, a).None? && StageStep(s, a).None? && StartStep(s, a).None? && SettleStep(s, a).None? && CleanupStep(s, a).None?
  {
  }

  lemma LaunchesWait(s: State, a: Action, t: State)
    requires Inv(s) && s.client.Maintaining? && LaunchStep(s, a) == Some(t)
    ensures t.disk == s.disk && t.client == s.client
  {
  }

  lemma ExecutorWaits(s: State, a: Action, t: State)
    requires Inv(s) && s.client.Maintaining? && Cleared(s.disk)
    requires RunStep(s, a) == Some(t) || CrashStep(s, a) == Some(t) || DaemonStep(s, a) == Some(t) || ClientStep(s, a) == Some(t)
    ensures t.client.Maintaining? ==> t.disk == s.disk
  {
  }

  lemma MaintenanceClears(s: State, a: Action, t: State)
    requires Inv(s) && MaintainsCleared(s) && MaintenanceStep(s, a) == Some(t)
    ensures MaintainsCleared(t)
  {
  }

  lemma ClearedStays(s: State, a: Action, t: State)
    requires Inv(s) && MaintainsCleared(s) && Next(s, a) == Some(t)
    ensures MaintainsCleared(t)
  {
    hide Inv, Cleared, AcquireStep, StageStep, StartStep, SettleStep, CleanupStep, MaintenanceStep, LaunchStep;
    if ActorOf(a).Maintainer? {
      MaintenanceClears(s, a, t);
    } else if s.client.Maintaining? {
      match ActorOf(a)
      case Launcher => LaunchesWait(s, a, t);
      case Runner => ExecutorWaits(s, a, t);
      case Crash => ExecutorWaits(s, a, t);
      case Daemon => ExecutorWaits(s, a, t);
      case AnyClient => ExecutorWaits(s, a, t);
      case _ => OperationsWait(s, a);
    } else {
      MaintenanceNotBegun(s, a, t);
    }
  }

  lemma MaintenanceNotBegun(s: State, a: Action, t: State)
    requires Next(s, a) == Some(t) && !ActorOf(a).Maintainer? && !s.client.Maintaining?
    ensures !t.client.Maintaining?
  {
    hide AcquireStep, StageStep, StartStep, SettleStep, CleanupStep, ClientStep, LaunchStep, RunStep, CrashStep, DaemonStep;
    match ActorOf(a)
    case Acquirer => OpensOther(s, a, t);
    case Stager => OpensOther(s, a, t);
    case Starter => OpensOther(s, a, t);
    case Settler => SettlesOther(s, a, t);
    case Cleaner => CleansOther(s, a, t);
    case _ => ExecutesOther(s, a, t);
  }

  lemma OpensOther(s: State, a: Action, t: State)
    requires !s.client.Maintaining? && (AcquireStep(s, a) == Some(t) || StageStep(s, a) == Some(t) || StartStep(s, a) == Some(t))
    ensures !t.client.Maintaining?
  {
  }

  lemma SettlesOther(s: State, a: Action, t: State)
    requires !s.client.Maintaining? && SettleStep(s, a) == Some(t)
    ensures !t.client.Maintaining?
  {
  }

  lemma CleansOther(s: State, a: Action, t: State)
    requires !s.client.Maintaining? && CleanupStep(s, a) == Some(t)
    ensures !t.client.Maintaining?
  {
    hide Removal;
  }

  lemma ExecutesOther(s: State, a: Action, t: State)
    requires !s.client.Maintaining?
    requires LaunchStep(s, a) == Some(t) || RunStep(s, a) == Some(t) || CrashStep(s, a) == Some(t) || DaemonStep(s, a) == Some(t)
             || ClientStep(s, a) == Some(t)
    ensures !t.client.Maintaining?
  {
  }

  /** While setup maintenance runs, every Run there ever was has ended and is
      cleaned up in every respect, and no root, staging directory, pending
      request or Host Lock is left. */
  lemma MaintenanceFindsNothing(schedule: seq<Action>, t: State)
    requires Run(INIT, schedule) == Some(t) && t.client.Maintaining?
    ensures Cleared(t.disk)
  {
    InitHolds();
    ClearedThroughout(INIT, schedule, t);
  }

  lemma {:induction false} ClearedThroughout(s: State, schedule: seq<Action>, t: State)
    requires Inv(s) && MaintainsCleared(s) && Run(s, schedule) == Some(t)
    ensures MaintainsCleared(t)
    decreases |schedule|
  {
    hide Inv, Next, MaintainsCleared;
    if schedule != [] {
      var next := Next(s, schedule[0]).value;
      NextKeeps(s, schedule[0], next);
      ClearedStays(s, schedule[0], next);
      ClearedThroughout(next, schedule[1..], t);
    }
  }
}
