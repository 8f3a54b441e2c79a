/**
 The receipts a client reads by polling. Under the discipline of the Runner,
 which stages a Run at most once, the receipt never goes backwards and its
 Session identity never changes, so every later observation is a valid
 transition from every earlier one.
 */
module HostPolling {
  import opened Options
  import opened HostState
  import opened HostProtocol
  import opened HostInvariants
  import opened HostTheorems

  predicate IsStaging(c: Client, r: RunId) {
    (c.StageMade? || c.StageTemporary? || c.StageFilling?) && c.claim.run == r
  }

  /** The Run's receipt still says what Acquire wrote. */
  predicate JustAccepted(d: Disk, r: RunId) {
    LockedBy(d, r) ==>
      && d.lock.value.session.None?
      && StatusOf(d, r).value.state.Accepted? && StatusOf(d, r).value.session.None?
  }

  /** Nothing was published under the Run's root yet. */
  predicate Unpublished(s: State, r: RunId) {
    r !in s.disk.roots && r !in s.sessions && JustAccepted(s.disk, r)
  }

  /** What is known after `stages` Stage calls for Run `r`. */
  predicate StageDiscipline(stages: nat, s: State, r: RunId) {
    && (stages == 0 ==>
          && Unpublished(s, r) && r !in s.disk.staging
          && !(s.client.StageAborting? && s.client.claim.run == r)
          && !(s.client.StagePublished? && s.client.claim.run == r))
    && (stages == 1 && IsStaging(s.client, r) ==> Unpublished(s, r))
    && (stages == 1 && s.client.StagePublished? && s.client.claim.run == r ==> JustAccepted(s.disk, r))
  }

  function Stages(schedule: seq<Action>, r: RunId): nat {
    if schedule == [] then 0
    else (if schedule[0].StageMake? && schedule[0].claim.run == r then 1 else 0) + Stages(schedule[1..], r)
  }

  lemma AcquireDiscipline(n: nat, s: State, a: Action, t: State, r: RunId)
    requires Inv(s) && AcquireStep(s, a) == Some(t) && StageDiscipline(n, s, r)
    ensures StageDiscipline(n, t, r)
  {
    assert Focus(s) && RunInv(s.disk, s.sessions, r);
  }

  lemma StageDisciplined(n: nat, s: State, a: Action, t: State, r: RunId)
    requires Inv(s) && StageStep(s, a) == Some(t) && StageDiscipline(n, s, r)
    ensures StageDiscipline(n + (if a.StageMake? && a.claim.run == r then 1 else 0), t, r)
  {
    assert Focus(s) && RunInv(s.disk, s.sessions, r);
  }

  lemma StartDiscipline(n: nat, s: State, a: Action, t: State, r: RunId)
    requires Inv(s) && StartStep(s, a) == Some(t) && StageDiscipline(n, s, r)
    ensures StageDiscipline(n, t, r)
  {
    assert Focus(s) && RunInv(s.disk, s.sessions, r);
  }

  lemma SettleWriteDiscipline(n: nat, s: State, a: Action, t: State, r: RunId)
    requires Inv(s) && a.SettleWrite? && SettleWriteStep(s) == Some(t) && StageDiscipline(n, s, r)
    ensures StageDiscipline(n, t, r)
  {
    assert Focus(s) && RunInv(s.disk, s.sessions, r);
  }

  lemma SettleAskDiscipline(n: nat, s: State, a: Action, t: State, r: RunId)
    requires Inv(s) && !a.SettleWrite? && SettleStep(s, a) == Some(t) && StageDiscipline(n, s, r)
    ensures StageDiscipline(n, t, r)
  {
    assert Focus(s) && RunInv(s.disk, s.sessions, r);
  }

  lemma SettleDiscipline(n: nat, s: State, a: Action, t: State, r: RunId)
    requires Inv(s) && SettleStep(s, a) == Some(t) && StageDiscipline(n, s, r)
    ensures StageDiscipline(n, t, r)
  {
    if a.SettleWrite? { SettleWriteDiscipline(n, s, a, t, r); } else { SettleAskDiscipline(n, s, a, t, r); }
  }

  lemma RemovalDiscipline(n: nat, s: State, a: Action, t: State, r: RunId)
    requires Inv(s) && s.client.Settling? && (s.client.step.RemoveRoot? || s.client.step.RemoveStaging?)
    requires CleanupStep(s, a) == Some(t) && StageDiscipline(n, s, r)
    ensures StageDiscipline(n, t, r)
  {
    assert Focus(s) && RunInv(s.disk, s.sessions, r);
  }

  lemma ReleaseDiscipline(n: nat, s: State, a: Action, t: State, r: RunId)
    requires Inv(s) && s.client.Settling? && (s.client.step.Release? || s.client.step.Finish?)
    requires CleanupStep(s, a) == Some(t) && StageDiscipline(n, s, r)
    ensures StageDiscipline(n, t, r)
  {
    assert Focus(s) && RunInv(s.disk, s.sessions, r);
  }

  lemma CleanupDiscipline(n: nat, s: State, a: Action, t: State, r: RunId)
    requires Inv(s)
    requires CleanupStep(s, a) == Some(t) && StageDiscipline(n, s, r)
    ensures StageDiscipline(n, t, r)
  {
    if s.client.step.RemoveRoot? || s.client.step.RemoveStaging? {
      RemovalDiscipline(n, s, a, t, r);
    } else {
      ReleaseDiscipline(n, s, a, t, r);
    }
  }

  lemma OtherClientDiscipline(n: nat, s: State, a: Action, t: State, r: RunId)
    requires Inv(s) && (MaintenanceStep(s, a) == Some(t) || ClientStep(s, a) == Some(t)) && StageDiscipline(n, s, r)
    ensures StageDiscipline(n, t, r)
  {
    assert Focus(s) && RunInv(s.disk, s.sessions, r);
  }

  lemma LaunchDiscipline(n: nat, s: State, a: Action, t: State, r: RunId)
    requires Inv(s) && LaunchStep(s, a) == Some(t) && StageDiscipline(n, s, r)
    ensures StageDiscipline(n, t, r)
  {
    hide ClientInv, SettleInv, Handshake, LockInv;
    assert Focus(s) && RunInv(s.disk, s.sessions, r);
  }

  lemma RunDiscipline(n: nat, s: State, a: Action, t: State, r: RunId)
    requires Inv(s) && (RunStep(s, a) == Some(t) || CrashStep(s, a) == Some(t)) && StageDiscipline(n, s, r)
    ensures StageDiscipline(n, t, r)
  {
    assert Focus(s) && RunInv(s.disk, s.sessions, r);
  }

  lemma DaemonDiscipline(n: nat, s: State, a: Action, t: State, r: RunId)
    requires Inv(s) && DaemonStep(s, a) == Some(t) && StageDiscipline(n, s, r)
    ensures StageDiscipline(n, t, r)
  {
    assert Focus(s) && RunInv(s.disk, s.sessions, r);
  }

  lemma NextDiscipline(n: nat, s: State, a: Action, t: State, r: RunId)
    requires Inv(s) && Next(s, a) == Some(t) && StageDiscipline(n, s, r)
    ensures StageDiscipline(n + Stages([a], r), t, r)
  {
    assert Stages([a], r) == (if a.StageMake? && a.claim.run == r then 1 else 0);
    match ActorOf(a)
    case Acquirer => AcquireDiscipline(n, s, a, t, r);
    case Stager => StageDisciplined(n, s, a, t, r);
    case Starter => StartDiscipline(n, s, a, t, r);
    case Settler => SettleDiscipline(n, s, a, t, r);
    case Cleaner => CleanupDiscipline(n, s, a, t, r);
    case Maintainer => OtherClientDiscipline(n, s, a, t, r);
    case AnyClient => OtherClientDiscipline(n, s, a, t, r);
    case Launcher => LaunchDiscipline(n, s, a, t, r);
    case Runner => RunDiscipline(n, s, a, t, r);
    case Crash => RunDiscipline(n, s, a, t, r);
    case Daemon => DaemonDiscipline(n, s, a, t, r);
  }

  /** Discipline and receipt order over the rest of a schedule. */
  lemma {:induction false} ReceiptsAdvance(n: nat, s: State, schedule: seq<Action>, t: State, r: RunId)
    requires Inv(s) && Run(s, schedule) == Some(t) && StageDiscipline(n, s, r)
    requires n + Stages(schedule, r) <= 1
    ensures StatusOf(s.disk, r).Some? ==>
              StatusOf(t.disk, r).Some? && Follows(StatusOf(s.disk, r).value, StatusOf(t.disk, r).value)
    ensures StageDiscipline(n + Stages(schedule, r), t, r)
    decreases |schedule|
  {
    if schedule != [] {
      var a, next := schedule[0], Next(s, schedule[0]).value;
      NextKeeps(s, a, next);
      NextOnward(s, a, next, r);
      NextDiscipline(n, s, a, next, r);
      assert Stages([a], r) + Stages(schedule[1..], r) == Stages(schedule, r);
      ReceiptsAdvance(n + Stages([a], r), next, schedule[1..], t, r);
      assert Focus(s);
    }
  }

  /** A client that polls at any two moments of any schedule that stages the
      Run at most once accepts the second receipt after the first: same claim,
      no lower rank, same pinned Session, and a valid transition unless the
      first one already ended the Run. */
  lemma PollingAccepts(before: seq<Action>, between: seq<Action>, s: State, t: State, r: RunId)
    requires Run(INIT, before) == Some(s) && Run(s, between) == Some(t)
    requires Stages(before, r) + Stages(between, r) <= 1
    requires StatusOf(s.disk, r).Some?
    ensures StatusOf(t.disk, r).Some?
    ensures Follows(StatusOf(s.disk, r).value, StatusOf(t.disk, r).value)
    ensures !Terminal(StatusOf(s.disk, r).value.state)
      ==> ValidTransition(StatusOf(s.disk, r).value.state, StatusOf(t.disk, r).value.state)
  {
    InitHolds();
    ScheduleKeeps(INIT, before, s);
    ReceiptsAdvance(0, INIT, before, s, r);
    ReceiptsAdvance(Stages(before, r), s, between, t, r);
  }
}
