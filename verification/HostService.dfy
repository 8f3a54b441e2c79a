/**
 Settle as the host runs it: one method that replaces files in place. Every
 write is checked to be a step of the protocol, so each state a crash can leave
 behind is a protocol state; and with a daemon that answers, Settle finishes
 exactly from the states in `Settleable`.
 */
module HostService {
  import opened Options
  import opened HostState
  import opened HostProtocol
  import opened HostInvariants

  // ----- when Settle can finish -----

  /** The lock names a Session that the receipt does not, and the Run is past
      `Starting`, the one state in which Settle repairs that. */
  predicate SplitIdentity(d: Disk, claim: Claim) {
    && d.lock.Some? && d.lock.value.session.Some?
    && StatusOf(d, claim.run).Some?
    && StatusOf(d, claim.run).value.session.None? && !StatusOf(d, claim.run).value.state.Starting?
  }

  /** A staging directory that lost, or never got, its ownership record while
      it still holds something. */
  predicate OrphanedStaging(d: Disk, claim: Claim) {
    claim.run in d.staging && d.staging[claim.run].ownership.None? && d.staging[claim.run].entries != {}
  }

  /** The receipt reports a finished cleanup and a terminal state. */
  predicate Settled(d: Disk, claim: Claim) {
    && claim.run in d.receipts && d.receipts[claim.run].claim == claim
    && d.receipts[claim.run].cleanup == ALL_CLEAN && Terminal(d.receipts[claim.run].state)
  }

  /** How a settled Run ends, by the receipt Settle found: an end it had reached
      stands, except that a Session nobody published makes it a failed cleanup;
      a Run that had not ended failed. */
  predicate Ends(before: Receipt, after: Receipt) {
    && after.claim == before.claim && (before.session.Some? ==> after.session == before.session)
    && match before.state
       case Complete => after.state.Complete? || (after.state.CleanupFailed? && Adopted(before, after))
       case Failed => after.state.Failed? || (after.state.CleanupFailed? && Adopted(before, after))
       case TimedOut => after.state.TimedOut? || (after.state.CleanupFailed? && Adopted(before, after))
       case CleanupFailed => after.state.CleanupFailed?
       case _ => after.state.Failed? || (after.state.CleanupFailed? && Adopted(before, after))
  }

  /** Stopping a Run keeps its state and Session, or adopts a Session. */
  predicate StoppedAs(start: Receipt, stopped: Receipt) {
    || (stopped.state == start.state && stopped.session == start.session)
    || (start.session.None? && stopped.session.Some? && stopped.state.CleanupFailed?)
  }

  /** The Session was found by asking the daemon. */
  predicate Adopted(before: Receipt, after: Receipt) { before.session.None? && after.session.Some? }

  /** Of every other Run nothing changes, nor does the setup fence; the pending
      request and the lock at most go, or the lock gets a Session. */
  predicate OthersKept(before: Disk, after: Disk, r: RunId) {
    && after.receipts - {r} == before.receipts - {r} && after.roots - {r} == before.roots - {r}
    && after.staging - {r} == before.staging - {r} && after.setup == before.setup
    && (after.pending.Some? ==> after.pending == before.pending)
    && (after.lock.Some? ==> before.lock.Some? && after.lock.value.claim == before.lock.value.claim)
    && (before.lock.Some? && before.lock.value.claim.run != r ==> after.lock == before.lock && after.pending == before.pending)
  }

  /** The Session Settle will act on, before it asks the daemon. */
  function SessionToSettle(d: Disk, claim: Claim): Option<SessionId>
    requires LockedFor(d, claim) && StatusOf(d, claim.run).Some?
  {
    Opened(StatusOf(d, claim.run).value, d.lock.value).session
  }

  /** Exactly the states from which a Settle of `claim` can finish. */
  predicate Settleable(d: Disk, claim: Claim, asked: Option<SessionId>) {
    && StatusOf(d, claim.run).Some? && StatusOf(d, claim.run).value.claim == claim
    && (LockedFor(d, claim) ==>
          && !SplitIdentity(d, claim)
          && !OrphanedStaging(d, claim)
          && (asked.Some? ==> asked == SessionToSettle(d, claim)))
  }

  lemma {:induction false} RunAppend(s: State, schedule: seq<Action>, t: State, a: Action, u: State)
    requires Run(s, schedule) == Some(t) && Next(t, a) == Some(u)
    ensures Run(s, schedule + [a]) == Some(u)
    decreases |schedule|
  {
    if schedule == [] {
      assert schedule + [a] == [a];
      assert Run(u, [a][1..]) == Some(u);
    } else {
      RunAppend(Next(s, schedule[0]).value, schedule[1..], t, a, u);
      assert (schedule + [a])[1..] == schedule[1..] + [a];
    }
  }

  /** How the daemon behaves during one Settle: whether it answers identity
      questions, and whether it confirms stops. */
  datatype Environment = Environment(answers: bool, confirms: bool)
  {
    predicate Calm() { answers && confirms }
  }

  // ----- what the invariant tells Settle -----

  lemma OpenFacts(s: State, claim: Claim)
    requires Inv(s) && LockedFor(s.disk, claim) && StatusOf(s.disk, claim.run).Some?
    ensures StatusOf(s.disk, claim.run).value.session.Some? && s.disk.lock.value.session.Some? ==>
              StatusOf(s.disk, claim.run).value.session == s.disk.lock.value.session
  {
    assert RunInv(s.disk, s.sessions, claim.run);
  }

  lemma StaleFacts(s: State, w: Work)
    requires Inv(s) && s.client == Settling(RecoverStale, w)
    ensures w.stored.session.Some? && w.stored.state.CleanupFailed? && w.stored.rollback
    ensures w.stored.claim.run in s.sessions && w.stored.session == Some(s.sessions[w.stored.claim.run].id)
  {
    assert RunInv(s.disk, s.sessions, w.stored.claim.run);
  }

  lemma StopFacts(s: State, w: Work)
    requires Inv(s) && s.client == Settling(StopSession, w)
    ensures w.stored.session.Some? && MayConfirm(s, w.stored.claim.run, w.stored.session.value)
  {
    assert RunInv(s.disk, s.sessions, w.stored.claim.run);
  }

  lemma DirFacts(s: State, w: Work)
    requires Inv(s) && s.client.Settling? && s.client.work == w && !s.client.step.Finish?
    ensures w.stored.claim.run in s.disk.roots ==>
              s.disk.roots[w.stored.claim.run].ownership == Some(w.stored.claim) || s.disk.roots[w.stored.claim.run] == EMPTY_DIR
    ensures w.stored.claim.run in s.disk.staging && s.disk.staging[w.stored.claim.run].ownership.Some? ==>
              s.disk.staging[w.stored.claim.run].ownership == Some(w.stored.claim)
  {
    assert RunInv(s.disk, s.sessions, w.stored.claim.run);
  }

  lemma ReleasedFacts(s: State, claim: Claim)
    requires Inv(s) && StatusOf(s.disk, claim.run).Some? && StatusOf(s.disk, claim.run).value.claim == claim
    requires !LockedFor(s.disk, claim)
    ensures claim.run in s.disk.receipts && ReleasedEarlier(s, s.disk.receipts[claim.run])
    ensures claim.run !in s.disk.staging
  {
    assert RunInv(s.disk, s.sessions, claim.run);
  }

  lemma HeldFacts(s: State)
    requires Inv(s) && s.client.Settling? && !s.client.step.Finish?
    ensures s.disk.lock == Some(s.client.work.lock) && s.client.work.lock.claim == s.client.work.stored.claim
  {
  }

  lemma KeptTwice(a: Disk, b: Disk, c: Disk, r: RunId)
    requires OthersKept(a, b, r) && OthersKept(b, c, r) && (b.lock.Some? && b.lock.value.claim.run == r)
    ensures OthersKept(a, c, r)
  {
  }

  lemma EndsAdopted(before: Receipt, lock: Lock, stopped: Receipt, after: Receipt)
    requires StoppedAs(Opened(before, lock), stopped)
    requires stopped.claim == before.claim && Ends(stopped, after) && after.session == stopped.session
    ensures Ends(before, after)
  {
  }

  lemma LockFacts(s: State, w: Work)
    requires Inv(s) && s.client == Settling(Release, w)
    ensures s.disk.lock == Some(Lock(w.stored.claim, w.stored.session))
  {
  }

  class Service {
    var disk: Disk
    var sessions: map<RunId, Session>
    var exec: Exec
    // Where the operation stands, the state it began in, and its steps so far.
    ghost var client: Client
    ghost var origin: State
    ghost var log: seq<Action>

    ghost function Now(): State
      reads this
    {
      State(disk, sessions, client, exec)
    }

    /** The current state is reached from `origin` by the logged steps. */
    ghost predicate Tracks()
      reads this
    {
      Inv(origin) && Run(origin, log) == Some(Now())
    }

    constructor (s: State)
      requires Inv(s)
      ensures Tracks() && Now() == s && origin == s && log == []
    {
      disk, sessions, exec, client := s.disk, s.sessions, s.exec, s.client;
      origin, log := s, [];
      new;
      assert Now() == s;
    }

    /** Record that the last write was the protocol step `a`. */
    ghost method Commit(before: State, a: Action)
      requires Inv(origin) && Run(origin, log) == Some(before) && Next(before, a) == Some(Now())
      modifies this`log
      ensures Tracks()
      ensures log == old(log) + [a]
    {
      hide Inv, Next, Run;
      RunAppend(origin, log, before, a, Now());
      log := log + [a];
    }

    /** What the daemon knows of the Session name of this Run. */
    method AskDaemon(r: RunId, env: Environment) returns (answer: Recovered)
      ensures MayAnswer(Now(), r, answer)
      ensures env.answers ==> !answer.Unanswered?
    {
      if !HasRequest(disk, r) {
        return NotFound;
      }
      if !env.answers {
        return Unanswered;
      }
      if r in sessions && DaemonDir in disk.roots[r].entries {
        // A stopped Session may or may not still be reported.
        if !sessions[r].stopped {
          return Found(sessions[r].id);
        } else if * {
          return Found(sessions[r].id);
        }
      }
      return NotFound;
    }

    // ----- the released Run -----

    /** `recoverReleasedCleanup`: publish the final receipt of a Run whose lock
        is already gone. */
    method PublishReleased(claim: Claim)
      requires Tracks() && OperationFree(Now())
      requires claim.run in disk.receipts && disk.receipts[claim.run].claim == claim
      requires ReleasedEarlier(Now(), disk.receipts[claim.run])
      modifies this`disk, this`client, this`log
      ensures Tracks() && old(log) <= log
      ensures client == if disk.lock.Some? then Idle else ClearPending
      ensures disk == old(disk).(receipts := old(disk).receipts[claim.run := Terminalized(old(disk).receipts[claim.run].(cleanup := ALL_CLEAN))])
    {
      hide Inv, Run;
      ghost var s := Now();
      disk := disk.(receipts := disk.receipts[claim.run := Terminalized(disk.receipts[claim.run].(cleanup := ALL_CLEAN))]);
      client := if disk.lock.Some? then Idle else ClearPending;
      Commit(s, SettleReplay(claim));
    }

    method ForgetPending()
      requires Tracks() && client.ClearPending?
      modifies this`disk, this`client, this`log
      ensures Tracks() && old(log) <= log && client.Idle? && disk == old(disk).(pending := None)
    {
      hide Inv, Run;
      ghost var s := Now();
      disk := disk.(pending := None);
      client := Idle;
      Commit(s, Action.RemovePending);
    }

    // ----- authority -----

    /** Open the Run under its lock. The operation is over when an authority
        check already fails. */
    method Open(claim: Claim, asked: Option<SessionId>) returns (w: Work)
      requires Tracks() && OperationFree(Now())
      requires LockedFor(disk, claim) && StatusOf(disk, claim.run).Some? && StatusOf(disk, claim.run).value.claim == claim
      modifies this`client, this`log
      ensures Tracks() && old(log) <= log && client == Entered(w)
      ensures w == Work(Opened(StatusOf(disk, claim.run).value, disk.lock.value), disk.lock.value, asked)
    {
      hide Inv, Run;
      ghost var s := Now();
      w := Work(Opened(StatusOf(disk, claim.run).value, disk.lock.value), disk.lock.value, asked);
      client := Entered(w);
      Commit(s, SettleBegin(claim, asked));
    }

    /** The receipt names a Session and the lock does not: ask the daemon. */
    method AskStale(w: Work, env: Environment) returns (found: Recovered)
      requires Tracks() && client == Settling(RecoverStale, w)
      modifies this`client, this`log
      ensures Tracks() && old(log) <= log
      ensures match found
              case Unanswered => client == old(client)
              case Found(id) => w.stored.session == Some(id) && client == Settling(WriteStale(id), w)
              case NotFound => w.stored.session.Some? && client == Settling(ProbeStale, w)
      ensures env.answers ==> !found.Unanswered?
    {
      hide Inv, Run;
      var answer := AskDaemon(w.stored.claim.run, env);
      ScheduleKeeps(origin, log, Now());
      StaleFacts(Now(), w);
      if answer.Unanswered? || (answer.Found? && w.stored.session != Some(answer.id))
         || (answer.NotFound? && !(w.stored.state.CleanupFailed? && w.stored.rollback)) {
        return Unanswered;
      }
      ghost var s := Now();
      client := Settling(if answer.Found? then WriteStale(answer.id) else ProbeStale, w);
      found := answer;
      Commit(s, SettleRecover(answer));
    }

    /** `tryAcquireLaunch`: go on only when nobody holds the launch lock. */
    method ProbeLaunch(w: Work) returns (free: bool)
      requires Tracks() && (client == Settling(Probe, w) || (client == Settling(ProbeStale, w) && w.stored.session.Some?))
      modifies this`client, this`log
      ensures Tracks() && old(log) <= log
      ensures free <==> !ExecHoldsLaunch(exec)
      ensures free ==> client == Settling(if old(client).step.Probe? then WriteStopped else WriteStale(w.stored.session.value), w)
      ensures !free ==> client == old(client)
    {
      hide Inv, Run;
      free := !ExecHoldsLaunch(exec);
      if free {
        ghost var s := Now();
        client := Settling(if client.step.Probe? then WriteStopped else WriteStale(w.stored.session.value), w);
        Commit(s, SettleProbe);
      }
    }

    method WriteStaleLock(w: Work) returns (lock: Lock)
      requires Tracks() && w.stored.session.Some? && client == Settling(WriteStale(w.stored.session.value), w)
      modifies this`disk, this`client, this`log
      ensures Tracks() && old(log) <= log
      ensures lock == Lock(w.lock.claim, w.stored.session) && client == Checked(w.(lock := lock))
      ensures disk == old(disk).(lock := Some(lock))
    {
      hide Inv, Run;
      ghost var s := Now();
      lock := Lock(w.lock.claim, w.stored.session);
      disk := disk.(lock := Some(lock));
      client := Checked(w.(lock := lock));
      Commit(s, SettleWrite);
    }

    // ----- the Session -----

    /** No record names a Session: ask the daemon for one that was started but
        not published. */
    method AskSession(w: Work, env: Environment) returns (found: Recovered)
      requires Tracks() && client == Settling(Step.Recover, w)
      modifies this`client, this`log
      ensures Tracks() && old(log) <= log
      ensures match found
              case Unanswered => client == old(client)
              case Found(id) => client == Settling(Step.WriteLock(id), w)
              case NotFound => client == Settling(if w.stored.state.Starting? then Probe else WriteStopped, w)
      ensures env.answers ==> !found.Unanswered?
    {
      hide Inv, Run;
      found := AskDaemon(w.stored.claim.run, env);
      if !found.Unanswered? {
        ghost var s := Now();
        client := Settling(if found.Found? then Step.WriteLock(found.id) else if w.stored.state.Starting? then Probe else WriteStopped, w);
        Commit(s, SettleRecover(found));
      }
    }

    method WriteRecoveredLock(w: Work, id: SessionId) returns (w': Work)
      requires Tracks() && client == Settling(Step.WriteLock(id), w)
      modifies this`disk, this`client, this`log
      ensures Tracks() && old(log) <= log
      ensures w' == w.(lock := Lock(w.lock.claim, Some(id))) && client == Settling(WriteRecovered, w')
      ensures disk == old(disk).(lock := Some(w'.lock))
    {
      hide Inv, Run;
      ghost var s := Now();
      w' := w.(lock := Lock(w.lock.claim, Some(id)));
      disk := disk.(lock := Some(w'.lock));
      client := Settling(WriteRecovered, w');
      Commit(s, SettleWrite);
    }

    method WriteRecoveredReceipt(w: Work) returns (w': Work)
      requires Tracks() && client == Settling(WriteRecovered, w)
      modifies this`disk, this`client, this`log
      ensures Tracks() && old(log) <= log
      ensures w' == w.(stored := w.stored.(session := w.lock.session, state := CleanupFailed, rollback := false))
      ensures client == Settling(Step.StopSession, w')
      ensures disk == old(disk).(receipts := old(disk).receipts[w.stored.claim.run := w'.stored])
    {
      hide Inv, Run;
      ghost var s := Now();
      w' := w.(stored := w.stored.(session := w.lock.session, state := CleanupFailed, rollback := false));
      disk := disk.(receipts := disk.receipts[w.stored.claim.run := w'.stored]);
      client := Settling(Step.StopSession, w');
      Commit(s, SettleWrite);
    }

    method StopSession(w: Work, env: Environment) returns (stopped: bool)
      requires Tracks() && client == Settling(Step.StopSession, w)
      modifies this`sessions, this`client, this`log
      ensures Tracks() && old(log) <= log
      ensures stopped <==> env.confirms
      ensures stopped ==> client == Settling(WriteStopped, w)
      ensures !stopped ==> client.Idle?
    {
      hide Inv, Run;
      ScheduleKeeps(origin, log, Now());
      StopFacts(Now(), w);
      ghost var s := Now();
      var r, id := w.stored.claim.run, w.stored.session.value;
      stopped := env.confirms;
      // An unconfirmed stop may have taken effect all the same.
      var effective: bool := *;
      effective := effective || stopped;
      if effective && r in sessions && sessions[r].id == id {
        sessions := sessions[r := Session(id, true, false)];
      }
      client := if stopped then Settling(WriteStopped, w) else Idle;
      Commit(s, SettleStop(stopped, effective));
    }

    method WriteStoppedReceipt(w: Work) returns (w': Work)
      requires Tracks() && client == Settling(WriteStopped, w)
      modifies this`disk, this`client, this`log
      ensures Tracks() && old(log) <= log
      ensures w' == w.(stored := w.stored.(cleanup := w.stored.cleanup.(stopped := true)))
      ensures client == Settling(Step.RemoveRoot, w')
      ensures disk == old(disk).(receipts := old(disk).receipts[w.stored.claim.run := w'.stored])
    {
      hide Inv, Run;
      ghost var s := Now();
      w' := w.(stored := w.stored.(cleanup := w.stored.cleanup.(stopped := true)));
      disk := disk.(receipts := disk.receipts[w.stored.claim.run := w'.stored]);
      client := Settling(Step.RemoveRoot, w');
      Commit(s, SettleWrite);
    }

    // ----- directories -----

    method ShrinkRoot(w: Work, left: Option<Dir>, ghost a: Action)
      requires Tracks() && client == Settling(Step.RemoveRoot, w)
      requires w.stored.claim.run in disk.roots && ActorOf(a).Cleaner?
      requires Removal(disk.roots[w.stored.claim.run], w.stored.claim, a) == Some(left)
      modifies this`disk, this`log
      ensures Tracks() && old(log) <= log
      ensures disk == old(disk).(roots := Put(old(disk).roots, w.stored.claim.run, left))
    {
      hide Inv, Run;
      ghost var s := Now();
      disk := disk.(roots := Put(disk.roots, w.stored.claim.run, left));
      Commit(s, a);
    }

    method ShrinkStaging(w: Work, left: Option<Dir>, ghost a: Action)
      requires Tracks() && client == Settling(Step.RemoveStaging, w)
      requires w.stored.claim.run in disk.staging && ActorOf(a).Cleaner?
      requires Removal(disk.staging[w.stored.claim.run], w.stored.claim, a) == Some(left)
      modifies this`disk, this`log
      ensures Tracks() && old(log) <= log
      ensures disk == old(disk).(staging := Put(old(disk).staging, w.stored.claim.run, left))
    {
      hide Inv, Run;
      ghost var s := Now();
      disk := disk.(staging := Put(disk.staging, w.stored.claim.run, left));
      Commit(s, a);
    }

    method LeaveRoot(w: Work)
      requires Tracks() && client == Settling(Step.RemoveRoot, w) && w.stored.claim.run !in disk.roots
      modifies this`client, this`log
      ensures Tracks() && old(log) <= log && client == Settling(Step.RemoveStaging, w)
    {
      hide Inv, Run;
      ghost var s := Now();
      client := Settling(Step.RemoveStaging, w);
      Commit(s, DirGone);
    }

    method LeaveStaging(w: Work) returns (w': Work)
      requires Tracks() && client == Settling(Step.RemoveStaging, w) && w.stored.claim.run !in disk.staging
      modifies this`client, this`log
      ensures Tracks() && old(log) <= log && client == Settling(Release, w')
      ensures w' == w.(stored := w.stored.(cleanup := w.stored.cleanup.(payload := true, root := true)))
    {
      hide Inv, Run;
      ghost var s := Now();
      w' := w.(stored := w.stored.(cleanup := w.stored.cleanup.(payload := true, root := true)));
      client := Settling(Release, w');
      Commit(s, DirGone);
    }

    method EmptyRoot(w: Work)
      requires Tracks() && client == Settling(Step.RemoveRoot, w)
      requires w.stored.claim.run in disk.roots && disk.roots[w.stored.claim.run].ownership == Some(w.stored.claim)
      modifies this`disk, this`log
      ensures Tracks() && old(log) <= log && disk == old(disk).(roots := disk.roots)
      ensures disk.roots - {w.stored.claim.run} == old(disk).roots - {w.stored.claim.run}
      ensures w.stored.claim.run in disk.roots && disk.roots[w.stored.claim.run] == EMPTY_DIR
    {
      hide Inv, Next, Run;
      var claim := w.stored.claim;
      var entries := disk.roots[claim.run].entries;
      while entries != {}
        invariant Tracks() && old(log) <= log && disk == old(disk).(roots := disk.roots)
        invariant disk.roots - {claim.run} == old(disk).roots - {claim.run}
        invariant claim.run in disk.roots && disk.roots[claim.run] == Dir(Some(claim), entries)
        decreases entries
      {
        var entry :| entry in entries;
        entries := entries - {entry};
        ShrinkRoot(w, Some(Dir(Some(claim), entries)), UnlinkEntry(entry));
      }
      ShrinkRoot(w, Some(EMPTY_DIR), Disown);
    }

    method EmptyStaging(w: Work)
      requires Tracks() && client == Settling(Step.RemoveStaging, w)
      requires w.stored.claim.run in disk.staging && disk.staging[w.stored.claim.run].ownership == Some(w.stored.claim)
      modifies this`disk, this`log
      ensures Tracks() && old(log) <= log && disk == old(disk).(staging := disk.staging)
      ensures disk.staging - {w.stored.claim.run} == old(disk).staging - {w.stored.claim.run}
      ensures w.stored.claim.run in disk.staging && disk.staging[w.stored.claim.run] == EMPTY_DIR
    {
      hide Inv, Next, Run;
      var claim := w.stored.claim;
      var entries := disk.staging[claim.run].entries;
      while entries != {}
        invariant Tracks() && old(log) <= log && disk == old(disk).(staging := disk.staging)
        invariant disk.staging - {claim.run} == old(disk).staging - {claim.run}
        invariant claim.run in disk.staging && disk.staging[claim.run] == Dir(Some(claim), entries)
        decreases entries
      {
        var entry :| entry in entries;
        entries := entries - {entry};
        ShrinkStaging(w, Some(Dir(Some(claim), entries)), UnlinkEntry(entry));
      }
      ShrinkStaging(w, Some(EMPTY_DIR), Disown);
    }

    /** Remove the Run root, its ownership record last: a crash leaves it owned,
        empty or gone. */
    method RemoveRoot(w: Work)
      requires Tracks() && client == Settling(Step.RemoveRoot, w)
      modifies this`disk, this`client, this`log
      ensures Tracks() && old(log) <= log && client == Settling(Step.RemoveStaging, w)
      ensures w.stored.claim.run !in disk.roots && disk == old(disk).(roots := disk.roots)
      ensures disk.roots - {w.stored.claim.run} == old(disk).roots - {w.stored.claim.run}
    {
      hide Inv, Next, Run;
      var claim := w.stored.claim;
      ScheduleKeeps(origin, log, Now());
      DirFacts(Now(), w);
      if claim.run in disk.roots {
        if disk.roots[claim.run].ownership.Some? { EmptyRoot(w); }
        ShrinkRoot(w, None, RemoveDir);
      }
      LeaveRoot(w);
    }

    /** `removeInterruptedStaging`: as for the Run root, but a directory that
        holds something without an ownership record is refused. */
    method RemoveStaging(w: Work) returns (ok: bool)
      requires Tracks() && client == Settling(Step.RemoveStaging, w)
      modifies this`disk, this`log
      ensures Tracks() && old(log) <= log && disk == old(disk).(staging := disk.staging)
      ensures disk.staging - {w.stored.claim.run} == old(disk).staging - {w.stored.claim.run}
      ensures ok <==> !OrphanedStaging(old(disk), w.stored.claim)
      ensures ok ==> w.stored.claim.run !in disk.staging
    {
      hide Inv, Next, Run;
      var claim := w.stored.claim;
      ScheduleKeeps(origin, log, Now());
      DirFacts(Now(), w);
      if claim.run in disk.staging {
        if disk.staging[claim.run].ownership.Some? {
          EmptyStaging(w);
        } else if disk.staging[claim.run].entries != {} {
          return false;
        }
        ShrinkStaging(w, None, RemoveDir);
      }
      ok := true;
    }

    // ----- the end -----

    method ReleaseHostLock(w: Work)
      requires Tracks() && client == Settling(Release, w)
      modifies this`disk, this`client, this`log
      ensures Tracks() && old(log) <= log && client == Settling(Finish, w)
      ensures disk == old(disk).(lock := None)
    {
      hide Inv, Run;
      ScheduleKeeps(origin, log, Now());
      LockFacts(Now(), w);
      ghost var s := Now();
      disk := disk.(lock := None);
      client := Settling(Finish, w);
      Commit(s, Action.ReleaseLock);
    }

    method PublishFinal(w: Work)
      requires Tracks() && client == Settling(Finish, w)
      modifies this`disk, this`client, this`log
      ensures Tracks() && old(log) <= log && client.ClearPending?
      ensures disk == old(disk).(receipts := old(disk).receipts[w.stored.claim.run :=
                Terminalized(w.stored.(cleanup := w.stored.cleanup.(released := true)))])
    {
      hide Inv, Run;
      ghost var s := Now();
      disk := disk.(receipts := disk.receipts[w.stored.claim.run := Terminalized(w.stored.(cleanup := w.stored.cleanup.(released := true)))]);
      client := ClearPending;
      Commit(s, Action.FinishReceipt);
    }

    /** The deferred release of the operation lock on an error return. */
    ghost method GiveUp()
      requires Tracks()
      modifies this`client, this`log
      ensures Tracks() && old(log) <= log && client.Idle?
    {
      hide Inv, Run;
      if !client.Idle? {
        ghost var s := Now();
        client := Idle;
        Commit(s, ClientStops);
      }
    }

    // ----- the whole operation -----

    /** Adopt a Session that no record names, or make sure there is none. */
    method FindSession(start: Work, env: Environment) returns (ok: bool, w: Work)
      requires Tracks() && client == Settling(Step.Recover, start) && start.stored.session.None?
      modifies this`disk, this`client, this`log
      ensures Tracks() && old(log) <= log
      ensures ok ==> w.stored.claim == start.stored.claim && w.stored.cleanup == start.stored.cleanup && StoppedAs(start.stored, w.stored)
      ensures ok ==> client == Settling(if w.stored.session.Some? then Step.StopSession else WriteStopped, w)
      ensures disk.staging == old(disk.staging) && OthersKept(old(disk), disk, start.stored.claim.run)
      ensures env.answers && !ExecHoldsLaunch(exec) ==> ok
    {
      hide Inv, Next, Run;
      w := start;
      ScheduleKeeps(origin, log, Now());
      HeldFacts(Now());
      var found := AskSession(w, env);
      if found.Unanswered? { return false, w; }
      if found.Found? {
        w := WriteRecoveredLock(w, found.id);
        w := WriteRecoveredReceipt(w);
      } else if w.stored.state.Starting? {
        var free := ProbeLaunch(w);
        if !free { return false, w; }
      }
      ok := true;
    }

    /** From the first authority check to the receipt that says the Session is
        stopped. */
    method StopRun(start: Work, env: Environment) returns (ok: bool, w: Work)
      requires Tracks() && client == Checked(start) && start.stored.cleanup == NO_CLEANUP
      modifies this`disk, this`sessions, this`client, this`log
      ensures Tracks() && old(log) <= log
      ensures ok ==> w.stored.claim == start.stored.claim && client == Settling(Step.RemoveRoot, w)
      ensures disk.staging == old(disk.staging)
      ensures ok ==> w.stored.cleanup == Cleanup(true, false, false, false) && StoppedAs(start.stored, w.stored)
      ensures OthersKept(old(disk), disk, start.stored.claim.run)
      ensures ok ==> old(client).Settling?
      ensures env.Calm() && !ExecHoldsLaunch(exec) && old(client).Settling? ==> ok
    {
      hide Inv, Next, Run;
      w := start;
      NothingMoved(disk, start.stored.claim.run);
      if Checked(w).Idle? { return false, w; }
      if w.stored.session.None? {
        ok, w := FindSession(w, env);
        if !ok { return; }
      }
      if w.stored.session.Some? {
        var stopped := StopSession(w, env);
        if !stopped { return false, w; }
      }
      w := WriteStoppedReceipt(w);
      ok := true;
    }

    /** Open the Run and bring the lock up to date with the receipt. */
    method Adopt(claim: Claim, asked: Option<SessionId>, env: Environment) returns (ok: bool, w: Work)
      requires Tracks() && OperationFree(Now())
      requires LockedFor(disk, claim) && StatusOf(disk, claim.run).Some? && StatusOf(disk, claim.run).value.claim == claim
      modifies this`disk, this`client, this`log
      ensures Tracks() && old(log) <= log
      ensures disk.staging == old(disk.staging) && OthersKept(old(disk), disk, claim.run) && LockedFor(disk, claim)
      ensures ok ==> client == Checked(w) && w.stored == Opened(StatusOf(old(disk), claim.run).value, old(disk.lock).value)
      ensures ok ==> w.stored.claim == claim && w.stored.cleanup == NO_CLEANUP && w.asked == asked
      ensures ok ==> w.lock.session == if w.stored.session.Some? && old(disk.lock).value.session.None? then w.stored.session else old(disk.lock).value.session
      ensures env.answers && !ExecHoldsLaunch(exec) ==> ok
    {
      hide Inv, Next, Run;
      w := Open(claim, asked);
      assert OthersKept(old(disk), disk, claim.run);
      if w.stored.session.Some? && w.lock.session.None? {
        var found := AskStale(w, env);
        if found.Unanswered? { return false, w; }
        if found.NotFound? {
          var free := ProbeLaunch(w);
          if !free { return false, w; }
        }
        var lock := WriteStaleLock(w);
        w := w.(lock := lock);
      }
      ok := true;
    }

    /** Remove what the Run left behind and release its lock. */
    method Clear(start: Work) returns (ok: bool)
      requires Tracks() && client == Settling(Step.RemoveRoot, start) && start.stored.cleanup == Cleanup(true, false, false, false)
      modifies this`disk, this`client, this`log
      ensures Tracks() && old(log) <= log
      ensures ok <==> !OrphanedStaging(old(disk), start.stored.claim)
      ensures ok ==> client.Idle? && disk.lock.None? && Settled(disk, start.stored.claim)
      ensures ok ==> var final := disk.receipts[start.stored.claim.run];
                     Ends(start.stored, final) && final.session == start.stored.session
      ensures ok ==> start.stored.claim.run !in disk.roots && start.stored.claim.run !in disk.staging && disk.pending.None?
      ensures OthersKept(old(disk), disk, start.stored.claim.run)
    {
      hide Inv, Next, Run, Ends;
      ScheduleKeeps(origin, log, Now());
      HeldFacts(Now());
      RemoveRoot(start);
      ok := RemoveStaging(start);
      if ok { ReleaseRun(start); }
    }

    /** The lock, then the final receipt, then the pending request. */
    method ReleaseRun(start: Work)
      requires Tracks() && client == Settling(Step.RemoveStaging, start) && start.stored.claim.run !in disk.staging
      requires start.stored.cleanup == Cleanup(true, false, false, false)
      modifies this`disk, this`client, this`log
      ensures Tracks() && old(log) <= log && client.Idle?
      ensures disk == old(disk).(lock := None, pending := None, receipts := disk.receipts)
      ensures disk.receipts - {start.stored.claim.run} == old(disk).receipts - {start.stored.claim.run}
      ensures Settled(disk, start.stored.claim)
      ensures var final := disk.receipts[start.stored.claim.run];
              Ends(start.stored, final) && final.session == start.stored.session
    {
      hide Inv, Next, Run;
      var w := LeaveStaging(start);
      ReleaseHostLock(w);
      PublishFinal(w);
      ForgetPending();
    }

    /** `Settle`: stop the Run's Session, remove what it left behind and release
        its lock. With a daemon that answers and no launch in flight it finishes
        exactly from the `Settleable` states, and then with all four flags. */
    method Settle(claim: Claim, asked: Option<SessionId>, env: Environment) returns (done: Option<Cleanup>)
      requires Tracks() && OperationFree(Now())
      modifies this`disk, this`sessions, this`client, this`log
      ensures Tracks() && old(log) <= log && client.Idle?
      ensures done.Some? ==> done.value == ALL_CLEAN && !LockedFor(disk, claim) && Settled(disk, claim)
      ensures env.Calm() && !ExecHoldsLaunch(exec) ==> (done.Some? <==> Settleable(old(disk), claim, asked))
      ensures done.Some? ==> Settleable(old(disk), claim, asked)
      ensures done.Some? ==> Ends(StatusOf(old(disk), claim.run).value, disk.receipts[claim.run])
      ensures done.Some? ==> claim.run !in disk.roots && claim.run !in disk.staging
      ensures done.Some? && disk.lock.None? ==> disk.pending.None?
      ensures OthersKept(old(disk), disk, claim.run)
    {
      hide Inv, Next, Run, Ends, OthersKept, StoppedAs;
      var status := StatusOf(disk, claim.run);
      if status.None? || status.value.claim != claim { NothingMoved(disk, claim.run); return None; }
      if !LockedFor(disk, claim) {
        Replay(claim);
        return Some(ALL_CLEAN);
      }
      ghost var d0 := disk;
      ScheduleKeeps(origin, log, Now());
      OpenFacts(Now(), claim);
      var ok, w := Adopt(claim, asked, env);
      ghost var d1, begun := disk, w;
      if !ok { GiveUp(); return None; }
      ok, w := StopRun(w, env);
      if !ok { GiveUp(); KeptTwice(d0, d1, disk, claim.run); return None; }
      ghost var d2 := disk;
      ScheduleKeeps(origin, log, Now());
      HeldFacts(Now());
      ok := Clear(w);
      assert StoppedAs(begun.stored, w.stored) && w.stored.claim == claim;
      KeptTwice(d0, d1, d2, claim.run);
      KeptTwice(d0, d2, disk, claim.run);
      if !ok { GiveUp(); return None; }
      EndsAdopted(status.value, d0.lock.value, w.stored, disk.receipts[claim.run]);
      done := Some(ALL_CLEAN);
    }

    /** A Settle that comes after the lock was released. */
    method Replay(claim: Claim)
      requires Tracks() && OperationFree(Now()) && !LockedFor(disk, claim)
      requires StatusOf(disk, claim.run).Some? && StatusOf(disk, claim.run).value.claim == claim
      modifies this`disk, this`client, this`log
      ensures Tracks() && old(log) <= log && client.Idle? && !LockedFor(disk, claim) && Settled(disk, claim)
      ensures Ends(StatusOf(old(disk), claim.run).value, disk.receipts[claim.run])
      ensures claim.run !in disk.roots && claim.run !in disk.staging && (disk.lock.None? ==> disk.pending.None?)
      ensures OthersKept(old(disk), disk, claim.run)
    {
      hide Inv, Next, Run;
      ScheduleKeeps(origin, log, Now());
      ReleasedFacts(Now(), claim);
      PublishReleased(claim);
      if disk.lock.None? { ForgetPending(); }
    }
  }

  lemma NothingMoved(d: Disk, r: RunId)
    ensures OthersKept(d, d, r)
  {
  }
}
