/**
 Delivery of a batch of UI actions by the Run executor. An action's receipt is
 durably pending before the action is performed and durably settled after it;
 between two actions the operation lock is free, and a settlement of the Run
 may happen. Everything a crash could leave is appended to `history`; after a
 crash the executor starts again from it.
 */
module UIActions {
  import opened Options
  import opened HostState

  datatype Outcome = Queued | Pending | Rejected | Uncertain
  datatype Action = Action(kind: nat, events: nat)
  datatype UIReceipt = UIReceipt(index: nat, kind: nat, session: SessionId, outcome: Outcome, events: nat)

  /** The Host Lock of this Run with the Session it owns, the published
      receipt, and whether its manifest names the UI journal. */
  datatype Files = Files(
    locked: bool, owned: Option<SessionId>,
    state: RunState, session: Option<SessionId>, settled: bool, ui: Option<seq<UIReceipt>>, journal: bool)

  /** What is durable, and the actions performed so far, in order. */
  datatype Moment = Moment(files: Files, performed: seq<nat>)

  function Marked(ui: Option<seq<UIReceipt>>): Option<seq<UIReceipt>> {
    match ui
    case None => None
    case Some(rs) =>
      if rs != [] && rs[|rs| - 1].outcome.Pending? then Some(rs[|rs| - 1 := rs[|rs| - 1].(outcome := Uncertain)]) else ui
  }

  /** What becomes of a journal when its Run ends: the actions without an answer
      are uncertain, the others stay what they are. */
  predicate Closed(before: Option<seq<UIReceipt>>, after: Option<seq<UIReceipt>>) {
    && (before.None? <==> after.None?)
    && (before.Some? ==>
          && |after.value| == |before.value|
          && forall i :: 0 <= i < |before.value| ==>
               var b := before.value[i];
               after.value[i] == if b.outcome.Pending? then UIReceipt(b.index, b.kind, b.session, Uncertain, b.events) else b)
  }

  /** The Run ends here, as failed or timed out; Host Lock and Session are left
      to a later settlement. */
  predicate Ended(before: Files, after: Files) {
    && (after.state.Failed? || after.state.TimedOut?)
    && Closed(before.ui, after.ui)
    && after.locked == before.locked && after.owned == before.owned && after.session == before.session
    && after.settled == before.settled && (after.journal ==> before.journal || before.ui.Some?)
  }

  /** The executor was lost in the middle of a batch. */
  predicate Interrupted(f: Files) {
    f.locked && f.owned.Some? && f.session == f.owned && f.state == Interacting && f.ui.Some?
  }

  /** Nothing was done yet for the Run that holds the Host Lock. */
  predicate Unstarted(f: Files) {
    f.locked && f.owned.None? && f.session.None? && f.state == Starting && !f.settled
  }

  predicate Fits(r: UIReceipt, index: nat, action: Action, session: SessionId) {
    r.index == index && r.kind == action.kind && r.session == session && (r.outcome.Queued? ==> r.events == action.events)
  }

  predicate AllQueued(rs: seq<UIReceipt>) {
    forall i :: 0 <= i < |rs| ==> rs[i].outcome.Queued?
  }

  /** A journal of this batch: in order, all but the last receipt queued. */
  predicate Journal(rs: seq<UIReceipt>, batch: seq<Action>, session: SessionId) {
    && |rs| <= |batch|
    && (forall i :: 0 <= i < |rs| ==> Fits(rs[i], i, batch[i], session))
    && (rs != [] ==> AllQueued(rs[..|rs| - 1]))
  }

  predicate NonePending(rs: seq<UIReceipt>) {
    forall i :: 0 <= i < |rs| ==> !rs[i].outcome.Pending?
  }

  /** What every durable moment keeps. */
  predicate Safe(m: Moment, batch: seq<Action>, session: SessionId) {
    var f, n := m.files, |m.performed|;
    && (forall k :: 0 <= k < n ==> m.performed[k] == k)
    && (f.locked && f.owned.None? ==> f.ui.None?)
    && (f.ui.None? ==> n == 0 && !f.state.Interacting? && !f.state.Collecting? && !f.state.Complete?)
    && (f.ui.Some? ==>
          var rs := f.ui.value;
          && Journal(rs, batch, session)
          && |rs| - 1 <= n <= |rs|
          && (rs != [] && rs[|rs| - 1].outcome.Queued? ==> n == |rs|)
          && (f.state.Collecting? || f.state.Complete? ==> |rs| == |batch| && AllQueued(rs))
          && (Terminal(f.state) ==> NonePending(rs)))
  }

  /** `ValidateProgress`: what was not pending stays, what was keeps its
      identity, and nothing disappears. */
  predicate Progress(previous: Option<seq<UIReceipt>>, next: Option<seq<UIReceipt>>) {
    previous.Some? ==>
      && next.Some? && |previous.value| <= |next.value|
      && forall i :: 0 <= i < |previous.value| ==>
           if previous.value[i].outcome.Pending? then
             previous.value[i].(outcome := next.value[i].outcome, events := next.value[i].events) == next.value[i]
           else previous.value[i] == next.value[i]
  }

  predicate Forward(before: Moment, after: Moment) {
    && before.performed <= after.performed
    && Progress(before.files.ui, after.files.ui)
    && (after.files.locked ==> before.files.locked && (before.files.owned.Some? ==> after.files.owned == before.files.owned))
  }

  /** The Run may still be acted on: the lock and the receipt are this
      Session's, the receipt is not settled, and the last action of the journal
      is the one that waits for an answer. */
  predicate Admits(f: Files, index: nat, session: SessionId) {
    && f.locked && f.owned == Some(session) && f.session == Some(session) && !f.settled && f.state.Interacting?
    && f.ui.Some? && |f.ui.value| == index + 1 && f.ui.value[index].outcome.Pending?
  }

  /** An action is performed only as the next one, on files that admit it. */
  predicate Licensed(before: Moment, after: Moment, session: SessionId) {
    after.performed != before.performed ==>
      && after.files == before.files && after.performed == before.performed + [|before.performed|]
      && Admits(after.files, |before.performed|, session)
  }

  ghost predicate Sound(history: seq<Moment>, batch: seq<Action>, session: SessionId) {
    && (forall k :: 0 <= k < |history| ==> Safe(history[k], batch, session))
    && forall k :: 0 < k < |history| ==>
         Forward(history[k - 1], history[k]) && Licensed(history[k - 1], history[k], session)
  }

  /** A settlement, finished or not: it may adopt a Session nobody published
      yet, end the receipt, mark a pending action uncertain and remove the lock;
      it never admits an action. */
  predicate Settlement(before: Files, after: Files) {
    && (after.locked ==> before.locked && (after.owned == before.owned || before.owned.None?))
    && (after.state == before.state || after.state in {Failed, TimedOut, CleanupFailed})
    && (after.session == before.session || (before.session.None? && after.session == after.owned))
    && (before.settled ==> after.settled)
    && (after.ui == before.ui || after.ui == Marked(before.ui))
    && (Terminal(after.state) ==> after.ui == Marked(before.ui))
    && (before.journal ==> after.journal)
  }

  lemma SettlementSafe(m: Moment, after: Files, batch: seq<Action>, session: SessionId)
    requires Safe(m, batch, session) && Settlement(m.files, after)
    ensures Safe(m.(files := after), batch, session) && Forward(m, m.(files := after))
    ensures Terminal(after.state) ==> Closed(m.files.ui, after.ui)
    ensures Terminal(after.state) || after.state == m.files.state
  {
    if m.files.ui.Some? && m.files.ui.value != [] {
      var rs := m.files.ui.value;
      var marked := Marked(m.files.ui).value;
      assert marked[..|rs| - 1] == rs[..|rs| - 1];
      assert forall i :: 0 <= i < |rs| - 1 ==> rs[..|rs| - 1][i] == rs[i];
    }
  }

  class Executor {
    const batch: seq<Action>
    const sessionId: SessionId
    const calm: bool                // every write succeeds and no settlement comes in between
    const able: bool                // no deadline expires and launch, captures and Evidence are right
    var files: Files
    var performed: seq<nat>
    var history: seq<Moment>        // everything a crash could have left

    ghost predicate Valid()
      reads this
    {
      |history| > 0 && history[|history| - 1] == Moment(files, performed) && Sound(history, batch, sessionId)
    }

    constructor (batch: seq<Action>, sessionId: SessionId, files: Files, performed: seq<nat>, calm: bool, able: bool)
      requires Safe(Moment(files, performed), batch, sessionId)
      ensures Valid() && this.files == files && this.performed == performed && this.batch == batch
      ensures this.sessionId == sessionId && this.calm == calm && this.able == able && history == [Moment(files, performed)]
    {
      this.batch, this.sessionId, this.files := batch, sessionId, files;
      this.performed, this.history := performed, [Moment(files, performed)];
      this.calm, this.able := calm, able;
    }

    twostate predicate Continues()
      reads this
    {
      Valid() && old(history) <= history
    }

    /** The receipt admits no further action and is on its way to the end. */
    predicate Active()
      reads this
    {
      files.locked && files.owned == Some(sessionId) && files.session == Some(sessionId) && !files.settled
    }

    /** `writeReceipt`; a failed write leaves the old receipt. */
    method Write(next: Files) returns (ok: bool)
      requires Valid() && Safe(Moment(next, performed), batch, sessionId)
      requires Forward(Moment(files, performed), Moment(next, performed))
      modifies this`files, this`history
      ensures Continues() && files == (if ok then next else old(files)) && (calm ==> ok)
    {
      ok := *;
      ok := ok || calm;
      if ok {
        files := next;
        history := history + [Moment(next, performed)];
      }
    }

    /** The operation lock is free: a settlement may do some of its work. */
    method Interfere()
      requires Valid()
      modifies this`files, this`history
      ensures Continues() && Settlement(old(files), files) && (calm ==> files == old(files) && history == old(history))
    {
      var next: Files := *;
      if !calm && Settlement(files, next) {
        SettlementSafe(Moment(files, performed), next, batch, sessionId);
        files := next;
        history := history + [Moment(next, performed)];
      }
    }

    /** `failReceiptWithCause`: the journal is published, then the failure. */
    method Fail(timedOut: bool)
      requires Valid()
      modifies this`files, this`history
      ensures Continues() && (files != old(files) || calm ==> Ended(old(files), files))
      ensures files != old(files) || calm ==> files.state == if timedOut then TimedOut else Failed
    {
      var published: bool := *;
      var next := files.(ui := Marked(files.ui), journal := files.journal || (published && files.ui.Some?),
                         state := if timedOut then TimedOut else Failed);
      SettlementSafe(Moment(files, performed), next, batch, sessionId);
      var ok := Write(next);
    }

    /** `resumeActiveExecution`: take the lock back and find the Run still
        active, or give up. */
    method Resume() returns (ok: bool)
      requires Valid()
      modifies this`files, this`history
      ensures Continues() && (ok ==> Active() && Settlement(old(files), files))
      ensures calm && old(Active()) ==> if ok then files == old(files) else Ended(old(files), files)
      ensures calm && able && old(Active()) ==> ok
    {
      Interfere();
      if files.settled || !Active() { return false; }
      var expired, timedOut: bool := *, *;
      if expired && !able {
        Fail(timedOut);
        return false;
      }
      ok := true;
    }

    /** `UIActor.Perform`: the call that must not be repeated. */
    method Perform(index: nat) returns (result: Option<UIReceipt>)
      requires Valid() && Admits(files, index, sessionId) && index == |performed|
      modifies this`performed, this`history
      ensures Continues() && performed == old(performed) + [index]
    {
      performed := performed + [index];
      history := history + [Moment(files, performed)];
      result := *;
    }

    /** What came back from `Perform`, or nothing usable: only a receipt of this
        action that is not pending is believed. */
    predicate Believed(result: Option<UIReceipt>, index: nat)
      requires index < |batch|
    {
      result.Some? && Fits(result.value, index, batch[index], sessionId) && !result.value.outcome.Pending?
    }

    /** The Run has ended short of its goal, and no action is left pending. */
    predicate Stopped()
      reads this
    {
      files.state in {Failed, TimedOut} && (files.ui.Some? ==> NonePending(files.ui.value))
    }

    /** The last action was not queued: the actor refused it, or nobody knows. */
    predicate Refused()
      reads this
    {
      files.ui.Some? && files.ui.value != [] && files.ui.value[|files.ui.value| - 1].outcome in {Rejected, Uncertain}
    }

    /** `executeUIActions`. */
    method ExecuteBatch(hasActor: bool, captureBefore: bool) returns (ok: bool)
      requires Valid() && performed == [] && files.ui.None? && files.owned == Some(sessionId)
      modifies this`files, this`performed, this`history
      ensures Continues()
      ensures ok ==> files.state.Collecting? && files.ui.Some? && |files.ui.value| == |batch| && AllQueued(files.ui.value)
      ensures ok && hasActor ==> |performed| == |batch|
      ensures calm && old(Active()) && !ok ==> Stopped()
      ensures calm && old(Active()) && ok ==> Active()
      ensures calm && able && old(Active()) && !ok ==> Refused()
    {
      hide Safe, Forward, Sound, Journal;
      ok := OpenBatch(captureBefore);
      if !ok { return; }
      for index := 0 to |batch|
        invariant Continues()
        invariant files.ui.Some? && AllQueued(files.ui.value) && |files.ui.value| == index == |performed|
        invariant calm && old(Active()) ==> Active() && files.state.Interacting?
      {
        ok := Resume();
        if !ok { return; }
        if !files.state.Interacting? || files.ui.None? || |files.ui.value| != index { return false; }
        var reply;
        ok, reply := Deliver(index, hasActor);
        if !ok { return; }
      }
      ok := CloseBatch();
    }

    /** The journal is empty and the batch begins. */
    method OpenBatch(captureBefore: bool) returns (ok: bool)
      requires Valid() && performed == [] && files.ui.None? && files.owned == Some(sessionId)
      modifies this`files, this`history
      ensures Continues() && (ok ==> files.ui == Some([]))
      ensures calm && old(Active()) ==> if ok then Active() && files.state.Interacting? else Stopped()
      ensures calm && able && old(Active()) ==> ok
    {
      hide Safe, Forward, Sound, Journal;
      ok := Resume();
      if !ok { return; }
      Now();
      BatchSafe(Moment(files, performed), batch, sessionId);
      ok := Write(files.(state := Interacting, ui := Some([])));
      if !ok { return; }
      if captureBefore {
        var captured, timedOut: bool := *, *;
        if !captured && !able {
          Fail(timedOut);
          return false;
        }
      }
    }

    /** All actions are done: the journal is published and named. */
    method CloseBatch() returns (ok: bool)
      requires Valid() && files.ui.Some? && AllQueued(files.ui.value) && |files.ui.value| == |batch| == |performed|
      modifies this`files, this`history
      ensures Continues() && (ok ==> files.state.Collecting? && files.journal && files.ui == old(files).ui)
      ensures calm && old(Active()) && old(files).state.Interacting? ==> if ok then Active() else Stopped()
      ensures calm && able && old(Active()) && old(files).state.Interacting? ==> ok
    {
      hide Safe, Forward, Sound, Journal;
      ok := Resume();
      if !ok { return; }
      if !files.state.Interacting? { return false; }
      var published: bool := *;
      if !published && !able {
        Fail(false);
        return false;
      }
      Now();
      BatchSafe(Moment(files, performed), batch, sessionId);
      ok := Write(files.(journal := true, state := Collecting));
    }

    predicate IsAnswer(a: UIReceipt, index: nat)
      requires index < |batch|
    {
      && a.index == index && a.kind == batch[index].kind && a.session == sessionId
      && (a.outcome.Rejected? || a.outcome.Uncertain? || (a.outcome.Queued? && a.events == batch[index].events))
    }

    /** The journal afterwards holds one more receipt of this action: what the
        actor answered about it, uncertain if that cannot be its answer, and
        rejected if there is no actor. */
    predicate AnsweredBy(reply: Option<UIReceipt>, index: nat, hasActor: bool, before: seq<UIReceipt>)
      requires index < |batch|
      reads this
    {
      && files.ui.Some? && |files.ui.value| == |before| + 1 && files.ui.value[..|before|] == before
      && var last := files.ui.value[|before|];
         && last.index == index && last.kind == batch[index].kind && last.session == sessionId && !last.outcome.Pending?
         && (!hasActor ==> last.outcome.Rejected?)
         && (reply != Some(last) ==> last.outcome.Uncertain? && last.events == 0)
         && (last.outcome.Queued? ==> last.events == batch[index].events && files.state.Interacting?)
         && (!last.outcome.Queued? ==> files.state in {Failed, TimedOut})
         && (reply.Some? && IsAnswer(reply.value, index) ==> reply == Some(last))
    }

    /** One action: pending, performed, settled, under the operation lock. */
    method Deliver(index: nat, hasActor: bool) returns (ok: bool, reply: Option<UIReceipt>)
      requires Valid() && Active() && files.state.Interacting? && files.ui.Some?
      requires index < |batch| && |files.ui.value| == index == |performed| && AllQueued(files.ui.value)
      modifies this`files, this`performed, this`history
      ensures Continues()
      ensures ok ==> files.ui.Some? && AllQueued(files.ui.value) && |files.ui.value| == index + 1 == |performed|
      ensures calm ==> |performed| == index + (if hasActor then 1 else 0) && AnsweredBy(reply, index, hasActor, old(files).ui.value)
      ensures calm ==> if ok then Active() && files.state.Interacting? else Stopped()
    {
      hide Safe, Forward, Sound, Journal;
      Now();
      var pending := UIReceipt(index, batch[index].kind, sessionId, Pending, 0);
      var before := files.ui.value;
      PendingSafe(Moment(files, performed), pending, batch, sessionId);
      ok := Write(files.(ui := Some(before + [pending])));
      if !ok { return false, None; }
      assert files.ui.value[..index] == before;
      reply := Some(pending.(outcome := Rejected));
      if hasActor {
        reply := Perform(index);
      }
      var settled := if Believed(reply, index) then reply.value else pending.(outcome := Uncertain);
      ok := SettleAction(index, settled);
    }

    /** Write the settled receipt; anything but queued fails the Run. */
    method SettleAction(index: nat, settled: UIReceipt) returns (ok: bool)
      requires Valid() && files.state.Interacting? && files.ui.Some? && index < |batch| && |files.ui.value| == index + 1
      requires files.ui.value[index].outcome.Pending? && AllQueued(files.ui.value[..index])
      requires Fits(settled, index, batch[index], sessionId) && !settled.outcome.Pending?
      requires settled.outcome.Queued? ==> |performed| == index + 1
      modifies this`files, this`history
      ensures Continues()
      ensures ok ==> files.ui.Some? && AllQueued(files.ui.value) && |files.ui.value| == index + 1 == |performed|
      ensures calm ==> ok == settled.outcome.Queued? && files.ui == Some(old(files).ui.value[index := settled])
      ensures calm && ok ==> files == old(files).(ui := files.ui)
      ensures calm && !ok ==> files.state in {Failed, TimedOut}
    {
      hide Safe, Forward, Sound, Journal;
      Now();
      var timedOut: bool := *;
      var state := if settled.outcome.Queued? then Interacting else if timedOut then TimedOut else Failed;
      var next := files.(ui := Some(files.ui.value[index := settled]), state := state,
                         journal := files.journal || !settled.outcome.Queued?);
      SettledSafe(Moment(files, performed), next, settled, batch, sessionId);
      ok := Write(next);
      ok := ok && settled.outcome.Queued?;
    }

    lemma Now()
      requires Valid()
      ensures Safe(Moment(files, performed), batch, sessionId)
    {
    }

    /** `ExecutePending` as far as UI actions go: a lock that already owns a
        Session is never executed again; an interrupted batch is failed. */
    method Execute(hasActor: bool, captureBefore: bool) returns (ok: bool)
      requires Valid()
      modifies this`files, this`performed, this`history
      ensures Continues()
      ensures old(files).owned.Some? || !old(files).locked ==> performed == old(performed) && !ok
      ensures ok ==> files.state.Complete? && files.ui.Some? && |files.ui.value| == |batch| && AllQueued(files.ui.value)
      // An interrupted batch is failed, a Run that was not started yet ends one
      // way or the other, and any other Run is left alone.
      ensures calm && Interrupted(old(files)) ==> Ended(old(files), files) && files.state.Failed?
      ensures calm && Unstarted(old(files)) ==> ok || (Stopped() && (able ==> Refused()))
      ensures calm && !Interrupted(old(files)) && !Unstarted(old(files)) ==> files == old(files) && history == old(history)
    {
      hide Safe, Forward, Sound, Journal;
      Interfere();
      if !files.locked { return false; }
      if files.owned.Some? {
        if files.session == files.owned && files.ui.Some? && files.state.Interacting? {
          Fail(false);
        }
        return false;
      }
      if !files.state.Starting? || files.session.Some? || files.settled { return false; }
      ok := LaunchSession();
      if !ok { return; }
      ok := ExecuteBatch(hasActor, captureBefore);
      if !ok { return; }
      ok := Resume();
      if !ok || !files.state.Collecting? { return false; }
      var complete: bool := *;
      if !complete && !able {
        // The Evidence manifest does not match the Scenario.
        Fail(false);
        return false;
      }
      Now();
      CompleteSafe(Moment(files, performed), batch, sessionId);
      ok := Write(files.(state := Complete));
    }

    /** Up to the Scenario call: the lock owns the Session before anything else
        names it. */
    method LaunchSession() returns (ok: bool)
      requires Valid() && files.locked && files.owned.None? && files.state.Starting?
      modifies this`files, this`history
      ensures Continues() && (ok ==> performed == [] && files.ui.None? && files.owned == Some(sessionId))
      ensures calm && old(files).session.None? && !old(files).settled ==> if ok then Active() else Stopped() && !able
    {
      hide Sound, Journal;
      Now();
      var prepared, launched, stopped, timedOut: bool := *, *, *, *;
      if !prepared && !able {
        Fail(timedOut);
        return false;
      }
      // The operation lock was free while the daemon started the Session.
      Interfere();
      if !files.locked || files.owned.Some? || files.session.Some? || files.settled { return false; }
      if !launched && !able {
        Fail(timedOut);
        return false;
      }
      ok := PublishSession(stopped);
      if !ok { return; }
      ok := Resume();
      if !ok { return; }
      Now();
      ok := Write(files.(state := Calling));
    }

    /** The lock owns the Session, then the receipt names it. */
    method PublishSession(stopped: bool) returns (ok: bool)
      requires Valid() && files.locked && files.owned.None? && files.session.None? && !files.settled && files.ui.None?
      requires performed == []
      modifies this`files, this`history
      ensures Continues() && (calm ==> ok)
      ensures ok ==> files == old(files).(owned := Some(sessionId), session := Some(sessionId), state := Running)
    {
      hide Sound, Journal;
      Now();
      ok := Write(files.(owned := Some(sessionId)));
      if !ok {
        // The Session just started is stopped again, or its rollback failed.
        if stopped {
          Fail(false);
        } else {
          var noted := Write(files.(session := Some(sessionId), state := CleanupFailed));
        }
        return;
      }
      ok := Write(files.(session := Some(sessionId), state := Running));
      if !ok {
        var noted := Write(files.(session := Some(sessionId), state := CleanupFailed));
      }
    }

    /** A crash, and the executor started again: what was durable at moment `k`
        is all there is, and what was performed by then stays performed. */
    method Restart(k: nat)
      requires Valid() && k < |history|
      modifies this
      ensures Valid() && history == old(history)[..k + 1]
    {
      hide Safe, Forward, Licensed;
      files, performed, history := history[k].files, history[k].performed, history[..k + 1];
    }
  }

  /** A Run that was just started. */
  const STARTED := Files(true, None, Starting, None, false, None, false)

  /** The executor runs any number of times, each of which may crash at any
      moment, with settlements in between: no action of the batch is performed
      twice or out of order, and a Run that completes has them all queued. */
  method Serve(batch: seq<Action>, sessionId: SessionId, calm: bool, able: bool, rounds: nat) returns (executor: Executor)
    ensures fresh(executor) && executor.Valid() && executor.batch == batch && executor.sessionId == sessionId
    ensures executor.history[0] == Moment(STARTED, [])
    ensures |executor.performed| <= |batch| && forall k :: 0 <= k < |executor.performed| ==> executor.performed[k] == k
    ensures executor.files.state.Complete? ==> |executor.performed| == |batch|
  {
    hide Sound, Journal;
    executor := new Executor(batch, sessionId, STARTED, [], calm, able);
    for round := 0 to rounds
      invariant fresh(executor) && executor.Valid() && executor.batch == batch && executor.sessionId == sessionId
      invariant executor.history[0] == Moment(STARTED, [])
    {
      var served := |executor.history|;
      var hasActor, captureBefore, crashes: bool := *, *, *;
      var k: nat := *;
      var ok := executor.Execute(hasActor, captureBefore);
      if crashes && served <= k + 1 <= |executor.history| {
        executor.Restart(k);
      }
    }
    executor.Now();
    Performed(Moment(executor.files, executor.performed), batch, sessionId);
  }

  lemma Performed(m: Moment, batch: seq<Action>, session: SessionId)
    requires Safe(m, batch, session)
    ensures |m.performed| <= |batch| && forall k :: 0 <= k < |m.performed| ==> m.performed[k] == k
    ensures m.files.state.Complete? ==> |m.performed| == |batch|
  {
  }

  /** A batch begins with an empty journal and ends with a full one. */
  lemma BatchSafe(m: Moment, batch: seq<Action>, session: SessionId)
    requires Safe(m, batch, session) && m.files.owned.Some?
    ensures m.files.ui.None? ==>
              var after := m.(files := m.files.(state := Interacting, ui := Some([])));
              Safe(after, batch, session) && Forward(m, after)
    ensures m.files.ui.Some? && |m.files.ui.value| == |batch| && AllQueued(m.files.ui.value) ==>
              var after := m.(files := m.files.(journal := true, state := Collecting));
              Safe(after, batch, session) && Forward(m, after)
  {
  }

  lemma PendingSafe(m: Moment, pending: UIReceipt, batch: seq<Action>, session: SessionId)
    requires Safe(m, batch, session) && m.files.state.Interacting? && m.files.ui.Some? && AllQueued(m.files.ui.value)
    requires |m.files.ui.value| == |m.performed| < |batch| && pending.outcome.Pending?
    requires Fits(pending, |m.performed|, batch[|m.performed|], session)
    ensures var after := m.(files := m.files.(ui := Some(m.files.ui.value + [pending])));
            Safe(after, batch, session) && Forward(m, after)
  {
    var rs := m.files.ui.value;
    assert (rs + [pending])[..|rs|] == rs;
  }

  lemma SettledSafe(m: Moment, after: Files, settled: UIReceipt, batch: seq<Action>, session: SessionId)
    requires Safe(m, batch, session) && m.files.state.Interacting? && m.files.ui.Some? && m.files.ui.value != []
    requires var rs := m.files.ui.value;
             && |rs| <= |batch| && rs[|rs| - 1].outcome.Pending? && AllQueued(rs[..|rs| - 1]) && !settled.outcome.Pending?
             && Fits(settled, |rs| - 1, batch[|rs| - 1], session)
             && (settled.outcome.Queued? ==> |m.performed| == |rs|)
             && after == m.files.(ui := Some(rs[|rs| - 1 := settled]), state := after.state, journal := after.journal)
    requires after.state.Interacting? || (after.state in {Failed, TimedOut} && !settled.outcome.Queued?)
    ensures Safe(m.(files := after), batch, session) && Forward(m, m.(files := after))
    ensures settled.outcome.Queued? ==> AllQueued(after.ui.value)
  {
    var rs := m.files.ui.value;
    assert after.ui.value[..|rs| - 1] == rs[..|rs| - 1];
    assert forall i :: 0 <= i < |rs| - 1 ==> rs[..|rs| - 1][i] == rs[i];
  }

  lemma CompleteSafe(m: Moment, batch: seq<Action>, session: SessionId)
    requires Safe(m, batch, session) && m.files.state.Collecting?
    ensures var after := m.(files := m.files.(state := Complete)); Safe(after, batch, session) && Forward(m, after)
    ensures m.files.ui.Some? && |m.files.ui.value| == |batch| && AllQueued(m.files.ui.value)
  {
  }

  // ----- what every history shows -----

  lemma {:induction false} HistoryForward(history: seq<Moment>, i: nat, j: nat, batch: seq<Action>, session: SessionId)
    requires Sound(history, batch, session) && i <= j < |history|
    ensures Forward(history[i], history[j])
    decreases j
  {
    if i < j {
      HistoryForward(history, i, j - 1, batch, session);
      ForwardTransitive(history[i], history[j - 1], history[j]);
    }
  }

  lemma ForwardTransitive(a: Moment, b: Moment, c: Moment)
    requires Forward(a, b) && Forward(b, c)
    ensures Forward(a, c)
  {
  }

  /** After a crash the executor starts again from a safe moment, and the
      history that survives is one sound history. */
  lemma CrashedHistory(before: seq<Moment>, k: nat, after: seq<Moment>, batch: seq<Action>, session: SessionId)
    requires Sound(before, batch, session) && k < |before|
    requires |after| > 0 && Sound(after, batch, session) && after[0] == before[k]
    ensures Safe(before[k], batch, session) && Sound(before[..k] + after, batch, session)
  {
    hide Safe, Forward, Licensed;
    var survived := before[..k] + after;
    forall n | 0 < n < |survived| ensures Forward(survived[n - 1], survived[n]) && Licensed(survived[n - 1], survived[n], session) {
      if n == k {
        assert survived[n] == before[k];
      } else if n > k {
        assert survived[n - 1] == after[n - 1 - k] && survived[n] == after[n - k];
      }
    }
  }

  /** Over all crashes and restarts no action is performed twice or out of
      order, and the action performed last was recorded before it. */
  lemma AtMostOnce(history: seq<Moment>, i: nat, j: nat, batch: seq<Action>, session: SessionId)
    requires Sound(history, batch, session) && i <= j < |history|
    ensures history[i].performed <= history[j].performed
    ensures forall k, l :: 0 <= k < l < |history[j].performed| ==> history[j].performed[k] < history[j].performed[l]
    ensures |history[j].performed| > 0 ==> history[j].files.ui.Some? && |history[j].performed| <= |history[j].files.ui.value| <= |batch|
  {
    HistoryForward(history, i, j, batch, session);
    assert Safe(history[j], batch, session);
  }

  /** Every action performed has its moment: no action came between, and the
      Run still held its Host Lock, its receipt named this Session, was not
      settled, and announced this very action. */
  lemma {:induction false} PerformedUnderLock(history: seq<Moment>, j: nat, n: nat, batch: seq<Action>, session: SessionId)
    returns (k: nat)
    requires Sound(history, batch, session) && j < |history| && history[0].performed == [] && n < |history[j].performed|
    ensures 0 < k <= j && |history[k - 1].performed| == n && history[k].performed == history[k - 1].performed + [n]
    ensures var f := history[k].files;
            && f.locked && f.owned == Some(session) && f.session == Some(session) && !f.settled && f.state.Interacting?
            && f.ui.Some? && |f.ui.value| == n + 1 && n < |batch|
            && f.ui.value[n] == UIReceipt(n, batch[n].kind, session, Pending, f.ui.value[n].events)
    decreases j
  {
    if n < |history[j - 1].performed| {
      k := PerformedUnderLock(history, j - 1, n, batch, session);
    } else {
      k := j;
      assert Forward(history[j - 1], history[j]) && Licensed(history[j - 1], history[j], session);
      assert Safe(history[j], batch, session);
    }
  }

  /** What a later moment keeps of an earlier one: a receipt with an outcome
      stays as it is, one without keeps its identity, and the Host Lock is never
      taken back nor its Session replaced. */
  lemma OutcomesStay(history: seq<Moment>, i: nat, j: nat, n: nat, batch: seq<Action>, session: SessionId)
    requires Sound(history, batch, session) && i <= j < |history|
    ensures history[j].files.locked ==> history[i].files.locked
    ensures history[j].files.locked && history[i].files.owned.Some? ==> history[j].files.owned == history[i].files.owned
    ensures history[i].files.ui.Some? && n < |history[i].files.ui.value| ==>
              && history[j].files.ui.Some? && n < |history[j].files.ui.value|
              && var before, after := history[i].files.ui.value[n], history[j].files.ui.value[n];
                 && after.index == before.index == n && after.kind == before.kind && after.session == before.session
                 && (before.outcome in {Queued, Rejected, Uncertain} ==> after == before)
  {
    HistoryForward(history, i, j, batch, session);
    assert Safe(history[i], batch, session);
  }

  /** A complete Run has every action of the batch queued, in order, with the
      events it declares. */
  lemma CompleteIsQueued(history: seq<Moment>, k: nat, batch: seq<Action>, session: SessionId)
    requires Sound(history, batch, session) && k < |history| && history[k].files.state.Complete?
    ensures history[k].files.ui.Some? && |history[k].files.ui.value| == |batch|
    ensures forall i :: 0 <= i < |batch| ==>
              history[k].files.ui.value[i] == UIReceipt(i, batch[i].kind, session, Queued, batch[i].events)
  {
    assert Safe(history[k], batch, session);
  }

  /** `validateUIBatchReceipt`, as the client checks it. */
  predicate Accepted(f: Files, batch: seq<Action>) {
    match f.ui
    case None => !f.state.Complete?
    case Some(rs) =>
      && |rs| <= |batch|
      && (forall i :: 0 <= i < |rs| ==>
            && rs[i].kind == batch[i].kind && (rs[i].outcome.Queued? ==> rs[i].events == batch[i].events)
            && (Terminal(f.state) ==> !rs[i].outcome.Pending?)
            && (f.state.Complete? ==> rs[i].outcome.Queued?))
      && (f.state.Complete? ==> |rs| == |batch|)
  }

  /** Whatever receipts a polling client samples, it accepts each of them and
      the progress from one to the next. */
  lemma PollingAccepts(history: seq<Moment>, i: nat, j: nat, batch: seq<Action>, session: SessionId)
    requires Sound(history, batch, session) && i <= j < |history|
    ensures Accepted(history[j].files, batch) && Progress(history[i].files.ui, history[j].files.ui)
  {
    HistoryForward(history, i, j, batch, session);
    assert Safe(history[j], batch, session);
  }
}
