/**
 The proof controller: one execution is started, observed, stopped and
 recovered by commands that change its record in place and save it at many
 intermediate points. Every change that could survive a crash is appended to
 `history`, so a claim about all of `history` is a claim about every crash.
 An exception is a method returning `ok == false`.
 */
module ProofController {
  import opened Options
  import opened ControllerRecord

  datatype Release = Result | Uncertain | Withheld
  datatype Bound = Bound(invocation: Invocation, mode: Mode, live: bool, release: Release)
  datatype Observation = Observation(boot: nat, invocation: Option<Invocation>, empty: bool)
  datatype Command = StartProof(id: nat, variant: Variant) | Status(id: nat) | Stop(id: nat) | RecoverProof(id: nat)

  const MAX_ATTEMPTS := 9999

  predicate Anchored(variant: Variant, state: State) {
    variant.HostInstall? && state.inputs ==> state.recovery.Some?
  }

  /** The loaded records for which a proof of an unreleased attempt, first
      found by `terminate`, is saved in a form `load` refuses. */
  predicate Exposed(variant: Variant, loaded: State) {
    loaded.phase.Starting? || (loaded.attempt == 1 && !variant.HostInstall?)
  }

  /** The verdict after a result: attempt 1's own status, unless it failed
      already; a recovery never changes it. */
  function Verdicted(before: State, result: Completed): Verdict {
    if result.mode.Baseline? && !before.verdict.Fail? then result.status else before.verdict
  }

  /** The record takes the result's verdict, its proof of cleanup and, if it
      names one, its Run. */
  predicate Judged(before: State, after: State, result: Completed) {
    && after.verdict == Verdicted(before, result)
    && after.cleaned == (before.cleaned || result.cleanup)
    && (result.mode.Recover? ==> result.cleanup && after.recovery == before.recovery)
    && (after.recovery != before.recovery ==> after.recovery == result.run)
  }

  /** An installation takes over a proven removal; without one, or in a
      recovery, it fails. */
  predicate JudgedInstall(before: State, after: State, result: Completed) {
    && after.cleaned == (before.cleaned || result.cleanup) && after.recovery == before.recovery
    && after.verdict == if result.mode.Recover? || !result.cleanup then Fail else Verdicted(before, result)
  }

  ghost predicate Illegible(history: seq<Store>) {
    exists k :: 0 <= k < |history| && !Legible(history[k])
  }

  ghost predicate Sound(history: seq<Store>) {
    && (forall k :: 0 <= k < |history| ==> Safe(history[k]))
    && (forall k :: 0 < k < |history| ==> Forward(history[k - 1], history[k]))
  }

  lemma Appended(history: seq<Store>, next: Store)
    requires |history| > 0 && Sound(history) && Safe(next) && Forward(history[|history| - 1], next)
    ensures Sound(history + [next])
    ensures Illegible(history + [next]) <==> Illegible(history) || !Legible(next)
  {
    hide Safe, Forward, Legible;
    var longer := history + [next];
    assert longer[|history|] == next;
    assert forall k :: 0 <= k < |history| ==> longer[k] == history[k];
    if Illegible(history) {
      var k :| 0 <= k < |history| && !Legible(history[k]);
      assert !Legible(longer[k]);
    }
  }

  class Controller {
    const inspects: bool            // the service can inspect a bound attempt
    const able: bool                // the service answers, and truthfully, files verify and saves succeed
    var store: Store
    var id: nat                     // the execution being worked on
    var state: State                // its record in hand
    var history: seq<Store>         // everything a crash could have left
    ghost var torn: bool            // some of it holds a record `load` refuses

    ghost predicate Valid()
      reads this
    {
      && |history| > 0 && history[|history| - 1] == store
      && Sound(history) && torn == Illegible(history)
    }

    constructor (inspects: bool, able: bool, store: Store)
      requires Safe(store)
      ensures Valid() && this.store == store && history == [store] && this.inspects == inspects && this.able == able
    {
      this.inspects := inspects;
      this.able := able;
      this.store := store;
      this.id := 0;
      this.state := ACCEPTED;
      this.history := [store];
      this.torn := !Legible(store);
      new;
      assert history[0] == store;
    }

    twostate predicate Continues()
      reads this
    {
      Valid() && old(history) <= history
    }

    ghost predicate InHand()
      reads this
    {
      id in store.executions && store.executions[id].record.Some? && Working(store, id, state)
    }

    /** The record in hand is the saved one. */
    predicate Synced()
      reads this
    {
      id in store.executions && store.executions[id].record == Some(state)
    }

    function Variety(): Variant
      reads this
      requires id in store.executions
    {
      store.executions[id].variant
    }

    function Files(): Trail
      reads this
      requires id in store.executions
    {
      store.executions[id].At(state.attempt)
    }

    /** One durable change. */
    method Commit(next: Store)
      requires Valid() && Safe(next) && Forward(store, next)
      modifies this`store, this`history, this`torn
      ensures Continues() && store == next && torn == (old(torn) || !Legible(next))
    {
      hide Safe, Forward, Legible, Illegible, Sound;
      Appended(history, next);
      store := next;
      history := history + [next];
      torn := torn || !Legible(next);
    }

    lemma Now()
      requires Valid()
      ensures Safe(store) && (!torn ==> Legible(store))
    {
      assert Safe(history[|history| - 1]);
    }

    /** The worker publishes its files and may end; nothing else happens. */
    method Evolve()
      requires Valid()
      modifies this`store, this`history, this`torn
      ensures Continues() && torn == old(torn) && Drift(old(store), store)
      ensures old(InHand()) ==> InHand()
      ensures old(store).live == {} ==> store == old(store)
    {
      hide Forward, Legible, Illegible, Sound, Kept, Working, Drift, TrailOnward, Coherent;
      Now();
      ghost var before := store;
      NothingDrifts(before);
      if store.live != {} {
        var worker :| worker in store.live;
        var trail: Trail := *;
        var ends: bool := *;
        if Publishes(worker, store.executions[worker.execution].At(worker.attempt), trail) {
          EvolvedSafe(store, worker, trail, ends);
          EvolvedDrifts(store, worker, trail, ends);
          Commit(Evolved(store, worker, trail, ends));
        }
      }
      if old(InHand()) {
        Now();
        WorkingDrifts(before, store, id, state);
      }
    }

    /** Save the record in hand; a failed save leaves the old one. */
    method Save() returns (ok: bool)
      requires Valid() && InHand()
      modifies this`store, this`history, this`torn
      ensures Continues()
      ensures ok ==> store == Recorded(old(store), id, state) && (!state.phase.Settled? ==> InHand())
      ensures ok ==> torn == (old(torn) || !Readable(store.executions[id], id))
      ensures !ok ==> store == old(store) && torn == old(torn)
      ensures able ==> ok
    {
      ok := *;
      ok := ok || able;
      if ok {
        hide Safe, Forward, Legible, Illegible, Sound, Working;
        Now();
        RecordedSafe(store, id, state);
        Commit(Recorded(store, id, state));
      }
    }

    // ----- calls of the service -----

    ghost predicate BoundTo(bound: Bound)
      reads this
    {
      && inspects && id in store.executions && state.attempt > 0 && Files().native == Some(bound.invocation)
      && (state.invocation.Some? ==> state.invocation.value == bound.invocation)
      && bound.mode == ModeOf(state.attempt)
      && (bound.live <==> store.live != {}) && (bound.release.Withheld? <==> !Files().authorized)
      && (bound.release.Result? <==> Files().completed.Some?)
    }

    /** `bound_attempt`: the inputs are verified, then the service inspects the
        worker of the current attempt, or fails. */
    method Inspect() returns (ok: bool, bound: Option<Bound>)
      requires Valid() && InHand()
      modifies this`store, this`history, this`torn
      ensures Continues() && torn == old(torn) && InHand() && Drift(old(store), store)
      ensures ok && bound.Some? ==> BoundTo(bound.value)
      ensures ok ==> (bound.Some? <==> inspects && state.attempt > 0 && Files().native.Some?)
      ensures ok && bound.Some? && state.invocation.None? ==> !Files().authorized
      ensures old(store).live == {} ==> store == old(store)
      ensures able && (state.invocation.Some? || !Files().authorized) && store.executions[id].record.value.attempt == state.attempt ==> ok
    {
      hide Safe, Forward, Legible, Illegible, Sound, Drifts, Onward, Advances, Kept;
      NothingDrifts(store);
      if !inspects || state.attempt == 0 { return true, None; }
      Evolve();
      ok := *;
      if !ok && !able { return false, None; }
      ok := true;
      HandFacts(store, id, state);
      Now();
      FilesCohere(store, id, state.attempt);
      var files := Files();
      if files.native.None? { return true, None; }
      var worker := files.native.value;
      if state.invocation.Some? && state.invocation.value != worker { return false, None; }
      if state.invocation.None? && (files.authorized || files.completed.Some?) { return false, None; }
      LiveIsMine(store, id, state);
      if store.live != {} && worker !in store.live { return false, None; }
      bound := Some(Bound(worker, ModeOf(state.attempt), store.live != {},
                          if files.completed.Some? then Result else if files.authorized then Uncertain else Withheld));
    }

    /** `unreleased` with a fresh look and publication: without a startup
        failure there is nothing to prove; with one, the service must be quiet. */
    method ProveUnreleased() returns (ok: bool, found: bool)
      requires Valid() && InHand() && store.executions[id].record.value.attempt == state.attempt
      modifies this`store, this`history, this`torn
      ensures Continues() && torn == old(torn) && InHand() && Steady(old(store), store)
      ensures !ok ==> !found
      ensures !found ==> Drift(old(store), store)
      ensures found ==> store.live == {} && state.attempt > 0 && Files().proof && Files().native.None?
      ensures ok && !found ==> !Files().proof && (state.attempt > 0 ==> !Files().failure)
      ensures old(store).live == {} ==> store.live == {} && (!found ==> store == old(store)) && Files().failure == old(Files().failure)
      ensures able && store.live == {} ==> ok && (found <==> state.attempt > 0 && Files().failure)
    {
      hide Safe, Forward, Legible, Illegible, Sound, Drifts, Onward, Advances, Kept;
      Now();
      FilesCohere(store, id, state.attempt);
      NothingDrifts(store);
      DriftsSteady(store, store);
      if state.attempt == 0 { return true, false; }
      ghost var before := store;
      Evolve();
      Now();
      DriftsSteady(before, store);
      FilesCohere(store, id, state.attempt);
      if !Files().failure { return true, false; }
      ok := *;
      ok := ok || able;
      if !ok || store.live != {} { return false, false; }
      if !Files().proof {
        ProofSafe(store, id, state);
        Commit(Trailed(store, id, state.attempt, Files().(proof := true)));
      }
      found := true;
    }

    /** The unit of this worker, or an empty one after a later boot. */
    static predicate Honest(observed: Observation, worker: Invocation) {
      if observed.empty then observed.invocation == if observed.boot == worker.boot then Some(worker) else None
      else observed.boot == worker.boot && observed.invocation == Some(worker)
    }

    /** `service.observe`. The service is one unit: it is empty when no worker
        runs, and that is seen exactly once the worker has a receipt. */
    method Observe() returns (ok: bool, observed: Observation)
      requires Valid() && InHand()
      modifies this`store, this`history, this`torn
      ensures Continues() && torn == old(torn) && InHand() && Drift(old(store), store)
      ensures ok && observed.empty ==> store.live == {}
      ensures ok && state.invocation.Some? && store.live == {} ==> observed.empty
      ensures old(store).live == {} ==> store == old(store)
      ensures able && state.invocation.Some? ==> ok && Honest(observed, state.invocation.value) && (observed.empty <==> store.live == {})
    {
      Evolve();
      ok := *;
      observed := *;
      if able && state.invocation.Some? {
        var worker := state.invocation.value;
        observed := if store.live != {} then Observation(worker.boot, Some(worker), false)
                    else Observation(observed.boot, if observed.boot == worker.boot then Some(worker) else None, true);
        ok := true;
      }
      ok := ok && (observed.empty ==> store.live == {}) && (state.invocation.Some? && store.live == {} ==> observed.empty);
    }

    /** The worker is killed, and leaves its files as they are. */
    method End(worker: Invocation)
      requires Valid() && InHand() && worker in store.live
      modifies this`store, this`history, this`torn
      ensures Continues() && torn == old(torn) && InHand() && Drift(old(store), store) && store.live == old(store).live - {worker}
    {
      hide Forward, Legible, Illegible, Sound, Kept, Working, Drift, TrailOnward, Coherent, OneOpen, LaunchedOnce;
      Now();
      ghost var before := store;
      UnchangedTrail(store, worker);
      var trail := store.executions[worker.execution].At(worker.attempt);
      EvolvedSafe(store, worker, trail, true);
      EvolvedDrifts(store, worker, trail, true);
      Commit(Evolved(store, worker, trail, true));
      Now();
      WorkingDrifts(before, store, id, state);
    }

    /** `stop_exact`, confirmed: that worker runs no more. */
    method StopExact(worker: Invocation) returns (ok: bool)
      requires Valid() && InHand() && Files().native == Some(worker) && store.executions[id].record.value.attempt == state.attempt
      modifies this`store, this`history, this`torn
      ensures Continues() && torn == old(torn) && InHand() && Drift(old(store), store)
      ensures ok ==> store.live == {}
      ensures old(store).live == {} ==> store == old(store)
      ensures able ==> ok
    {
      hide Safe, Forward, Legible, Illegible, Sound, Kept, Working, Drift, Hosts;
      ghost var before := store;
      Evolve();
      DriftKeeps(before, store, id, state.attempt);
      Now();
      LiveIsMine(store, id, state);
      if able && worker in store.live {
        ghost var mid := store;
        End(worker);
        DriftTransitive(before, mid, store);
      }
      ok := *;
      ok := (ok || able) && worker !in store.live;
    }

    /** `service.result` of the current attempt. */
    method ReadResult() returns (ok: bool, completed: Option<Completed>)
      requires Valid() && InHand()
      modifies this`store, this`history, this`torn
      ensures Continues() && torn == old(torn) && InHand() && Drift(old(store), store)
      ensures ok ==> completed == Files().completed
      ensures old(store).live == {} ==> store == old(store)
      ensures able ==> ok
    {
      Evolve();
      ok := *;
      ok := ok || able;
      completed := Files().completed;
    }

    // ----- the controller -----

    /** `terminate`: prove that the current attempt runs no more. `appeared`
        when that proof was first published here. */
    method Terminate() returns (ok: bool, ghost appeared: bool)
      requires Valid() && InHand() && store.executions[id].record.value.attempt == state.attempt
      modifies this`store, this`history, this`torn, this`state
      ensures Continues() && torn == old(torn) && InHand() && Steady(old(store), store)
      ensures state == if ok then old(state).(terminated := true) else old(state)
      ensures ok ==> store.live == {} && state.attempt > 0
      ensures ok && state.invocation.None? ==> Files().proof
      ensures appeared <==> ok && state.invocation.None? && !old(Files().proof)
      ensures able && old(store).live == {} ==> (ok <==> old(state).invocation.Some? || old(Files().failure))
      ensures able && old(state).invocation.Some? ==> store.live == {}
    {
      hide Safe, Forward, Legible, Illegible, Sound, Advances, Kept;
      appeared := false;
      ok := TerminateBound();
      if !ok { return; }
      TerminatedWorks(store, id, state);
      state := state.(terminated := true);
      appeared := state.invocation.None? && !old(Files().proof);
    }

    method TerminateBound() returns (ok: bool)
      requires Valid() && InHand() && store.executions[id].record.value.attempt == state.attempt
      modifies this`store, this`history, this`torn
      ensures Continues() && torn == old(torn) && InHand() && Steady(old(store), store)
      ensures ok ==> store.live == {} && state.attempt > 0
      ensures ok && state.invocation.None? ==> Files().proof
      ensures able && old(store).live == {} ==> (ok <==> state.invocation.Some? || old(Files().failure))
      ensures able && state.invocation.Some? ==> store.live == {}
    {
      hide Safe, Forward, Legible, Illegible, Sound, Advances, Kept, Working;
      HandFacts(store, id, state);
      Now();
      FilesCohere(store, id, state.attempt);
      ghost var before := store;
      var bound: Option<Bound>;
      ok, bound := Inspect();
      DriftsSteady(before, store);
      if !ok { return; }
      if bound.Some? {
        if state.invocation != Some(bound.value.invocation) { return false; }
        ghost var mid := store;
        ok := TerminateExact(bound.value);
        SteadyTransitive(before, mid, store);
      } else if state.invocation.None? {
        ghost var mid := store;
        var found: bool;
        ok, found := ProveUnreleased();
        SteadyTransitive(before, mid, store);
        ok := ok && found;
      } else {
        ghost var mid := store;
        ok := TerminateObserved(state.invocation.value);
        SteadyTransitive(before, mid, store);
      }
    }

    /** Stop the exact worker, and see nothing but that it is gone. */
    method TerminateExact(bound: Bound) returns (ok: bool)
      requires Valid() && InHand() && BoundTo(bound) && state.invocation == Some(bound.invocation)
      requires store.executions[id].record.value.attempt == state.attempt
      modifies this`store, this`history, this`torn
      ensures Continues() && torn == old(torn) && InHand() && Steady(old(store), store)
      ensures ok ==> store.live == {}
      ensures able ==> store.live == {} && (old(store).live == {} ==> ok)
    {
      hide Safe, Forward, Legible, Illegible, Sound, Advances, Kept, Working, Drift, Hosts;
      ghost var before := store;
      if bound.live {
        ok := StopExact(bound.invocation);
        DriftsSteady(before, store);
        if !ok { return; }
      }
      ghost var mid := store;
      var after: Option<Bound>;
      ok, after := Inspect();
      DriftsSteady(mid, store);
      SteadyTransitive(before, mid, store);
      ok := ok && after == Some(bound.(live := false));
    }

    /** The same by a service that can only observe and stop its unit. */
    method TerminateObserved(expected: Invocation) returns (ok: bool)
      requires Valid() && InHand() && state.invocation == Some(expected) && store.executions[id].record.value.attempt == state.attempt
      modifies this`store, this`history, this`torn
      ensures Continues() && torn == old(torn) && InHand() && Steady(old(store), store)
      ensures ok ==> store.live == {} && state.attempt > 0
      ensures able ==> store.live == {} && (old(store).live == {} ==> ok)
    {
      hide Safe, Forward, Legible, Illegible, Sound, Advances, Kept, Hosts;
      ghost var before := store;
      var observed: Observation;
      ok, observed := Observe();
      DriftsSteady(before, store);
      if !ok { return; }
      if observed.boot != expected.boot {
        return observed.empty && observed.invocation.None?;
      }
      if observed.invocation != Some(expected) { return false; }
      if !observed.empty {
        ghost var mid := store;
        ok := StopExact(expected);
        DriftsSteady(mid, store);
        SteadyTransitive(before, mid, store);
        if !ok { return; }
        mid := store;
        ok, observed := Observe();
        DriftsSteady(mid, store);
        SteadyTransitive(before, mid, store);
        ok := ok && observed == Observation(expected.boot, Some(expected), true);
      }
    }

    twostate predicate Reconciled(ok: bool)
      reads this
    {
      && Continues() && torn == old(torn) && id == old(id) && old(id in store.executions) && id in store.executions
      && Variety() == old(Variety()) && store.live <= old(store.live) && store.launches == old(store.launches)
      && Advances(old(state), state) && state.attempt == old(state.attempt) && state.inputs == old(state.inputs)
      && (if ok then Synced() && (state.phase.Settled? || InHand()) else InHand())
      && (ok && state.invocation.None? ==> if Files().proof then ProvenUnreleased(state, store.executions[id]) && state.terminated else state == old(state))
      && (ok && old(state.terminated) && old(store.live) == {} && !state.phase.Settled? ==> !state.verdict.NotRun?)
      && (ok && state.invocation.Some? && store.live == {} ==> Concluded(old(state)))
    }

    /** The worker is gone, and the record says so: terminated, closed, and
        judged by the result if there is one, failed if there is none. */
    ghost predicate Concluded(before: State)
      reads this
      requires id in store.executions
    {
      && state.terminated && state.closed
      && (Files().completed.None? ==>
            && state.verdict.Fail? && state.recovery == before.recovery
            && (state.phase.Settled? ==> state.attempt == 1 && !Variety().HostInstall? && !Files().authorized && state.recovery.None?))
      && (Files().completed.Some? ==>
            && state.phase == (if state.cleaned then Settled else Unresolved)
            && if Variety().HostInstall? then JudgedInstall(before, state, Files().completed.value)
               else Judged(before, state, Files().completed.value))
    }

    /** The result of the current attempt cannot be used: it is of another
        worker or mode, or says nothing; or the worker was authorized although
        the record does not name it, or never, although a Run is retained. */
    predicate Blocked()
      reads this
    {
      && id in store.executions
      && ((state.invocation.None? && Files().authorized)
          || (!Files().authorized && Files().native.Some? && state.attempt == 1 && !Variety().HostInstall? && state.recovery.Some?)
          || (Files().completed.Some? && state.invocation.Some?
              && var result := Files().completed.value;
                 || result.invocation != state.invocation.value
                 || (result.mode == Baseline) != (state.attempt == 1)
                 || (if Variety().HostInstall? then !result.wellFormed || (result.mode == Baseline && result.status == NotRun)
                     else if result.mode == Baseline then !result.wellFormed || result.status == NotRun
                     else !result.cleanup)))
    }

    /** `reconcile` of an attempt that was started but never authorized. */
    method ReconcileWithheld(bound: Bound) returns (ok: bool)
      requires Valid() && InHand() && Synced() && Anchored(Variety(), state)
      requires BoundTo(bound) && bound.release.Withheld?
      modifies this`store, this`history, this`torn, this`state
      ensures Reconciled(ok)
      ensures able && old(store).live == {} && !old(Blocked()) ==> ok
      ensures ok && !bound.live ==> state.phase == if state.attempt == 1 && !Variety().HostInstall? then Settled else Unresolved
    {
      hide Safe, Forward, Legible, Illegible, Sound, Kept, Drift, Core, Hosts, Readable, Working;
      ok := MarkWithheld(bound);
      if ok && !bound.live {
        ok := SettleWithheld(bound.mode);
      }
    }

    method MarkWithheld(bound: Bound) returns (ok: bool)
      requires Valid() && InHand() && Synced() && Anchored(Variety(), state)
      requires BoundTo(bound) && bound.release.Withheld?
      modifies this`store, this`history, this`torn, this`state
      ensures Continues() && torn == old(torn) && InHand() && Variety() == old(Variety()) && store.live <= old(store.live)
      ensures state == old(state).(invocation := Some(bound.invocation), closed := true, phase := Unresolved)
      ensures Advances(old(state), state)
      ensures ok ==> Synced() && (bound.live <==> store.live != {}) && Files().completed.None? && !Files().authorized
      ensures store.launches == old(store).launches
      ensures able && old(store).live == {} ==> ok
    {
      hide Safe, Forward, Legible, Illegible, Sound, Kept, Drift, Core, Hosts, Readable;
      HandFacts(store, id, state);
      WithheldWorks(store, id, state, bound.invocation);
      state := state.(invocation := Some(bound.invocation), closed := true, phase := Unresolved);
      ok := Save();
      if !ok { return; }
      SavedReadable();
      ghost var saved := store;
      var again: Option<Bound>;
      ok, again := Inspect();
      DriftsSteady(saved, store);
      ok := ok && again == Some(bound);
      Now();
      FilesCohere(store, id, state.attempt);
    }

    method SettleWithheld(mode: Mode) returns (ok: bool)
      requires Valid() && InHand() && Synced() && Anchored(Variety(), state)
      requires state.invocation.Some? && state.closed && store.live == {} && mode == ModeOf(state.attempt)
      requires Files().completed.None? && !Files().authorized
      modifies this`store, this`history, this`torn, this`state
      ensures Reconciled(ok) && Advances(old(state), state) && state.invocation == old(state).invocation
      ensures ok && !state.phase.Settled? ==> state.verdict.Fail?
      ensures able && (state.attempt == 1 && !Variety().HostInstall? ==> old(state).recovery.None?) ==> ok
      ensures ok ==> state.phase == if state.attempt == 1 && !Variety().HostInstall? then Settled else old(state).phase
    {
      hide Safe, Forward, Legible, Illegible, Sound, Kept, Drift, Hosts, Readable, Working;
      HandFacts(store, id, state);
      GoneWorks(store, id, state);
      state := state.(terminated := true, verdict := Fail);
      if mode.Baseline? {
        if !(state.attempt == 1 && (state.recovery.None? || Variety().HostInstall?)) { return false; }
        if !Variety().HostInstall? { state := state.(phase := Settled, cleaned := true); }
      } else if !(state.attempt > 1 && state.recovery.Some?) {
        return false;
      }
      ok := Save();
      if ok { SavedReadable(); }
    }

    /** `reconcile` of an attempt without an invocation. */
    method ReconcileUnreleased() returns (ok: bool)
      requires Valid() && InHand() && Synced() && Anchored(Variety(), state) && state.invocation.None?
      modifies this`store, this`history, this`torn, this`state
      ensures Reconciled(ok)
      ensures able && old(store).live == {} ==> ok && (state.terminated <==> old(state).terminated || (state.attempt > 0 && old(Files().failure)))
    {
      hide Safe, Forward, Legible, Illegible, Sound, Kept, Drift, Hosts, Working;
      var found: bool;
      ok, found := ProveUnreleased();
      HandFacts(store, id, state);
      if !ok || !found { return; }
      var verified: bool := *;
      if !verified && !able { return false; }
      ok := SettleUnreleased();
    }

    method SettleUnreleased() returns (ok: bool)
      requires Valid() && InHand() && Synced() && Anchored(Variety(), state) && state.invocation.None?
      requires store.live == {} && state.attempt > 0 && Files().proof
      modifies this`store, this`history, this`torn, this`state
      ensures Reconciled(ok) && (able ==> ok) && (ok ==> state.terminated)
    {
      hide Safe, Forward, Legible, Illegible, Sound, Kept, Drift, Hosts, Working;
      HandFacts(store, id, state);
      UnreleasedWorks(store, id, state);
      state := state.(closed := true, terminated := true, phase := Unresolved);
      if ModeOf(state.attempt).Baseline? {
        if !(state.attempt == 1 && (state.recovery.None? || Variety().HostInstall?)) { return false; }
        state := state.(verdict := Fail);
        if !Variety().HostInstall? { state := state.(phase := Settled, cleaned := true); }
      } else if !(state.attempt > 1 && state.recovery.Some?) {
        return false;
      }
      ok := Save();
      if ok { SavedReadable(); }
    }

    /** `reconcile` of a started attempt, by what the service shows and, once
        it is empty, by the result. */
    method ReconcileObserved() returns (ok: bool)
      requires Valid() && InHand() && Synced() && Anchored(Variety(), state) && state.invocation.Some?
      modifies this`store, this`history, this`torn, this`state
      ensures Reconciled(ok)
      ensures able && old(store).live == {} && !old(Blocked()) ==> ok
    {
      hide Safe, Forward, Legible, Illegible, Sound, Kept, Drift, Hosts, Working, Readable, Core, ProvenUnreleased;
      hide Judged, Verdicted;
      HandFacts(store, id, state);
      NoChange(state);
      var ended: bool;
      ok, ended := ObserveEnd(state.invocation.value);
      if ok && ended { ok := ConcludeEnded(); }
    }

    method ConcludeEnded() returns (ok: bool)
      requires Valid() && InHand() && Synced() && Anchored(Variety(), state) && state.invocation.Some? && store.live == {}
      modifies this`store, this`history, this`torn, this`state
      ensures Reconciled(ok) && (ok && !state.phase.Settled? ==> !state.verdict.NotRun?)
      ensures able && !old(Blocked()) ==> ok
    {
      hide Safe, Forward, Legible, Illegible, Sound, Kept, Drift, Hosts, Working, Readable, Core, ProvenUnreleased;
      HandFacts(store, id, state);
      var verified: bool := *;
      if !verified && !able { return false; }
      EndedWorks(store, id, state);
      state := state.(terminated := true, closed := true);
      ghost var before := store;
      var completed: Option<Completed>;
      ok, completed := ReadResult();
      DriftsSteady(before, store);
      if !ok { return; }
      ok := Conclude(completed);
    }

    method ObserveEnd(worker: Invocation) returns (ok: bool, ended: bool)
      requires Valid() && InHand() && state.invocation == Some(worker)
      modifies this`store, this`history, this`torn
      ensures Continues() && torn == old(torn) && InHand() && Steady(old(store), store)
      ensures ok && ended ==> store.live == {}
      ensures ok && store.live == {} ==> ended
      ensures old(store).live == {} ==> store == old(store) && (able ==> ok)
    {
      hide Safe, Forward, Legible, Illegible, Sound, Kept, Hosts, Working, Drifts;
      ghost var before := store;
      var observed: Observation;
      ok, observed := Observe();
      DriftsSteady(before, store);
      ended := observed.empty;
      if observed.boot == worker.boot {
        ok := ok && observed.invocation == Some(worker);
      } else {
        ok := ok && observed.empty && observed.invocation.None?;
      }
    }

    /** The end of `reconcile`: the worker is gone, its result read. */
    method Conclude(completed: Option<Completed>) returns (ok: bool)
      requires Valid() && InHand() && Anchored(Variety(), state)
      requires store.executions[id].record.value.attempt == state.attempt
      requires state.invocation.Some? && state.closed && state.terminated && !state.phase.Settled? && store.live == {}
      requires completed == Files().completed
      modifies this`store, this`history, this`torn, this`state
      ensures Reconciled(ok) && (ok && !state.phase.Settled? ==> !state.verdict.NotRun?)
      ensures ok && completed.None? ==> state.verdict.Fail? && state.phase.Unresolved?
      ensures ok && completed.Some? && !Variety().HostInstall? ==> Judged(old(state), state, completed.value)
      ensures able && !old(Blocked()) ==> ok
    {
      hide Safe, Forward, Legible, Illegible, Sound, Kept, Drift, Hosts, Working, Readable;
      if completed.None? {
        GoneWorks(store, id, state);
        UnresolvedWorks(store, id, state.(terminated := true, verdict := Fail));
        state := state.(phase := Unresolved, verdict := Fail);
        ok := Save();
        if ok { SavedReadable(); }
        return;
      }
      var result := completed.value;
      if result.invocation != state.invocation.value { return false; }
      if result.mode.Baseline? != (state.attempt == 1) { return false; }
      if Variety().HostInstall? { ok := ConcludeInstall(result); } else { ok := ConcludeProof(result); }
    }

    /** A host installation is settled by its checkpoint chain. */
    method ConcludeInstall(result: Completed) returns (ok: bool)
      requires Valid() && InHand() && Variety().HostInstall? && Anchored(Variety(), state)
      requires store.executions[id].record.value.attempt == state.attempt
      requires state.invocation.Some? && state.closed && state.terminated && !state.phase.Settled? && store.live == {}
      requires Files().completed == Some(result)
      requires result.invocation == state.invocation.value && (result.mode.Baseline? <==> state.attempt == 1)
      modifies this`store, this`history, this`torn, this`state
      ensures Reconciled(ok) && (ok && !state.phase.Settled? ==> !state.verdict.NotRun?)
      ensures ok ==> state.phase == (if state.cleaned then Settled else Unresolved)
                     && (state.cleaned <==> old(state).cleaned || result.cleanup)
                     && state.verdict == if result.mode.Recover? || !result.cleanup then Fail else Verdicted(old(state), result)
      ensures ok && state.verdict.Pass? ==> state.cleaned && result.cleanup && result.status.Pass? && result.mode.Baseline?
      ensures able && !old(Blocked()) ==> ok
    {
      hide Safe, Forward, Legible, Illegible, Sound, Kept, Drift, Hosts, Readable, Steady, Working, Core;
      ghost var loaded := state;
      HandFacts(store, id, state);
      var chained: bool := *;
      if (!chained && !able) || !result.wellFormed { return false; }
      if result.mode.Baseline? {
        if result.status.NotRun? { return false; }
        if !state.verdict.Fail? { state := state.(verdict := result.status); }
      } else {
        state := state.(verdict := Fail);
      }
      state := if result.cleanup then state.(cleaned := true) else state.(verdict := Fail);
      state := state.(phase := if state.cleaned then Settled else Unresolved);
      ConcludedWorks(store, id, loaded, state);
      ok := Save();
      if ok { SavedReadable(); }
    }

    /** A proof is settled by its verified cleanup; the Run it names is kept
        for recovery. */
    method ConcludeProof(result: Completed) returns (ok: bool)
      requires Valid() && InHand() && !Variety().HostInstall? && store.executions[id].record.value.attempt == state.attempt
      requires state.invocation.Some? && state.closed && state.terminated && !state.phase.Settled? && store.live == {}
      requires Files().completed == Some(result)
      requires result.invocation == state.invocation.value && (result.mode.Baseline? <==> state.attempt == 1)
      modifies this`store, this`history, this`torn, this`state
      ensures Reconciled(ok) && (ok && !state.phase.Settled? ==> !state.verdict.NotRun?)
      ensures ok ==> Judged(old(state), state, result) && state.phase == if state.cleaned then Settled else Unresolved
      ensures able && !old(Blocked()) ==> ok
    {
      hide Safe, Forward, Legible, Illegible, Sound, Kept, Drift, Hosts, Readable, Steady, Working, Core;
      ghost var loaded := state;
      ok := TakeResult(result);
      if !ok { return; }
      ok := Save();
      if !ok { return; }
      SavedReadable();
      loaded := state;
      state := state.(phase := if state.cleaned then Settled else Unresolved);
      ConcludedWorks(store, id, loaded, state);
      ok := Save();
      if ok { SavedReadable(); }
    }

    method TakeResult(result: Completed) returns (ok: bool)
      requires Valid() && InHand() && !Variety().HostInstall?
      requires state.invocation.Some? && state.closed && state.terminated && !state.phase.Settled? && store.live == {}
      requires Files().completed == Some(result)
      requires result.invocation == state.invocation.value && (result.mode.Baseline? <==> state.attempt == 1)
      modifies this`state
      ensures InHand() && Advances(old(state), state)
      ensures state == old(state).(verdict := state.verdict, cleaned := state.cleaned, recovery := state.recovery)
      ensures ok ==> !state.verdict.NotRun? && Judged(old(state), state, result)
      ensures able && !old(Blocked()) ==> ok
    {
      hide Safe, Forward, Legible, Illegible, Sound, Kept, Hosts, Readable, Working, Core;
      ghost var loaded := state;
      HandFacts(store, id, state);
      ok := true;
      if result.mode.Baseline? {
        if !result.wellFormed || result.status.NotRun? { return false; }
        if !state.verdict.Fail? { state := state.(verdict := result.status); }
        if result.cleanup { state := state.(cleaned := true); }
        var retained: Option<nat> := *;
        if able && retained != state.recovery { retained := None; }
        if able && result.run != retained { retained := None; }
        if retained.Some? {
          if (state.recovery.None? || retained == state.recovery) && result.run == retained {
            state := state.(recovery := retained);
          } else {
            ok := false;
          }
        }
      } else {
        ok := result.cleanup;
        if ok { state := state.(cleaned := true); }
      }
      ConcludedWorks(store, id, loaded, state);
    }

    /** `reconcile`. */
    method Reconcile() returns (ok: bool)
      requires Valid() && InHand() && Synced() && Anchored(Variety(), state)
      modifies this`store, this`history, this`torn, this`state
      ensures Reconciled(ok)
      // With an able service, an attempt whose worker is gone is concluded.
      ensures able && old(store).live == {} && !old(Blocked()) ==> ok
    {
      hide Safe, Forward, Legible, Illegible, Sound, Kept, Drift, Hosts, Working, Readable, Core;
      ghost var before := store;
      var bound: Option<Bound>;
      ok, bound := Inspect();
      DriftsSteady(before, store);
      if !ok { return; }
      if bound.Some? && bound.value.release.Withheld? {
        ok := ReconcileWithheld(bound.value);
      } else if state.invocation.None? {
        ok := ReconcileUnreleased();
      } else {
        ok := ReconcileObserved();
      }
    }

    lemma SavedReadable()
      requires Valid() && Synced() && Anchored(Variety(), state)
      requires state.invocation.None? && state.terminated ==> ProvenUnreleased(state, store.executions[id])
      ensures Readable(store.executions[id], id)
    {
      Now();
      assert Kept(store.executions[id], id);
      ReadableExactly(store.executions[id], id);
    }

    // ----- a new attempt -----

    /** `service.start`: it may fail before or after the worker runs. */
    /** At most one worker was started meanwhile, for the attempt in hand. */
    twostate predicate StartsOne()
      reads this
    {
      store.launches == old(store.launches) || store.launches == old(store.launches) + [Launch(id, state.attempt)]
    }

    method StartWorker() returns (ok: bool, worker: Invocation)
      requires Valid() && InHand() && Synced() && store.live == {}
      requires state.attempt > 0 && state.invocation.None? && !state.terminated && Files() == UNTOUCHED
      requires forall k :: 0 <= k < |store.launches| && store.launches[k].execution == id ==> store.launches[k].attempt < state.attempt
      modifies this`store, this`history, this`torn
      ensures Continues() && torn == old(torn) && InHand() && Synced() && Variety() == old(Variety())
      ensures ok ==> Files().native == Some(worker) && store.launches == old(store).launches + [Launch(id, state.attempt)]
      ensures StartsOne()
    {
      hide Safe, Forward, Legible, Illegible, Sound, Kept, Hosts, Working, Readable, Core;
      Now();
      worker := *;
      var issued: bool := *;
      if !issued { return false, worker; }
      var started := worker.(execution := id, attempt := state.attempt);
      LaunchedSafe(store, started, state);
      Commit(Store(store.executions, {started}, store.launches + [Launch(id, state.attempt)]));
      ghost var before := store;
      Evolve();
      DriftsSteady(before, store);
      var confirmed: bool := *;
      ok := confirmed && Files().native.Some?;
      if ok { worker := Files().native.value; }
    }

    /** `launch`: save the attempt before its worker can exist, the worker
        before its authorization, the authorization before the release. */
    method LaunchAttempt(mode: Mode) returns (ok: bool)
      requires Valid() && InHand() && Synced() && Anchored(Variety(), state) && state.inputs && store.live == {}
      requires mode.Baseline? <==> state.attempt == 0
      requires mode.Recover? ==> state.closed && state.recovery.Some? && !state.verdict.NotRun?
      modifies this`store, this`history, this`torn, this`state
      ensures Continues() && torn == old(torn) && InHand() && Variety() == old(Variety()) && Advances(old(state), state)
      ensures state.verdict == old(state).verdict && StartsOne()
      ensures state != old(state) ==> state.attempt == old(state).attempt + 1 && (state.invocation.None? ==> !state.terminated)
      ensures ok ==> Synced() && state.invocation.Some? && state.attempt == old(state).attempt + 1
                     && state.phase == (if mode.Baseline? then Running else Recovering)
    {
      hide Safe, Forward, Legible, Illegible, Sound, Kept, Hosts, Working, Readable, Core;
      HandFacts(store, id, state);
      var verified, inTime: bool := *, *;
      if !verified { return false; }
      if mode.Baseline? && (state.closed || !inTime) { return false; }
      if state.attempt >= MAX_ATTEMPTS { return false; }
      Now();
      FreshAttempt(store, id, state);
      StartingWorks(store, id, state);
      state := state.(attempt := state.attempt + 1, phase := Starting, invocation := None, terminated := false);
      ok := Save();
      if !ok { return; }
      SavedReadable();
      ok := RunAttempt(mode);
    }

    method RunAttempt(mode: Mode) returns (ok: bool)
      requires Valid() && InHand() && Synced() && Anchored(Variety(), state) && store.live == {}
      requires state.attempt > 0 && state.phase.Starting? && state.invocation.None? && !state.terminated
      requires Files() == UNTOUCHED
      requires forall k :: 0 <= k < |store.launches| && store.launches[k].execution == id ==> store.launches[k].attempt < state.attempt
      modifies this`store, this`history, this`torn, this`state
      ensures Continues() && torn == old(torn) && InHand() && Variety() == old(Variety())
      ensures state == old(state) || (state.invocation.Some? && state == old(state).(invocation := state.invocation, phase := state.phase))
      ensures StartsOne()
      ensures ok ==> Synced() && state.invocation.Some? && state.phase == (if mode.Baseline? then Running else Recovering)
    {
      hide Safe, Forward, Legible, Illegible, Sound, Kept, Hosts, Working, Readable, Core, Advances;
      var published: bool := *;
      if !published { return false; }
      var worker: Invocation;
      ok, worker := StartWorker();
      if !ok { return; }
      RunningWorks(store, id, state, worker, if mode.Baseline? then Running else Recovering);
      state := state.(invocation := Some(worker), phase := if mode.Baseline? then Running else Recovering);
      ok := Save();
      if !ok { return; }
      SavedReadable();
      ok := ReleaseWorker(mode);
    }

    method ReleaseWorker(mode: Mode) returns (ok: bool)
      requires Valid() && InHand() && Synced() && state.invocation.Some?
      modifies this`store, this`history, this`torn
      ensures Continues() && torn == old(torn) && InHand() && Synced() && Variety() == old(Variety())
      ensures ok ==> Files().authorized
      ensures store.launches == old(store).launches
    {
      hide Safe, Forward, Legible, Illegible, Sound, Kept, Hosts, Working, Readable, Core, Advances;
      var inTime, authorized, released: bool := *, *, *;
      if (mode.Baseline? && !inTime) || !authorized { return false; }
      Now();
      AuthorizedSafe(store, id, state);
      Commit(Trailed(store, id, state.attempt, Files().(authorized := true)));
      ok := released;
    }

    // ----- recovery -----

    /** `recover`. `appeared` when its `terminate` first published the proof
        that the attempt released nothing; `wrote` when the next save reached
        the disk. Only then, and only for an exposed record, is something
        saved that `load` refuses. */
    method Recover() returns (ok: bool, ghost appeared: bool, ghost wrote: bool)
      requires Valid() && InHand() && Synced() && Readable(store.executions[id], id)
      modifies this`store, this`history, this`torn, this`state
      ensures Continues() && id in store.executions && Variety() == old(Variety())
      ensures Advances(old(state), state) && (ok ==> Synced())
      ensures ok ==> state.phase.Settled? || state.phase.Recovering?
      ensures StartsOne()
      ensures torn ==> old(torn) || (appeared && Exposed(Variety(), old(state)))
      ensures appeared && wrote && Exposed(Variety(), old(state)) ==> torn
      ensures appeared ==> old(state).invocation.None? && !old(state).terminated
    {
      hide Safe, Forward, Legible, Illegible, Sound, Kept, Hosts, Working, Core, Readable, ProvenUnreleased;
      appeared, wrote := false, false;
      var done: bool;
      ok, done := Refresh();
      if !ok || done { return; }
      ok := MarkClosed();
      if !ok { return; }
      ok, appeared, wrote := StopAndRelaunch();
    }

    /** The first look of `recover`, which may already settle the execution. */
    method Refresh() returns (ok: bool, done: bool)
      requires Valid() && InHand() && Synced() && Readable(store.executions[id], id)
      modifies this`store, this`history, this`torn, this`state
      ensures Continues() && torn == old(torn) && id in store.executions && Variety() == old(Variety())
      ensures Advances(old(state), state)
      ensures ok ==> Synced() && (done ==> state.phase.Settled? || state.phase.Recovering?)
      ensures store.launches == old(store).launches
      ensures ok && !done ==> InHand() && Readable(store.executions[id], id) && !state.phase.Settled?
      ensures ok && !done ==> (state.invocation.None? && Files().proof ==> state.terminated)
      ensures ok && !done && state.invocation.None? && !state.terminated ==> state == old(state)
    {
      hide Safe, Forward, Legible, Illegible, Sound, Kept, Hosts, Working, Core, Readable, ProvenUnreleased;
      HandFacts(store, id, state);
      UnreleasedFacts(store.executions[id], id);
      done := false;
      ok := true;
      if state.invocation.None? {
        ok := Reread();
        done := state.phase.Settled?;
        if !ok || done { return; }
      }
      if state.phase.Recovering? {
        RecoveringFacts(store, id, state);
        ok := Reread();
        done := state.phase.Recovering? || state.phase.Settled?;
      }
    }

    method Reread() returns (ok: bool)
      requires Valid() && InHand() && Synced() && Readable(store.executions[id], id)
      modifies this`store, this`history, this`torn, this`state
      ensures Continues() && torn == old(torn) && id in store.executions && Variety() == old(Variety())
      ensures Advances(old(state), state)
      ensures state.attempt == old(state).attempt && store.launches == old(store).launches
      ensures ok ==> Synced()
      ensures ok && !state.phase.Settled? ==>
                && InHand() && Readable(store.executions[id], id)
                && (state.invocation.None? && Files().proof ==> state.terminated)
                && (state.invocation.None? && !state.terminated ==> state == old(state))
    {
      hide Safe, Forward, Legible, Illegible, Sound, Kept, Hosts, Working, Core, Readable, Advances;
      UnreleasedFacts(store.executions[id], id);
      ok := Reconcile();
      if ok && !state.phase.Settled? {
        HandFacts(store, id, state);
        SavedReadable();
      }
    }

    method MarkClosed() returns (ok: bool)
      requires Valid() && InHand() && Synced() && Readable(store.executions[id], id) && !state.phase.Settled?
      modifies this`store, this`history, this`torn, this`state
      ensures Continues() && torn == old(torn) && InHand() && Variety() == old(Variety()) && Files() == old(Files())
      ensures state == old(state).(closed := true, verdict := if Variety().HostInstall? then Fail else old(state).verdict)
      ensures ok ==> Synced() && Readable(store.executions[id], id)
      ensures store.launches == old(store).launches
    {
      hide Safe, Forward, Legible, Illegible, Sound, Kept, Hosts, Working, Core, Readable;
      UnreleasedFacts(store.executions[id], id);
      ClosedWorks(store, id, state);
      state := state.(closed := true);
      if Variety().HostInstall? { state := state.(verdict := Fail); }
      ok := Save();
      if ok { SavedReadable(); }
    }

    /** The guarded part of `recover`, with its handler. */
    method StopAndRelaunch() returns (ok: bool, ghost appeared: bool, ghost wrote: bool)
      requires Valid() && InHand() && Synced() && Readable(store.executions[id], id) && !state.phase.Settled?
      requires state.closed && (Variety().HostInstall? ==> state.verdict.Fail?)
      requires state.invocation.None? && Files().proof ==> state.terminated
      modifies this`store, this`history, this`torn, this`state
      ensures Continues() && id in store.executions && Variety() == old(Variety())
      ensures Advances(old(state), state) && (ok ==> Synced() && (state.phase.Settled? || state.phase.Recovering?))
      ensures StartsOne()
      ensures torn ==> old(torn) || (appeared && Exposed(Variety(), old(state)))
      ensures appeared && wrote && Exposed(Variety(), old(state)) ==> torn
      ensures appeared ==> old(state).invocation.None? && !old(state).terminated
    {
      hide Safe, Forward, Legible, Illegible, Sound, Kept, Hosts, Working, Core, Readable, ProvenUnreleased;
      ok, appeared, wrote := TryRelaunch();
      if !ok {
        UnresolvedWorks(store, id, state);
        Now();
        HandlerReadable(store, id, state);
        state := state.(phase := Unresolved, closed := true);
        var saved := Save();
      }
    }

    method TryRelaunch() returns (ok: bool, ghost appeared: bool, ghost wrote: bool)
      requires Valid() && InHand() && Synced() && Readable(store.executions[id], id) && !state.phase.Settled?
      requires state.closed && (Variety().HostInstall? ==> state.verdict.Fail?)
      requires state.invocation.None? && Files().proof ==> state.terminated
      modifies this`store, this`history, this`torn, this`state
      ensures Continues() && id in store.executions && Variety() == old(Variety()) && Advances(old(state), state)
      ensures if ok then Synced() && (state.phase.Settled? || state.phase.Recovering?) else InHand() && Anchored(Variety(), state)
      ensures StartsOne()
      ensures torn == (old(torn) || (appeared && wrote && Exposed(Variety(), old(state))))
      ensures !ok && state.invocation.None? && state.terminated && state.attempt == 1 && !Variety().HostInstall? ==> appeared && old(state).attempt == 1
      ensures appeared ==> old(state).invocation.None? && !old(state).terminated
    {
      hide Safe, Forward, Legible, Illegible, Sound, Kept, Hosts, Working, Core, Readable;
      ok, appeared, wrote := StopWorker();
      if !ok { return; }
      ok := ReconcileAndRelaunch();
    }

    /** Prove the termination and save it. */
    method StopWorker() returns (ok: bool, ghost appeared: bool, ghost wrote: bool)
      requires Valid() && InHand() && Synced() && Readable(store.executions[id], id) && !state.phase.Settled?
      requires state.closed && (Variety().HostInstall? ==> state.verdict.Fail?)
      requires state.invocation.None? && Files().proof ==> state.terminated
      modifies this`store, this`history, this`torn, this`state
      ensures Continues() && InHand() && Variety() == old(Variety()) && Anchored(Variety(), state) && (ok ==> Synced())
      ensures ok ==> store.live == {} && state.attempt > 0 && state.terminated && wrote
      ensures store.launches == old(store).launches
      ensures state == old(state) || state == old(state).(terminated := true)
      ensures torn == (old(torn) || (appeared && wrote && Exposed(Variety(), old(state))))
      ensures state.invocation.None? && state.terminated && state.attempt == 1 && !Variety().HostInstall? ==> appeared
      ensures appeared ==> old(state).invocation.None? && !old(state).terminated
    {
      hide Safe, Forward, Legible, Illegible, Sound, Kept, Hosts, Working, Core, Readable;
      wrote := false;
      HandFacts(store, id, state);
      UnreleasedFacts(store.executions[id], id);
      ok, appeared := Terminate();
      if !ok { return; }
      ok := Save();
      if !ok { return; }
      wrote := true;
      TornExactly();
    }

    method ReconcileAndRelaunch() returns (ok: bool)
      requires Valid() && InHand() && Synced() && Anchored(Variety(), state) && store.live == {} && state.attempt > 0
      requires state.closed && state.terminated
      modifies this`store, this`history, this`torn, this`state
      ensures Continues() && torn == old(torn) && id in store.executions && Variety() == old(Variety())
      ensures Advances(old(state), state) && StartsOne()
      ensures if ok then Synced() && (state.phase.Settled? || state.phase.Recovering?) else InHand() && Anchored(Variety(), state)
      ensures !ok && state.invocation.None? && state.terminated && state.attempt == 1 && !Variety().HostInstall? ==>
                old(state).invocation.None? && old(state).attempt == 1
    {
      hide Safe, Forward, Legible, Illegible, Sound, Kept, Hosts, Working, Core, Readable;
      HandFacts(store, id, state);
      var verified: bool := *;
      if !verified && !able { return false; }
      ok := Reconcile();
      if !ok || state.phase.Settled? { return; }
      HandFacts(store, id, state);
      assert store.live == {};
      ok := Relaunch();
    }

    /** The rest of the guarded part: keep what recovery needs, then launch. */
    method Relaunch() returns (ok: bool)
      requires Valid() && InHand() && Synced() && Anchored(Variety(), state) && store.live == {} && state.attempt > 0
      requires state.closed && state.terminated && !state.verdict.NotRun? && !state.phase.Settled?
      requires state.invocation.None? ==> ProvenUnreleased(state, store.executions[id])
      modifies this`store, this`history, this`torn, this`state
      ensures Continues() && torn == old(torn) && id in store.executions && Variety() == old(Variety())
      ensures Advances(old(state), state)
      ensures InHand() && Anchored(Variety(), state) && StartsOne()
      ensures ok ==> Synced() && state.phase.Recovering? && state.attempt == old(state).attempt + 1
      ensures state.invocation.None? && state.terminated && state.attempt == 1 ==> Variety().HostInstall?
    {
      hide Safe, Forward, Legible, Illegible, Sound, Kept, Hosts, Working, Core, Readable, ProvenUnreleased;
      if state.invocation.None? { UnreleasedKind(state, store.executions[id]); }
      ok := KeepRecovery();
      if !ok { return; }
      HandFacts(store, id, state);
      ok := LaunchAttempt(ControllerRecord.Recover);
    }

    method KeepRecovery() returns (ok: bool)
      requires Valid() && InHand() && Synced() && Anchored(Variety(), state) && store.live == {}
      requires !state.phase.Settled? && (state.invocation.None? ==> state.attempt > 1 || Variety().HostInstall?)
      requires state.invocation.None? ==> ProvenUnreleased(state, store.executions[id])
      modifies this`store, this`history, this`torn, this`state
      ensures Continues() && torn == old(torn) && InHand() && Variety() == old(Variety()) && store.live == {}
      ensures state == old(state).(verdict := state.verdict, recovery := state.recovery) && Advances(old(state), state)
      ensures Variety().HostInstall? ==> state.recovery == old(state).recovery
      ensures store.launches == old(store).launches
      ensures ok ==> Synced() && (state.recovery.Some? || Variety().HostInstall?)
    {
      hide Safe, Forward, Legible, Illegible, Sound, Kept, Hosts, Working, Core, Readable, ProvenUnreleased, Drift, Advances;
      ghost var before := store;
      NoChange(state);
      var retained: Option<nat>;
      ok, retained := FindRecovery();
      ProofStays(before, store, id, state.attempt);
      assert store.live == {};
      if !ok { return; }
      UnreleasedStays(state, before.executions[id], store.executions[id]);
      ok := SaveKept(retained);
    }

    method SaveKept(retained: Option<nat>) returns (ok: bool)
      requires Valid() && InHand() && !state.phase.Settled? && Anchored(Variety(), state)
      requires state.invocation.None? ==> ProvenUnreleased(state, store.executions[id])
      requires if Variety().HostInstall? then retained == state.recovery else retained.Some? && (state.recovery.Some? ==> retained == state.recovery)
      requires state.invocation.None? ==> state.attempt > 1 || Variety().HostInstall?
      modifies this`store, this`history, this`torn, this`state
      ensures Continues() && torn == old(torn) && InHand() && Variety() == old(Variety()) && store.live == old(store.live)
      ensures store.launches == old(store).launches
      ensures state == if Variety().HostInstall? then old(state).(verdict := Fail) else old(state).(recovery := retained)
      ensures Advances(old(state), state)
      ensures ok ==> Synced()
    {
      hide Safe, Forward, Legible, Illegible, Sound, Kept, Hosts, Working, Core, Readable, ProvenUnreleased, Advances;
      ghost var loaded, before := state, store;
      KeptWorks(store, id, state, retained);
      state := if Variety().HostInstall? then state.(verdict := Fail) else state.(recovery := retained);
      ok := Save();
      if ok {
        KeptUnreleased(loaded, state, before.executions[id], store.executions[id]);
        SavedReadable();
      }
    }

    /** What recovery has to go by: the chain of an installation, or the inputs
        retained for the Run, looked for only when no result names them. */
    method FindRecovery() returns (ok: bool, retained: Option<nat>)
      requires Valid() && InHand()
      modifies this`store, this`history, this`torn
      ensures Continues() && torn == old(torn) && InHand() && Drift(old(store), store) && Variety() == old(Variety())
      ensures ok && !Variety().HostInstall? ==> retained.Some? && (state.recovery.Some? ==> retained == state.recovery)
      ensures ok && Variety().HostInstall? ==> retained == state.recovery
    {
      hide Safe, Forward, Legible, Illegible, Sound, Kept, Hosts, Working, Core;
      NothingDrifts(store);
      ok := *;
      retained := state.recovery;
      if !ok || Variety().HostInstall? { return; }
      if state.recovery.None? {
        if state.invocation.None? { return false, None; }
        var completed: Option<Completed>;
        ok, completed := ReadResult();
        if !ok || completed.Some? { return false, None; }
      }
      var found: nat := *;
      ok := state.recovery.None? || state.recovery == Some(found);
      retained := Some(found);
    }

    /** Which saves after a newly found proof are refused by `load`. */
    lemma TornExactly()
      requires Valid() && Synced() && Anchored(Variety(), state) && !state.phase.Settled?
      requires state.invocation.None? ==> state.terminated && state.closed && Files().proof && (Variety().HostInstall? ==> state.verdict.Fail?)
      ensures Readable(store.executions[id], id) <==> (state.invocation.None? ==> !Exposed(Variety(), state))
    {
      Now();
      assert Kept(store.executions[id], id);
      ReadableExactly(store.executions[id], id);
    }

    // ----- commands -----

    /** `load`: a record that is absent or not readable is an error. */
    method LoadRecord() returns (ok: bool)
      requires Valid() && id in store.executions
      modifies this`state
      ensures ok <==> Readable(store.executions[id], id)
      ensures ok ==> Synced() && (!state.phase.Settled? ==> InHand())
    {
      hide Safe, Forward, Legible, Illegible, Sound, Kept, Working;
      Now();
      ok := Readable(store.executions[id], id);
      if ok {
        state := store.executions[id].record.value;
        if !state.phase.Settled? { LoadedWorks(store, id, state); }
      }
    }

    /** Every other execution must load and be settled. */
    method AllSettled() returns (ok: bool)
      requires Valid()
      ensures ok ==> forall a :: a in store.executions ==> !store.executions[a].Open()
    {
      var rest := store.executions.Keys;
      while rest != {}
        invariant rest <= store.executions.Keys
        invariant forall a :: a in store.executions && a !in rest ==> !store.executions[a].Open()
      {
        var a :| a in rest;
        if !Readable(store.executions[a], a) || !store.executions[a].record.value.phase.Settled? { return false; }
        rest := rest - {a};
      }
      ok := true;
    }

    /** `start` of a new execution. `unanchored` when the installation anchor
        could not be created: what the handler then saves is refused by `load`,
        and nothing else that `start` saves is. */
    method Start(variant: Variant) returns (ok: bool, ghost unanchored: bool, ghost handled: bool)
      requires Valid() && id !in store.executions
      modifies this`store, this`history, this`torn, this`state
      ensures Continues() && (ok ==> Synced() && state.phase.Running? && state.attempt == 1)
      ensures ok ==> forall a :: a in old(store).executions ==> !old(store).executions[a].Open()
      ensures StartsOne() && (store == old(store) || OthersSettled(old(store), id))
      ensures torn == (old(torn) || (unanchored && handled))
      ensures unanchored ==> variant.HostInstall?
    {
      hide Safe, Forward, Legible, Illegible, Sound, Kept, Working, Core, Hosts, Readable;
      unanchored, handled := false, false;
      var created: bool;
      created := Create(variant);
      if !created { return false, false, false; }
      ok, unanchored := Prepare();
      if ok { ok := LaunchAttempt(Baseline); }
      if !ok {
        UnresolvedWorks(store, id, state);
        Now();
        state := state.(phase := Unresolved, closed := true);
        var saved := Save();
        handled := saved;
        if saved { StartHandled(); }
      }
    }

    /** Up to the first save, outside the handler. */
    method Create(variant: Variant) returns (ok: bool)
      requires Valid() && id !in store.executions
      modifies this`store, this`history, this`torn, this`state
      ensures Continues() && torn == old(torn) && store.launches == old(store).launches
      ensures store == old(store) || OthersSettled(old(store), id)
      ensures ok ==> InHand() && Synced() && state == ACCEPTED && Variety() == variant && store.live == {}
      ensures ok ==> forall a :: a in old(store).executions ==> !old(store).executions[a].Open()
    {
      hide Safe, Forward, Legible, Illegible, Sound, Kept, Working, Core, Hosts, Readable;
      ok := AllSettled();
      if !ok { return; }
      ghost var before := store;
      Evolve();
      DriftsSteady(before, store);
      var observed: bool := *;
      if !observed || store.live != {} { return false; }
      Now();
      CreatedSafe(store, id, variant);
      Commit(store.(executions := store.executions[id := Execution(variant, None, map[])]));
      var saved: bool := *;
      if !saved { return false; }
      Now();
      FirstRecordSafe(store, id);
      state := ACCEPTED;
      Commit(Recorded(store, id, state));
    }

    /** Snapshot the inputs and, for an installation, create its anchor. */
    method Prepare() returns (ok: bool, ghost unanchored: bool)
      requires Valid() && InHand() && Synced() && state == ACCEPTED && store.live == {}
      modifies this`store, this`history, this`torn, this`state
      ensures Continues() && torn == old(torn) && InHand() && Variety() == old(Variety()) && store.live == {}
      ensures state.attempt == 0 && !state.closed && state.invocation.None? && !state.terminated && state.verdict.NotRun?
      ensures store.launches == old(store).launches
      ensures ok ==> Synced() && Anchored(Variety(), state) && state.inputs
      ensures unanchored <==> !Anchored(Variety(), state)
    {
      hide Safe, Forward, Legible, Illegible, Sound, Kept, Hosts, Readable;
      unanchored := false;
      var snapshot, anchored: bool := *, *;
      if !snapshot { return false, false; }
      state := state.(inputs := true);
      if Variety().HostInstall? {
        if !anchored { return false, true; }
        var anchor: nat := *;
        state := state.(recovery := Some(anchor));
      }
      ok := Save();
      if ok { SavedReadable(); }
    }

    /** What the handler of `start` leaves behind. */
    lemma StartHandled()
      requires Valid() && Synced() && (state.invocation.None? ==> !state.terminated)
      ensures Readable(store.executions[id], id) <==> Anchored(Variety(), state)
    {
      Now();
      assert Kept(store.executions[id], id);
      ReadableExactly(store.executions[id], id);
    }

    /** `dispatch`, under the controller's lock. `gap` when an anchor could not
        be created or `terminate` first found a proof for an exposed record:
        without one, every record saved can be loaded again. */
    method Dispatch(command: Command) returns (ok: bool, receipt: Option<State>, ghost gap: bool)
      requires Valid()
      modifies this
      ensures Continues() && (torn ==> old(torn) || gap)
      ensures ok ==> command.id in store.executions && store.executions[command.id].record == receipt && receipt.Some?
      ensures ok && (command.Stop? || command.RecoverProof?) ==> receipt.value.phase.Settled? || receipt.value.phase.Recovering?
      // A command starts at most one worker, of its own execution, and a status
      // none; a start repeated is only answered.
      ensures store.launches == old(store).launches
              || (|store.launches| == |old(store).launches| + 1 && old(store).launches <= store.launches
                  && store.launches[|old(store).launches|].execution == command.id)
      ensures command.Status? || (command.StartProof? && command.id in old(store).executions) ==> store.launches == old(store).launches
      ensures command.StartProof? && command.id in old(store).executions ==> store == old(store)
      ensures !command.StartProof? && command.id !in old(store).executions ==> !ok && store == old(store)
      ensures OthersKept(old(store), store, command.id)
    {
      hide Safe, Forward, Legible, Illegible, Sound, Kept, Working, Core, Hosts, Readable, Advances;
      receipt, gap := None, false;
      id := command.id;
      if id !in store.executions {
        if !command.StartProof? { return false, None, false; }
        ghost var handled;
        ok, gap, handled := Start(command.variant);
      } else {
        ok := LoadRecord();
        if ok && !command.StartProof? && !state.phase.Settled? {
          OnlyOpen();
          if command.Status? {
            UnreleasedFacts(store.executions[id], id);
            ok := Reconcile();
          } else {
            ghost var wrote;
            ok, gap, wrote := Recover();
          }
        }
      }
      if ok { receipt := Some(state); }
      Others(old(history), command.id);
    }

    lemma OnlyOpen()
      requires Valid() && Synced() && !state.phase.Settled?
      ensures OthersSettled(store, id)
    {
      Now();
    }

    /** Whatever was done for one execution, with all others settled, left the
        records of the others as they were. */
    lemma Others(before: seq<Store>, mine: nat)
      requires Valid() && before <= history && |before| > 0
      requires OthersSettled(before[|before| - 1], mine) || store == before[|before| - 1]
      ensures OthersKept(before[|before| - 1], store, mine)
    {
      hide Safe, Forward, Legible, Illegible, OthersSettled, OthersKept;
      var first := before[|before| - 1];
      if store == first {
        SameKept(first, mine);
      } else {
        assert history[|before| - 1] == first;
        HistoryForward(history, |before| - 1, |history| - 1);
        SettledKept(first, store, mine);
      }
    }

    /** A crash, and the controller started again: what was durable at moment
        `k` is all there is. */
    method Restart(k: nat)
      requires Valid() && k < |history|
      modifies this
      ensures Valid() && history == old(history)[..k + 1] && (torn ==> old(torn))
    {
      hide Safe, Forward, Legible;
      ghost var before := history;
      store, history := history[k], history[..k + 1];
      torn := Illegible(history);
      if torn {
        var n :| 0 <= n < |history| && !Legible(history[n]);
        assert before[n] == history[n];
      }
    }
  }

  ghost predicate OthersSettled(m: Store, mine: nat) {
    forall a :: a in m.executions && a != mine ==> !m.executions[a].Open()
  }

  /** Of every other execution the record is the same. */
  ghost predicate OthersKept(before: Store, after: Store, mine: nat) {
    forall a :: a in before.executions && a != mine ==> a in after.executions && after.executions[a].record == before.executions[a].record
  }

  lemma SameKept(m: Store, mine: nat)
    ensures OthersKept(m, m, mine)
  {
  }

  lemma SettledKept(before: Store, after: Store, mine: nat)
    requires Forward(before, after) && OthersSettled(before, mine)
    ensures OthersKept(before, after, mine)
  {
    forall a | a in before.executions && a != mine
      ensures a in after.executions && after.executions[a].record == before.executions[a].record
    {
      assert Onward(before.executions[a], after.executions[a]);
    }
  }

  const NOTHING := Store(map[], {}, [])

  /** From an empty root, any commands, each of which may crash at any moment:
      what follows is the history of the root, and as long as no command met a
      gap, every record ever saved can be loaded again. */
  method Serve(commands: seq<Command>, inspects: bool, able: bool) returns (controller: Controller, ghost gapped: bool)
    ensures fresh(controller) && controller.Valid() && controller.history[0] == NOTHING
    ensures controller.torn ==> gapped
  {
    hide Safe, Forward, Legible, Sound, Illegible;
    NothingSafe();
    controller := new Controller(inspects, able, NOTHING);
    gapped := false;
    FirstLegible(controller);
    for n := 0 to |commands|
      invariant fresh(controller) && controller.Valid() && controller.history[0] == NOTHING
      invariant controller.torn ==> gapped
    {
      var served := |controller.history|;
      ghost var gap: bool;
      var ok, receipt;
      ok, receipt, gap := controller.Dispatch(commands[n]);
      gapped := gapped || gap;
      var crashes: bool := *;
      var k: nat := *;
      if crashes && served <= k + 1 <= |controller.history| {
        controller.Restart(k);
      }
    }
  }

  lemma NothingSafe()
    ensures Safe(NOTHING) && Legible(NOTHING)
  {
  }

  lemma FirstLegible(controller: Controller)
    requires controller.Valid() && controller.history == [NOTHING]
    ensures !controller.torn
  {
    NothingSafe();
  }

  lemma EvolvedDrifts(m: Store, worker: Invocation, trail: Trail, ends: bool)
    requires Safe(m) && worker in m.live && Publishes(worker, m.executions[worker.execution].At(worker.attempt), trail)
    ensures Drift(m, Evolved(m, worker, trail, ends))
  {
    var after := Evolved(m, worker, trail, ends);
    forall id | id in m.executions ensures Drifts(m.executions[id], after.executions[id]) {
      if id == worker.execution {
        assert Kept(m.executions[id], id) && Hosts(m.executions[id], worker);
        TrailedKept(m.executions[id], id, worker.attempt, trail);
      }
    }
  }

  lemma NothingDrifts(m: Store)
    ensures Drift(m, m)
  {
  }

  ghost predicate Steady(before: Store, after: Store) {
    && after.executions.Keys == before.executions.Keys && after.launches == before.launches && after.live <= before.live
    && forall id :: id in before.executions ==>
         after.executions[id].record == before.executions[id].record && after.executions[id].variant == before.executions[id].variant
  }

  lemma DriftsSteady(before: Store, after: Store)
    requires Drift(before, after)
    ensures Steady(before, after)
  {
  }

  lemma FilesCohere(m: Store, id: nat, attempt: nat)
    requires Safe(m) && id in m.executions
    ensures Coherent(m.executions[id].At(attempt), id, attempt) && (attempt == 0 ==> m.executions[id].At(attempt) == UNTOUCHED)
  {
    assert Kept(m.executions[id], id);
  }

  lemma SteadyTransitive(a: Store, b: Store, c: Store)
    requires Steady(a, b) && Steady(b, c)
    ensures Steady(a, c)
  {
  }

  lemma DriftTransitive(a: Store, b: Store, c: Store)
    requires Drift(a, b) && Drift(b, c)
    ensures Drift(a, c)
  {
    forall id | id in a.executions ensures Drifts(a.executions[id], c.executions[id]) {
      assert Drifts(a.executions[id], b.executions[id]) && Drifts(b.executions[id], c.executions[id]);
      forall n ensures TrailOnward(a.executions[id].At(n), c.executions[id].At(n)) {
        assert TrailOnward(a.executions[id].At(n), b.executions[id].At(n)) && TrailOnward(b.executions[id].At(n), c.executions[id].At(n));
      }
    }
  }

  lemma DriftKeeps(before: Store, after: Store, id: nat, attempt: nat)
    requires Drift(before, after) && id in before.executions
    ensures id in after.executions && after.executions[id].record == before.executions[id].record
    ensures before.executions[id].At(attempt).native.Some? ==>
              after.executions[id].At(attempt).native == before.executions[id].At(attempt).native
  {
    assert Drifts(before.executions[id], after.executions[id]);
    assert TrailOnward(before.executions[id].At(attempt), after.executions[id].At(attempt));
  }

  lemma UnchangedTrail(m: Store, worker: Invocation)
    requires Safe(m) && worker in m.live
    ensures worker.execution in m.executions
    ensures Publishes(worker, m.executions[worker.execution].At(worker.attempt), m.executions[worker.execution].At(worker.attempt))
  {
    assert Hosts(m.executions[worker.execution], worker) && Kept(m.executions[worker.execution], worker.execution);
  }

  /** A running worker is of the only open execution, and the one its current
      attempt published. */
  lemma LiveIsMine(m: Store, id: nat, state: State)
    requires Safe(m) && Working(m, id, state) && m.executions[id].record.Some?
    ensures m.executions[id].record.value.attempt == state.attempt && m.executions[id].At(state.attempt).native.Some? ==>
              forall i :: i in m.live ==> i == m.executions[id].At(state.attempt).native.value
  {
    forall i | i in m.live && m.executions[id].record.value.attempt == state.attempt && m.executions[id].At(state.attempt).native.Some?
      ensures i == m.executions[id].At(state.attempt).native.value
    {
      assert Hosts(m.executions[i.execution], i) && m.executions[i.execution].Open() && m.executions[id].Open();
    }
  }

  lemma TerminatedWorks(m: Store, id: nat, state: State)
    requires Working(m, id, state) && m.live == {} && state.attempt > 0
    requires state.invocation.None? ==> m.executions[id].At(state.attempt).proof
    ensures Working(m, id, state.(terminated := true))
  {
  }

  lemma WithheldWorks(m: Store, id: nat, state: State, worker: Invocation)
    requires Working(m, id, state) && state.attempt > 0 && m.executions[id].At(state.attempt).native == Some(worker)
    requires m.executions[id].variant.HostInstall? ==> !state.verdict.Pass?
    requires state.invocation.Some? ==> state.invocation.value == worker
    ensures Working(m, id, state.(invocation := Some(worker), closed := true, phase := Unresolved))
  {
  }

  lemma GoneWorks(m: Store, id: nat, state: State)
    requires Working(m, id, state) && m.live == {} && state.invocation.Some?
    ensures Working(m, id, state.(terminated := true, verdict := Fail))
    ensures state.closed && state.attempt == 1 ==> Working(m, id, state.(terminated := true, verdict := Fail, phase := Settled, cleaned := true))
  {
  }

  lemma UnreleasedWorks(m: Store, id: nat, state: State)
    requires Working(m, id, state) && m.live == {} && state.attempt > 0 && state.invocation.None?
    requires m.executions[id].variant.HostInstall? ==> !state.verdict.Pass?
    requires m.executions[id].At(state.attempt).proof
    ensures var ended := state.(closed := true, terminated := true, phase := Unresolved);
            && Working(m, id, ended)
            && (state.attempt == 1 ==> Working(m, id, ended.(verdict := Fail)))
            && (state.attempt == 1 && !m.executions[id].variant.HostInstall? ==>
                  Working(m, id, ended.(verdict := Fail, phase := Settled, cleaned := true)))
  {
  }

  lemma HandFacts(m: Store, id: nat, state: State)
    requires Working(m, id, state)
    ensures m.executions[id].Open()
    ensures state.attempt > 1 ==> !state.verdict.NotRun? && state.closed && state.recovery.Some?
    ensures state.attempt > 0 ==> state.inputs && (m.executions[id].variant.HostInstall? ==> state.recovery.Some?)
    ensures state.attempt == 0 ==> state.invocation.None? && !state.terminated
    ensures state.invocation.Some? ==> m.executions[id].At(state.attempt).native == state.invocation
    ensures state.invocation.None? && state.terminated ==> m.executions[id].At(state.attempt).proof
    ensures state.invocation.None? && state.attempt <= 1 ==> if m.executions[id].variant.HostInstall? then !state.cleaned else state.recovery.None?
    ensures m.executions[id].record == Some(state) && m.executions[id].variant.HostInstall? ==> !state.verdict.Pass?
  {
  }

  /** What the result of a finished worker may change in the record. */
  lemma ConcludedWorks(m: Store, id: nat, state: State, next: State)
    requires Working(m, id, state) && m.live == {} && state.invocation.Some? && state.closed && state.terminated
    requires next == state.(verdict := next.verdict, cleaned := next.cleaned, recovery := next.recovery, phase := next.phase)
    requires Advances(state, next.(phase := state.phase)) || Advances(state, next)
    requires next.verdict.Pass? ==> state.verdict.Pass? || FirstPassed(m.executions[id])
    requires next.phase == state.phase || next.phase.Unresolved? || (next.phase.Settled? && next.cleaned && !next.verdict.NotRun?)
    requires PassSettled(m.executions[id].variant, next)
    requires state.phase.Settled? ==> next == state
    ensures Working(m, id, next)
  {
  }

  lemma EndedWorks(m: Store, id: nat, state: State)
    requires Working(m, id, state) && m.live == {} && state.invocation.Some?
    ensures Working(m, id, state.(terminated := true, closed := true))
  {
  }

  /** What the handlers of `start` and `recover` do with the record. */
  lemma UnresolvedWorks(m: Store, id: nat, state: State)
    requires Working(m, id, state)
    requires m.executions[id].variant.HostInstall? ==> !state.verdict.Pass?
    ensures Working(m, id, state.(phase := Unresolved, closed := true))
  {
  }

  /** No worker was ever started for the attempt after the saved one. */
  lemma FreshAttempt(m: Store, id: nat, state: State)
    requires Safe(m) && id in m.executions && m.executions[id].record == Some(state)
    ensures m.executions[id].At(state.attempt + 1) == UNTOUCHED
    ensures forall k :: 0 <= k < |m.launches| && m.launches[k].execution == id ==> m.launches[k].attempt < state.attempt + 1
  {
    assert Kept(m.executions[id], id);
    assert forall k :: 0 <= k < |m.launches| ==> Issued(m, m.launches[k]);
  }

  lemma StartingWorks(m: Store, id: nat, state: State)
    requires Working(m, id, state) && m.live == {} && state.attempt < MAX_ATTEMPTS && state.inputs
    requires m.executions[id].variant.HostInstall? ==> !state.verdict.Pass?
    requires Anchored(m.executions[id].variant, state)
    requires state.attempt > 0 ==> state.closed && state.recovery.Some? && !state.verdict.NotRun?
    ensures Working(m, id, state.(attempt := state.attempt + 1, phase := Starting, invocation := None, terminated := false))
  {
  }

  lemma RunningWorks(m: Store, id: nat, state: State, worker: Invocation, phase: Phase)
    requires Working(m, id, state) && m.executions[id].record == Some(state) && state.attempt > 0
    requires state.invocation.None? && !state.terminated
    requires m.executions[id].At(state.attempt).native == Some(worker) && (phase.Running? || phase.Recovering?)
    ensures Working(m, id, state.(invocation := Some(worker), phase := phase))
  {
  }

  lemma ClosedWorks(m: Store, id: nat, state: State)
    requires Working(m, id, state) && !state.phase.Settled?
    ensures Working(m, id, state.(closed := true))
    ensures Working(m, id, state.(closed := true, verdict := Fail))
  {
  }

  lemma KeptWorks(m: Store, id: nat, state: State, recovery: Option<nat>)
    requires Working(m, id, state) && !state.phase.Settled? && (state.recovery.Some? ==> recovery == state.recovery)
    requires state.invocation.Some? || state.attempt > 1 || m.executions[id].variant.HostInstall?
    ensures Working(m, id, state.(verdict := Fail)) && Advances(state, state.(verdict := Fail))
    ensures recovery.Some? ==> Working(m, id, state.(recovery := recovery)) && Advances(state, state.(recovery := recovery))
  {
  }

  lemma RecoveringFacts(m: Store, id: nat, state: State)
    requires Working(m, id, state) && state.phase.Recovering?
    ensures state.invocation.Some?
  {
  }

  lemma NoChange(state: State)
    ensures Advances(state, state)
  {
  }

  lemma ProofStays(before: Store, after: Store, id: nat, attempt: nat)
    requires Drift(before, after) && id in before.executions
    ensures after.live <= before.live && after.launches == before.launches
    ensures id in after.executions && after.executions[id].At(attempt).proof == before.executions[id].At(attempt).proof
  {
    assert Drifts(before.executions[id], after.executions[id]);
  }

  lemma UnreleasedStays(state: State, e: Execution, e': Execution)
    requires e'.variant == e.variant && e'.At(state.attempt).proof == e.At(state.attempt).proof
    ensures ProvenUnreleased(state, e) <==> ProvenUnreleased(state, e')
  {
  }

  lemma KeptUnreleased(before: State, after: State, e: Execution, e': Execution)
    requires before.invocation.None? ==> ProvenUnreleased(before, e)
    requires e'.variant == e.variant && e'.At(before.attempt).proof == e.At(before.attempt).proof
    requires if e.variant.HostInstall? then after == before.(verdict := Fail) else after == before.(recovery := after.recovery) && after.recovery.Some?
    requires before.invocation.None? ==> before.attempt > 1 || e.variant.HostInstall?
    ensures before.invocation.None? ==> ProvenUnreleased(after, e')
  {
  }

  lemma UnreleasedKind(state: State, e: Execution)
    requires ProvenUnreleased(state, e) && !state.phase.Settled?
    ensures state.attempt > 1 || e.variant.HostInstall?
  {
  }

  lemma UnreleasedFacts(e: Execution, id: nat)
    requires Readable(e, id)
    ensures Anchored(e.variant, e.record.value)
    ensures e.record.value.invocation.None? && e.record.value.terminated ==> ProvenUnreleased(e.record.value, e)
  {
  }

  /** The record the handlers save is refused by `load` only for a first
      attempt proven to have released nothing. */
  lemma HandlerReadable(m: Store, id: nat, state: State)
    requires Working(m, id, state) && Safe(m) && Anchored(m.executions[id].variant, state)
    requires m.executions[id].variant.HostInstall? ==> !state.verdict.Pass?
    requires m.executions[id].variant.HostInstall? ==> state.verdict.Fail? || state.invocation.Some? || !state.terminated
    ensures var after := m.executions[id].(record := Some(state.(phase := Unresolved, closed := true)));
            Readable(after, id) <==>
              !(state.invocation.None? && state.terminated && state.attempt == 1 && !m.executions[id].variant.HostInstall?)
  {
    var next := state.(phase := Unresolved, closed := true);
    var e := m.executions[id];
    var after := e.(record := Some(next));
    assert Kept(e, id);
    assert forall n :: after.At(n) == e.At(n);
    assert Kept(after, id);
    ReadableExactly(after, id);
  }

  // ----- what every history shows, whatever the commands and crashes -----

  /** After a crash at any moment the controller starts again from what was
      durable then, and the surviving history is one sound history. */
  lemma CrashedHistory(before: seq<Store>, k: nat, after: seq<Store>)
    requires Sound(before) && k < |before| && |after| > 0 && Sound(after) && after[0] == before[k]
    ensures Safe(before[k]) && Sound(before[..k] + after)
  {
    hide Safe, Forward;
    var survived := before[..k] + after;
    forall n | 0 < n < |survived| ensures Forward(survived[n - 1], survived[n]) {
      if n == k {
        assert survived[n] == before[k];
      } else if n > k {
        assert survived[n - 1] == after[n - 1 - k] && survived[n] == after[n - k];
      }
    }
  }

  lemma {:induction false} HistoryForward(history: seq<Store>, i: nat, j: nat)
    requires Sound(history) && i <= j < |history|
    ensures Forward(history[i], history[j])
    decreases j
  {
    hide Safe, Forward;
    if i == j {
      ForwardReflexive(history[i]);
    } else {
      HistoryForward(history, i, j - 1);
      ForwardTransitive(history[i], history[j - 1], history[j]);
    }
  }

  lemma ForwardReflexive(m: Store)
    ensures Forward(m, m)
  {
  }

  /** At every moment at most one worker runs, of the only execution that is
      not settled, in its current attempt, which is not recorded as terminated. */
  lemma OneWorker(history: seq<Store>, k: nat, worker: Invocation)
    requires Sound(history) && k < |history| && worker in history[k].live
    ensures history[k].live == {worker} && worker.execution in history[k].executions
    ensures var e := history[k].executions[worker.execution];
            && e.record.Some? && !e.record.value.phase.Settled? && !e.record.value.terminated && e.record.value.attempt == worker.attempt
    ensures forall a :: a in history[k].executions && a != worker.execution ==>
              history[k].executions[a].record.Some? && history[k].executions[a].record.value.phase.Settled?
  {
    assert Safe(history[k]);
    var m := history[k];
    assert Hosts(m.executions[worker.execution], worker);
    assert m.executions[worker.execution].Open();
    assert forall a :: a in m.executions && a != worker.execution ==> !m.executions[a].Open();
  }

  /** No attempt is started twice, and later starts of an execution are of
      higher attempts. */
  lemma AttemptsIncrease(history: seq<Store>, k: nat, i: nat, j: nat)
    requires Sound(history) && k < |history| && i < j < |history[k].launches|
    requires history[k].launches[i].execution == history[k].launches[j].execution
    ensures history[k].launches[i].attempt < history[k].launches[j].attempt
    ensures forall l :: k <= l < |history| ==> history[k].launches <= history[l].launches
  {
    assert Safe(history[k]);
    forall l | k <= l < |history| ensures history[k].launches <= history[l].launches {
      HistoryForward(history, k, l);
    }
  }

  /** `closed` and `settled` are never undone, attempts never go back, a
      failed verdict stays failed, the first retained Run stays retained. */
  lemma NeverUndone(history: seq<Store>, i: nat, j: nat, id: nat)
    requires Sound(history) && i <= j < |history| && id in history[i].executions && history[i].executions[id].record.Some?
    ensures id in history[j].executions && history[j].executions[id].record.Some?
    ensures var before, after := history[i].executions[id].record.value, history[j].executions[id].record.value;
            && (before.closed ==> after.closed) && (before.phase.Settled? ==> after == before)
            && before.attempt <= after.attempt && (before.verdict.Fail? ==> after.verdict.Fail?)
            && (before.recovery.Some? ==> after.recovery == before.recovery)
  {
    HistoryForward(history, i, j);
    assert Onward(history[i].executions[id], history[j].executions[id]);
  }

  /** A pass comes from attempt 1's own result, and that result stays. */
  lemma PassIsFirst(history: seq<Store>, i: nat, j: nat, id: nat)
    requires Sound(history) && i <= j < |history| && id in history[i].executions && history[i].executions[id].record.Some?
    requires history[i].executions[id].record.value.verdict.Pass?
    ensures id in history[j].executions && FirstPassed(history[j].executions[id])
  {
    assert Safe(history[i]) && Kept(history[i].executions[id], id);
    HistoryForward(history, i, j);
    assert Onward(history[i].executions[id], history[j].executions[id]);
    assert TrailOnward(history[i].executions[id].At(1), history[j].executions[id].At(1));
  }

  /** An installation is recorded as passed only once its removal is proven and
      the execution settled. */
  lemma InstallPassIsProven(history: seq<Store>, k: nat, id: nat)
    requires Sound(history) && k < |history| && id in history[k].executions && history[k].executions[id].record.Some?
    requires history[k].executions[id].variant.HostInstall? && history[k].executions[id].record.value.verdict.Pass?
    ensures var state := history[k].executions[id].record.value;
            state.cleaned && state.phase == Settled && state.closed && state.terminated
  {
    assert Safe(history[k]) && Kept(history[k].executions[id], id);
  }

  lemma LoadedWorks(m: Store, id: nat, state: State)
    requires Safe(m) && id in m.executions && m.executions[id].record == Some(state) && !state.phase.Settled?
    ensures Working(m, id, state)
  {
    var e := m.executions[id];
    assert Kept(e, id);
    forall i | i in m.live ensures i.execution == id && Hosts(e.(record := Some(state)), i) {
      assert Hosts(m.executions[i.execution], i);
      assert m.executions[i.execution].Open();
      assert e.(record := Some(state)) == e;
    }
  }
}
