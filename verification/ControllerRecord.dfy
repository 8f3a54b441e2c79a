/**
 The execution records of the proof controller and the files and processes of
 the service beside them. `Readable` is the predicate a record must meet to be
 loaded again; `Safe` is what every durable change keeps, whichever save or
 service call it is.
 */
module ControllerRecord {
  import opened Options

  datatype Variant = BaselineProof | NamedTarget | HostInstall
  datatype Phase = Accepted | Starting | Running | Recovering | Unresolved | Settled
  datatype Verdict = NotRun | Pass | Fail
  datatype Mode = Baseline | Recover

  /** One started worker process: of which execution and attempt, and which
      boot and service invocation it is. */
  datatype Invocation = Invocation(execution: nat, attempt: nat, boot: nat, serial: nat)

  /** `execution.json`, without the fields that never change. */
  datatype State = State(
    phase: Phase, closed: bool, attempt: nat, inputs: bool, invocation: Option<Invocation>,
    terminated: bool, cleaned: bool, verdict: Verdict, recovery: Option<nat>)

  const ACCEPTED := State(Accepted, false, 0, false, None, false, false, NotRun, None)

  /** A worker's result file; `cleanup` holds when the result proves that
      nothing is left, for an installation against its checkpoint chain. */
  datatype Completed = Completed(invocation: Invocation, mode: Mode, wellFormed: bool, status: Verdict, cleanup: bool, run: Option<nat>)

  /** The files of one attempt: the native receipt, the startup failure with
      its start command, the published proof that nothing was released, the
      authorization, and the result. */
  datatype Trail = Trail(native: Option<Invocation>, failure: bool, proof: bool, authorized: bool, completed: Option<Completed>)

  const UNTOUCHED := Trail(None, false, false, false, None)

  /** One control directory; `record` is absent until the first save. */
  datatype Execution = Execution(variant: Variant, record: Option<State>, trails: map<nat, Trail>)
  {
    function At(attempt: nat): Trail { if attempt in trails then trails[attempt] else UNTOUCHED }
    predicate Open() { record.None? || !record.value.phase.Settled? }
  }

  function ModeOf(attempt: nat): Mode { if attempt == 1 then Baseline else Recover }

  // ----- what load accepts -----

  /** An execution whose termination is proven without an invocation must show
      the published proof that its attempt released nothing. */
  predicate ProvenUnreleased(state: State, e: Execution) {
    && e.At(state.attempt).proof && state.attempt > 0 && state.closed && state.inputs
    && (if ModeOf(state.attempt).Baseline? then
          && state.attempt == 1 && state.verdict.Fail?
          && (if e.variant.HostInstall? then state.phase.Unresolved? && !state.cleaned && state.recovery.Some?
              else state.phase.Settled? && state.cleaned && state.recovery.None?)
        else state.attempt > 1 && state.phase.Unresolved? && state.recovery.Some?)
  }

  /** `Controller.load`. */
  predicate Readable(e: Execution, id: nat) {
    && e.record.Some?
    && var state := e.record.value;
       var unreleased := state.invocation.None? && state.terminated;
       && state.attempt <= 9999
       && (unreleased ==> ProvenUnreleased(state, e))
       && (state.phase.Settled? ==>
             && state.closed && state.terminated && state.cleaned && !state.verdict.NotRun?
             && (state.invocation.Some? || unreleased) && state.inputs)
       && (state.phase.Running? || state.phase.Recovering? ==> state.invocation.Some?)
       && (state.phase.Accepted? ==> state.attempt == 0 && state.invocation.None?)
       && (state.phase.Starting? ==> state.attempt > 0 && state.invocation.None? && state.inputs)
       && (state.terminated ==> state.invocation.Some? || unreleased)
       && (e.variant.HostInstall? && state.inputs ==> state.recovery.Some?)
       && (state.invocation.Some? ==> state.invocation.value.execution == id && state.invocation.value.attempt == state.attempt)
  }

  // ----- what every durable change keeps -----

  predicate Coherent(trail: Trail, id: nat, attempt: nat) {
    && (trail.native.Some? ==> trail.native.value.execution == id && trail.native.value.attempt == attempt)
    && (trail.failure ==> trail.native.None?)
    && (trail.proof ==> trail.failure)
    && (trail.authorized ==> trail.native.Some?)
    && (trail.completed.Some? ==> trail.authorized)
  }

  /** The evidence for a passing verdict: attempt 1's own result. */
  predicate FirstPassed(e: Execution) {
    && e.At(1).completed.Some? && e.At(1).native.Some?
    && e.At(1).completed.value.status.Pass? && e.At(1).completed.value.mode.Baseline?
    && e.At(1).completed.value.invocation == e.At(1).native.value
  }

  predicate PhaseFits(state: State, e: Execution) {
    match state.phase
    case Accepted => state.attempt == 0 && state.invocation.None?
    case Starting => state.attempt > 0 && state.invocation.None?
    case Running => state.invocation.Some?
    case Recovering => state.invocation.Some?
    case Unresolved => true
    case Settled => state.closed && state.terminated && state.cleaned && !state.verdict.NotRun?
  }

  /** An installation passes only with its removal proven. */
  predicate PassSettled(variant: Variant, state: State) {
    variant.HostInstall? && state.verdict.Pass? ==> state.cleaned && state.phase.Settled?
  }

  /** The record is one the controller can have reached with these files. */
  predicate Core(state: State, e: Execution, id: nat) {
    && state.attempt <= 9999
    && PhaseFits(state, e)
    && (state.attempt == 0 ==> state.invocation.None? && !state.terminated)
    && (state.attempt > 0 ==> state.inputs && (e.variant.HostInstall? ==> state.recovery.Some?))
    && (state.attempt > 1 ==> state.closed && state.recovery.Some? && !state.verdict.NotRun?)
    && (state.attempt <= 1 && state.invocation.None? ==> (if e.variant.HostInstall? then !state.cleaned else state.recovery.None?))
    && (state.invocation.None? && state.terminated ==> e.At(state.attempt).proof)
    && (state.invocation.Some? ==> e.At(state.attempt).native == state.invocation)
    && (state.verdict.Pass? ==> FirstPassed(e))
    && PassSettled(e.variant, state)
  }

  ghost predicate Kept(e: Execution, id: nat) {
    && (forall n: nat :: Coherent(e.At(n), id, n))
    && (forall n: nat :: (e.record.None? || n == 0 || n > e.record.value.attempt) ==> e.At(n) == UNTOUCHED)
    && (e.record.Some? ==> Core(e.record.value, e, id))
  }

  datatype Launch = Launch(execution: nat, attempt: nat)

  /** Everything durable, the running workers, and the starts issued so far. */
  datatype Store = Store(executions: map<nat, Execution>, live: set<Invocation>, launches: seq<Launch>)

  /** The execution that may still be running this worker: its current attempt,
      not settled, not believed terminated. */
  predicate Hosts(e: Execution, worker: Invocation) {
    && e.record.Some? && !e.record.value.phase.Settled? && !e.record.value.terminated
    && e.record.value.attempt == worker.attempt && worker.attempt > 0
    && (e.At(worker.attempt).native.Some? ==> e.At(worker.attempt).native.value == worker)
    && (e.record.value.invocation.Some? ==> e.record.value.invocation.value == worker)
  }

  ghost predicate OneOpen(m: Store) {
    forall a, b :: a in m.executions && b in m.executions && m.executions[a].Open() && m.executions[b].Open() ==> a == b
  }

  ghost predicate OneLive(m: Store) {
    && (forall i, j :: i in m.live && j in m.live ==> i == j)
    && (forall i :: i in m.live ==> i.execution in m.executions && Hosts(m.executions[i.execution], i))
  }

  /** Starts are issued for ever higher attempts of an execution. */
  ghost predicate LaunchedOnce(m: Store) {
    && (forall k :: 0 <= k < |m.launches| ==> Issued(m, m.launches[k]))
    && (forall j, k :: 0 <= j < k < |m.launches| && m.launches[j].execution == m.launches[k].execution ==>
          m.launches[j].attempt < m.launches[k].attempt)
  }

  predicate Issued(m: Store, launch: Launch) {
    && launch.execution in m.executions && m.executions[launch.execution].record.Some?
    && launch.attempt <= m.executions[launch.execution].record.value.attempt
  }

  ghost predicate Safe(m: Store) {
    && (forall id :: id in m.executions ==> Kept(m.executions[id], id))
    && OneOpen(m) && OneLive(m) && LaunchedOnce(m)
  }

  ghost predicate Legible(m: Store) {
    forall id :: id in m.executions && m.executions[id].record.Some? ==> Readable(m.executions[id], id)
  }

  // ----- what only moves forward -----

  predicate Advances(before: State, after: State) {
    && before.attempt <= after.attempt
    && (before.closed ==> after.closed) && (before.inputs ==> after.inputs)
    && (before.phase.Settled? ==> after == before)
    && (before.verdict.Fail? ==> after.verdict.Fail?) && (!before.verdict.NotRun? ==> !after.verdict.NotRun?)
    && (before.recovery.Some? ==> after.recovery == before.recovery)
    && (before.attempt == after.attempt && before.invocation.Some? ==> after.invocation == before.invocation)
    && (before.attempt == after.attempt && before.terminated ==> after.terminated)
  }

  predicate TrailOnward(before: Trail, after: Trail) {
    && (before.native.Some? ==> after.native == before.native)
    && (before.failure ==> after.failure) && (before.proof ==> after.proof) && (before.authorized ==> after.authorized)
    && (before.completed.Some? ==> after.completed == before.completed)
  }

  ghost predicate Onward(before: Execution, after: Execution) {
    && after.variant == before.variant
    && (before.record.Some? ==> after.record.Some? && Advances(before.record.value, after.record.value))
    && (forall n :: TrailOnward(before.At(n), after.At(n)))
  }

  ghost predicate Forward(before: Store, after: Store) {
    && (forall id :: id in before.executions ==> id in after.executions && Onward(before.executions[id], after.executions[id]))
    && before.launches <= after.launches
  }

  lemma ForwardTransitive(a: Store, b: Store, c: Store)
    requires Forward(a, b) && Forward(b, c)
    ensures Forward(a, c)
  {
    forall id | id in a.executions ensures id in c.executions && Onward(a.executions[id], c.executions[id]) {
      forall n ensures TrailOnward(a.executions[id].At(n), c.executions[id].At(n)) {
        assert TrailOnward(a.executions[id].At(n), b.executions[id].At(n));
        assert TrailOnward(b.executions[id].At(n), c.executions[id].At(n));
      }
    }
  }

  /** Exactly when a record the controller can reach is refused by `load`. */
  lemma ReadableExactly(e: Execution, id: nat)
    requires e.record.Some? && Kept(e, id)
    ensures var state := e.record.value;
            Readable(e, id) <==>
              && (e.variant.HostInstall? && state.inputs ==> state.recovery.Some?)
              && (state.invocation.None? && state.terminated ==> ProvenUnreleased(state, e))
  {
    assert Coherent(e.At(e.record.value.attempt), id, e.record.value.attempt);
  }

  // ----- the changes of the store -----

  function Recorded(m: Store, id: nat, state: State): Store
    requires id in m.executions
  {
    m.(executions := m.executions[id := m.executions[id].(record := Some(state))])
  }

  function Trailed(m: Store, id: nat, attempt: nat, trail: Trail): Store
    requires id in m.executions
  {
    m.(executions := m.executions[id := m.executions[id].(trails := m.executions[id].trails[attempt := trail])])
  }

  /** What a running worker and its supervisor may publish for themselves. */
  predicate Publishes(worker: Invocation, before: Trail, after: Trail) {
    && TrailOnward(before, after) && Coherent(after, worker.execution, worker.attempt)
    && after.proof == before.proof && after.authorized == before.authorized
    && (before.native.None? && after.native.Some? ==> after.native.value == worker)
  }

  /** A running worker publishes files and, possibly, ends. */
  function Evolved(m: Store, worker: Invocation, trail: Trail, ends: bool): Store
    requires worker.execution in m.executions
  {
    var published := Trailed(m, worker.execution, worker.attempt, trail);
    if ends then published.(live := m.live - {worker}) else published
  }

  lemma TrailedKept(e: Execution, id: nat, attempt: nat, trail: Trail)
    requires Kept(e, id) && e.record.Some? && 0 < attempt <= e.record.value.attempt
    requires TrailOnward(e.At(attempt), trail) && Coherent(trail, id, attempt)
    ensures Kept(e.(trails := e.trails[attempt := trail]), id)
    ensures Onward(e, e.(trails := e.trails[attempt := trail]))
    ensures forall n :: e.(trails := e.trails[attempt := trail]).At(n) == if n == attempt then trail else e.At(n)
  {
    var after := e.(trails := e.trails[attempt := trail]);
    assert forall n :: after.At(n) == if n == attempt then trail else e.At(n);
    assert Coherent(e.At(1), id, 1);
  }

  function Replaced(m: Store, id: nat, e: Execution, live: set<Invocation>): Store {
    Store(m.executions[id := e], live, m.launches)
  }

  lemma ReplacedForward(m: Store, id: nat, e: Execution, live: set<Invocation>)
    requires id in m.executions && Onward(m.executions[id], e)
    ensures Forward(m, Replaced(m, id, e, live))
  {
  }

  lemma ReplacedLaunches(m: Store, id: nat, e: Execution, live: set<Invocation>)
    requires LaunchedOnce(m) && id in m.executions && Onward(m.executions[id], e)
    ensures LaunchedOnce(Replaced(m, id, e, live))
  {
    forall k | 0 <= k < |m.launches| ensures Issued(Replaced(m, id, e, live), m.launches[k]) {
      assert Issued(m, m.launches[k]);
    }
  }

  /** Replacing the files of one execution, while workers only end. */
  lemma ReplacedSafe(m: Store, id: nat, e: Execution, live: set<Invocation>)
    requires Safe(m) && id in m.executions && live <= m.live
    requires Kept(e, id) && Onward(m.executions[id], e) && (e.Open() ==> m.executions[id].Open())
    requires forall i :: i in live && i.execution == id ==> Hosts(e, i)
    ensures Safe(Replaced(m, id, e, live)) && Forward(m, Replaced(m, id, e, live))
  {
    hide Kept, Hosts, Onward, Issued, Forward, LaunchedOnce;
    ReplacedForward(m, id, e, live);
    ReplacedLaunches(m, id, e, live);
  }

  lemma ReplacedLegible(m: Store, id: nat, e: Execution, live: set<Invocation>)
    requires id in m.executions
    requires (m.executions[id].record.Some? ==> Readable(m.executions[id], id)) <==> (e.record.Some? ==> Readable(e, id))
    ensures Legible(m) <==> Legible(Replaced(m, id, e, live))
  {
    hide Readable;
    var after := Replaced(m, id, e, live);
    assert forall a :: a in m.executions && a != id ==> after.executions[a] == m.executions[a];
    assert after.executions[id] == e;
    if Legible(after) {
      forall a | a in m.executions && m.executions[a].record.Some? ensures Readable(m.executions[a], a) {
        assert a in after.executions;
      }
    }
  }

  lemma EvolvedSafe(m: Store, worker: Invocation, trail: Trail, ends: bool)
    requires Safe(m) && worker in m.live
    requires Publishes(worker, m.executions[worker.execution].At(worker.attempt), trail)
    ensures Safe(Evolved(m, worker, trail, ends)) && Forward(m, Evolved(m, worker, trail, ends))
    ensures Legible(m) <==> Legible(Evolved(m, worker, trail, ends))
  {
    var id, e := worker.execution, m.executions[worker.execution];
    var e', live := e.(trails := e.trails[worker.attempt := trail]), if ends then m.live - {worker} else m.live;
    assert Kept(e, id) && Hosts(e, worker);
    TrailedKept(e, id, worker.attempt, trail);
    assert Readable(e, id) <==> Readable(e', id) by {
      ReadableExactly(e, id);
      ReadableExactly(e', id);
    }
    assert Evolved(m, worker, trail, ends) == Replaced(m, id, e', live);
    assert forall i :: i in live && i.execution == id ==> i == worker;
    assert Hosts(e', worker);
    hide Kept, Onward, Hosts, Readable;
    ReplacedSafe(m, id, e', live);
    ReplacedLegible(m, id, e', live);
  }

  // ----- one execution at work -----

  /** The record in hand could be saved now: it follows the saved one, fits
      the files, and no worker contradicts it. */
  ghost predicate Working(m: Store, id: nat, state: State) {
    && id in m.executions && m.executions[id].record.Some? && m.executions[id].Open()
    && Advances(m.executions[id].record.value, state)
    && Core(state, m.executions[id], id)
    && (forall i :: i in m.live ==> i.execution == id && Hosts(m.executions[id].(record := Some(state)), i))
  }

  /** What the environment does between two calls of the controller. */
  ghost predicate Drift(before: Store, after: Store) {
    && after.executions.Keys == before.executions.Keys && after.launches == before.launches && after.live <= before.live
    && forall id :: id in before.executions ==> Drifts(before.executions[id], after.executions[id])
  }

  ghost predicate Drifts(before: Execution, after: Execution) {
    && after.record == before.record && Onward(before, after)
    && forall n :: after.At(n).proof == before.At(n).proof && after.At(n).authorized == before.At(n).authorized
  }

  lemma WorkingDrifts(before: Store, after: Store, id: nat, state: State)
    requires Drift(before, after) && Safe(after) && Working(before, id, state)
    ensures Working(after, id, state)
  {
    var e, e' := before.executions[id], after.executions[id];
    assert Drifts(e, e');
    assert TrailOnward(e.At(state.attempt), e'.At(state.attempt)) && TrailOnward(e.At(1), e'.At(1));
    forall i | i in after.live ensures i.execution == id && Hosts(e'.(record := Some(state)), i) {
      assert i in before.live && Hosts(e.(record := Some(state)), i) && Hosts(e', i);
    }
  }

  lemma RecordedKept(m: Store, id: nat, state: State)
    requires Safe(m) && Working(m, id, state)
    ensures var e' := m.executions[id].(record := Some(state));
            Kept(e', id) && Onward(m.executions[id], e') && m.executions[id].Open()
            && forall i :: i in m.live ==> i.execution == id && Hosts(e', i)
    ensures !state.phase.Settled? ==> Working(Recorded(m, id, state), id, state)
  {
    var e := m.executions[id];
    var e' := e.(record := Some(state));
    assert forall n :: e'.At(n) == e.At(n);
    assert Kept(e, id);
  }

  lemma RecordedLegible(m: Store, id: nat, state: State)
    requires id in m.executions
    ensures Legible(m) ==> (Legible(Recorded(m, id, state)) <==> Readable(m.executions[id].(record := Some(state)), id))
  {
    hide Readable;
    var m' := Recorded(m, id, state);
    assert m'.executions[id] == m.executions[id].(record := Some(state));
    assert forall a :: a in m.executions && a != id ==> m'.executions[a] == m.executions[a];
  }

  lemma RecordedSafe(m: Store, id: nat, state: State)
    requires Safe(m) && Working(m, id, state)
    ensures Safe(Recorded(m, id, state)) && Forward(m, Recorded(m, id, state))
    ensures !state.phase.Settled? ==> Working(Recorded(m, id, state), id, state)
    ensures Legible(m) ==> (Legible(Recorded(m, id, state)) <==> Readable(m.executions[id].(record := Some(state)), id))
  {
    hide Safe, Kept, Onward, Hosts, Core, Legible, Readable, Forward;
    RecordedKept(m, id, state);
    RecordedLegible(m, id, state);
    assert Recorded(m, id, state) == Replaced(m, id, m.executions[id].(record := Some(state)), m.live);
    ReplacedSafe(m, id, m.executions[id].(record := Some(state)), m.live);
  }

  lemma AuthorizedSafe(m: Store, id: nat, state: State)
    requires Safe(m) && Working(m, id, state) && state.invocation.Some? && m.executions[id].record == Some(state)
    ensures var after := Trailed(m, id, state.attempt, m.executions[id].At(state.attempt).(authorized := true));
            Safe(after) && Forward(m, after) && Working(after, id, state) && (Legible(m) <==> Legible(after))
  {
    var e := m.executions[id];
    var trail := e.At(state.attempt).(authorized := true);
    var e' := e.(trails := e.trails[state.attempt := trail]);
    assert Kept(e, id) && Coherent(e.At(state.attempt), id, state.attempt);
    TrailedKept(e, id, state.attempt, trail);
    assert Trailed(m, id, state.attempt, trail) == Replaced(m, id, e', m.live);
    ReplacedSafe(m, id, e', m.live);
    ReadableExactly(e, id);
    ReadableExactly(e', id);
    ReplacedLegible(m, id, e', m.live);
  }

  lemma ProofSafe(m: Store, id: nat, state: State)
    requires Safe(m) && Working(m, id, state) && state.attempt > 0 && m.live == {}
    requires m.executions[id].At(state.attempt).failure
    requires m.executions[id].record.value.attempt == state.attempt
    ensures var after := Trailed(m, id, state.attempt, m.executions[id].At(state.attempt).(proof := true));
            Safe(after) && Forward(m, after) && Working(after, id, state) && (Legible(m) <==> Legible(after))
  {
    var e := m.executions[id];
    var trail := e.At(state.attempt).(proof := true);
    var e' := e.(trails := e.trails[state.attempt := trail]);
    assert Kept(e, id) && Coherent(e.At(state.attempt), id, state.attempt);
    TrailedKept(e, id, state.attempt, trail);
    assert Trailed(m, id, state.attempt, trail) == Replaced(m, id, e', m.live);
    ReplacedSafe(m, id, e', m.live);
    ReadableExactly(e, id);
    ReadableExactly(e', id);
    ReplacedLegible(m, id, e', m.live);
  }

  /** A worker of a fresh attempt may be started when none is running. */
  lemma LaunchedSafe(m: Store, worker: Invocation, state: State)
    requires Safe(m) && m.live == {} && Working(m, worker.execution, state)
    requires m.executions[worker.execution].record == Some(state)
    requires worker.attempt == state.attempt > 0 && state.invocation.None? && !state.terminated
    requires m.executions[worker.execution].At(worker.attempt) == UNTOUCHED
    requires forall k :: 0 <= k < |m.launches| && m.launches[k].execution == worker.execution ==> m.launches[k].attempt < worker.attempt
    ensures var after := Store(m.executions, {worker}, m.launches + [Launch(worker.execution, worker.attempt)]);
            Safe(after) && Forward(m, after) && Working(after, worker.execution, state) && (Legible(m) <==> Legible(after))
  {
    var after := Store(m.executions, {worker}, m.launches + [Launch(worker.execution, worker.attempt)]);
    forall k | 0 <= k < |after.launches| ensures Issued(after, after.launches[k]) {
      if k < |m.launches| { assert Issued(m, m.launches[k]); }
    }
    assert Hosts(m.executions[worker.execution], worker);
  }

  /** A new control directory, when every other execution is settled. */
  lemma CreatedSafe(m: Store, id: nat, variant: Variant)
    requires Safe(m) && id !in m.executions && m.live == {}
    requires forall a :: a in m.executions ==> !m.executions[a].Open()
    ensures var after := m.(executions := m.executions[id := Execution(variant, None, map[])]);
            Safe(after) && Forward(m, after) && (Legible(m) <==> Legible(after))
  {
    hide Kept, Readable, Hosts, Core, TrailOnward;
    var e := Execution(variant, None, map[]);
    var after := m.(executions := m.executions[id := e]);
    NewKept(variant, id);
    assert forall a :: a in m.executions ==> after.executions[a] == m.executions[a];
    forall a | a in m.executions ensures Onward(m.executions[a], after.executions[a]) {
      UnchangedOnward(m.executions[a]);
    }
    forall k | 0 <= k < |m.launches| ensures Issued(after, m.launches[k]) {
      assert Issued(m, m.launches[k]);
    }
  }

  lemma NewKept(variant: Variant, id: nat)
    ensures Kept(Execution(variant, None, map[]), id)
  {
  }

  lemma UnchangedOnward(e: Execution)
    ensures Onward(e, e)
  {
  }

  /** The first record of a new execution. */
  lemma FirstRecordSafe(m: Store, id: nat)
    requires Safe(m) && id in m.executions && m.executions[id].record.None? && m.live == {}
    ensures var after := Recorded(m, id, ACCEPTED);
            Safe(after) && Forward(m, after) && Working(after, id, ACCEPTED) && (Legible(m) <==> Legible(after))
  {
    var e := m.executions[id];
    var e' := e.(record := Some(ACCEPTED));
    assert Kept(e, id);
    assert forall n :: e'.At(n) == e.At(n) == UNTOUCHED;
    assert Kept(e', id) && Onward(e, e');
    ReplacedSafe(m, id, e', m.live);
    ReplacedLegible(m, id, e', m.live);
  }
}
