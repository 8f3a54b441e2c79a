/**
 The two ways the proof controller saves a record that its own `load` refuses,
 each as the durable states from an empty root up to that save.
 */
module ControllerCorners {
  import opened Options
  import opened ControllerRecord
  import opened ProofController

  /** The last state of a history. */
  function Latest(history: seq<Store>): Store
    requires |history| > 0
  {
    history[|history| - 1]
  }

  lemma OneSound(m: Store)
    requires Safe(m)
    ensures Sound([m])
  {
  }

  /** Up to the first record of the first execution. */
  lemma FirstRecord(variant: Variant) returns (history: seq<Store>)
    ensures |history| == 3 && Sound(history) && history[0] == NOTHING
    ensures Latest(history) == Store(map[0 := Execution(variant, Some(ACCEPTED), map[])], {}, [])
    ensures Working(Latest(history), 0, ACCEPTED) && Legible(Latest(history))
  {
    hide Safe, Forward, Legible, Working, Illegible, Sound, Kept, Onward, OneOpen, OneLive, LaunchedOnce;
    NothingSafe();
    OneSound(NOTHING);
    CreatedSafe(NOTHING, 0, variant);
    var created := NOTHING.(executions := NOTHING.executions[0 := Execution(variant, None, map[])]);
    Appended([NOTHING], created);
    FirstRecordSafe(created, 0);
    var next := Recorded(created, 0, ACCEPTED);
    Appended([NOTHING] + [created], next);
    history := [NOTHING] + [created] + [next];
    assert next.executions == map[0 := Execution(variant, Some(ACCEPTED), map[])];
  }

  lemma LatestSafe(history: seq<Store>)
    requires |history| > 0 && Sound(history)
    ensures Safe(Latest(history))
  {
  }

  /** One more save of a record that fits. */
  lemma Saved(history: seq<Store>, state: State) returns (longer: seq<Store>)
    requires |history| > 0 && Sound(history) && Working(Latest(history), 0, state)
    ensures longer == history + [Recorded(Latest(history), 0, state)] && Sound(longer)
    ensures !state.phase.Settled? ==> Working(Latest(longer), 0, state)
    ensures Legible(Latest(history)) ==> (Legible(Latest(longer)) <==> Readable(Latest(longer).executions[0], 0))
  {
    LatestSafe(history);
    assert 0 in Latest(history).executions;
    hide Forward, Legible, Working, Illegible, Readable;
    hide Safe, Sound;
    RecordedSafe(Latest(history), 0, state);
    Appended(history, Recorded(Latest(history), 0, state));
    longer := history + [Recorded(Latest(history), 0, state)];
  }

  const UNANCHORED := ACCEPTED.(inputs := true, phase := Unresolved, closed := true)

  /** Start of an installation whose anchor cannot be created: the handler
      saves a record with inputs and without an anchor. */
  lemma UnanchoredIsTorn() returns (history: seq<Store>)
    ensures |history| == 4 && Sound(history) && history[0] == NOTHING && Legible(history[2])
    ensures 0 in history[2].executions && history[3] == Recorded(history[2], 0, UNANCHORED) && history[3].executions[0].variant.HostInstall?
    ensures !Anchored(HostInstall, UNANCHORED) && !Legible(history[3])
  {
    hide Sound, Safe;
    history := FirstRecord(HostInstall);
    history := Saved(history, UNANCHORED);
    assert !Readable(history[3].executions[0], 0);
  }

  // ----- a proof that appears too late -----

  const WORKER := Invocation(0, 1, 0, 0)
  const STARTING := ACCEPTED.(inputs := true, attempt := 1, phase := Starting)
  const FAILED := UNTOUCHED.(failure := true)

  /** A proof is started; its first attempt runs a worker that has shown
      nothing yet. */
  lemma FirstAttempt() returns (history: seq<Store>)
    ensures |history| == 6 && Sound(history) && history[0] == NOTHING
    ensures Latest(history) == Store(map[0 := Execution(BaselineProof, Some(STARTING), map[])], {WORKER}, [Launch(0, 1)])
    ensures Working(Latest(history), 0, STARTING) && Legible(Latest(history))
  {
    hide Sound, Safe, Forward, Illegible;
    history := FirstRecord(BaselineProof);
    history := Saved(history, ACCEPTED.(inputs := true));
    history := Saved(history, STARTING);
    var m := Latest(history);
    assert m.executions == map[0 := Execution(BaselineProof, Some(STARTING), map[])];
    LatestSafe(history);
    LaunchedSafe(m, WORKER, STARTING);
    Appended(history, Store(m.executions, {WORKER}, m.launches + [Launch(0, 1)]));
    history := history + [Store(m.executions, {WORKER}, m.launches + [Launch(0, 1)])];
  }

  const CLOSED := STARTING.(closed := true)

  function Running(state: State, trail: Trail, live: set<Invocation>): Store {
    Store(map[0 := Execution(BaselineProof, Some(state), map[1 := trail])], live, [Launch(0, 1)])
  }

  /** A stop command closes the record; only then the worker dies in startup,
      and `terminate` publishes the proof that it released nothing. */
  lemma LateProof() returns (history: seq<Store>)
    ensures |history| == 9 && Sound(history) && history[0] == NOTHING
    ensures history[6] == Store(map[0 := Execution(BaselineProof, Some(CLOSED), map[])], {WORKER}, [Launch(0, 1)])
    ensures history[7] == Running(CLOSED, FAILED, {}) && Latest(history) == Running(CLOSED, FAILED.(proof := true), {})
    ensures Working(Latest(history), 0, CLOSED) && Legible(Latest(history))
  {
    hide Sound, Safe, Forward, Illegible, Legible, Kept, Onward, Core, Hosts, Readable;
    history := FirstAttempt();
    ClosedWorks(Latest(history), 0, STARTING);
    history := Saved(history, CLOSED);
    assert Latest(history).executions == map[0 := Execution(BaselineProof, Some(CLOSED), map[])];
    ClosedReadable(Latest(history).executions[0]);
    var m := Latest(history);
    LatestSafe(history);
    EvolvedSafe(m, WORKER, FAILED, true);
    var ended := Evolved(m, WORKER, FAILED, true);
    EvolvedDrifts(m, WORKER, FAILED, true);
    WorkingDrifts(m, ended, 0, CLOSED);
    Appended(history, ended);
    history := history + [ended];
    assert {WORKER} - {WORKER} == {};
    assert ended.executions == map[0 := Execution(BaselineProof, Some(CLOSED), map[1 := FAILED])];
    ProofSafe(ended, 0, CLOSED);
    var proven := Trailed(ended, 0, 1, FAILED.(proof := true));
    Appended(history, proven);
    history := history + [proven];
    assert map[1 := FAILED][1 := FAILED.(proof := true)] == map[1 := FAILED.(proof := true)];
    assert proven.executions == map[0 := Execution(BaselineProof, Some(CLOSED), map[1 := FAILED.(proof := true)])];
  }

  lemma ClosedReadable(e: Execution)
    requires e.record == Some(CLOSED) && e.variant.BaselineProof?
    ensures Readable(e, 0)
  {
  }

  /** The record is loaded before the proof exists and its termination saved
      after: it was exposed, and that save is refused by `load`. */
  lemma LateProofIsTorn() returns (history: seq<Store>)
    ensures |history| == 10 && Sound(history) && history[0] == NOTHING && Legible(history[8])
    ensures 0 in history[6].executions && 0 in history[8].executions
    ensures var loaded := history[6].executions[0];
            loaded.record == Some(CLOSED) && Exposed(loaded.variant, CLOSED) && Readable(loaded, 0) && !loaded.At(1).proof
    ensures history[9] == Recorded(history[8], 0, CLOSED.(terminated := true)) && history[8].executions[0].At(1).proof
    ensures !Legible(history[9])
  {
    hide Sound, Safe, Legible, Working;
    history := LateProof();
    TerminatedWorks(Latest(history), 0, CLOSED);
    history := Saved(history, CLOSED.(terminated := true));
    assert !Readable(history[9].executions[0], 0);
  }
}
