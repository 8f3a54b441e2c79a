/**
 What the records say: those `load` accepts, phase by phase, in a description
 that shares nothing with the check, and what a settled one stands for.
 */
module ControllerLoads {
  import opened Options
  import opened ControllerRecord
  import opened ProofController

  /** The recorded worker is of this execution and attempt. */
  predicate Own(state: State, id: nat) {
    match state.invocation
    case None => false
    case Some(worker) => worker.execution == id && worker.attempt == state.attempt
  }

  /** No worker is recorded, and none is believed to have ended. */
  predicate Unstarted(state: State) { state.invocation == None && !state.terminated }

  /** No worker is recorded, but the attempt is proven to have released nothing. */
  predicate Nothing(state: State, e: Execution) {
    && state.invocation == None && state.terminated && state.attempt >= 1 && state.closed && state.inputs
    && state.attempt in e.trails && e.trails[state.attempt].proof
  }

  /** In each phase: which worker may be recorded and what must have been
      concluded. A settled execution is closed, terminated, cleaned and judged;
      without a worker it settles only as a failed first attempt that retains
      nothing, and an installation not at all. */
  predicate Loads(e: Execution, id: nat) {
    && e.record != None
    && var state := e.record.value;
       && state.attempt < 10000
       && (state.inputs && e.variant == HostInstall ==> state.recovery != None)
       && match state.phase
          case Accepted => state.attempt == 0 && Unstarted(state)
          case Starting => state.attempt >= 1 && state.inputs && Unstarted(state)
          case Running => Own(state, id)
          case Recovering => Own(state, id)
          case Unresolved =>
            || Own(state, id) || Unstarted(state)
            || (Nothing(state, e) && state.recovery != None
                && (state.attempt == 1 ==> e.variant == HostInstall && state.verdict == Fail && !state.cleaned))
          case Settled =>
            && state.closed && state.terminated && state.cleaned && state.inputs && (state.verdict == Pass || state.verdict == Fail)
            && (Own(state, id)
                || (Nothing(state, e) && state.attempt == 1 && e.variant != HostInstall && state.verdict == Fail && state.recovery == None))
  }

  /** `load` accepts exactly these records, whatever else the files say. */
  lemma LoadsExactly(e: Execution, id: nat)
    ensures Readable(e, id) <==> Loads(e, id)
  {
  }

  /** In whatever durable state, once an execution is settled it is over: closed,
      terminated, cleaned and judged, its worker the one its attempt published or
      proven never to have been released, and from then on no worker of it runs. */
  lemma SettledIsOver(history: seq<Store>, i: nat, j: nat, id: nat)
    requires Sound(history) && i <= j < |history|
    requires id in history[i].executions && history[i].executions[id].record.Some?
    requires history[i].executions[id].record.value.phase == Settled
    ensures var state := history[i].executions[id].record.value;
            && state.closed && state.terminated && state.cleaned && (state.verdict == Pass || state.verdict == Fail)
            && id in history[j].executions && history[j].executions[id].record == Some(state)
            && (if state.invocation.Some? then history[j].executions[id].At(state.attempt).native == state.invocation
                else history[j].executions[id].At(state.attempt).proof)
    ensures forall worker :: worker in history[j].live ==> worker.execution != id
  {
    NeverUndone(history, i, j, id);
    assert Safe(history[j]) && Kept(history[j].executions[id], id);
    var state := history[i].executions[id].record.value;
    forall worker | worker in history[j].live ensures worker.execution != id {
      assert Hosts(history[j].executions[worker.execution], worker);
    }
  }
}
