/**
 Applying a Linux setup plan: two artifacts, the host binary and its unit, are
 installed under an ownership receipt that first names what is pending. Files
 are replaced through temporaries that a rerun adopts when they are complete.
 A plan's digests identify its bytes. `Steps` lists the durable changes of one
 application; a crash, or any failing command, stops it after some of them.
 */
module LinuxSetup {
  import opened Options

  datatype Plan = Plan(host: nat, unit: nat)

  /** What is installed, by artifact. */
  datatype Hashes = Hashes(host: Option<nat>, unit: Option<nat>)

  /** The ownership receipt of this target; a settled one has nothing pending. */
  datatype Receipt = Receipt(installed: Hashes, pending: Option<Plan>)

  /** A temporary: fully written, or not. */
  datatype Temporary<T> = Torn | Whole(bytes: T)

  /** The managed paths; `others` says that the work root holds anything else
      than its lock, the receipt and the receipt's temporary. */
  datatype Disk = Disk(
    receipt: Option<Receipt>, receiptTemp: Option<Temporary<Receipt>>,
    host: Option<nat>, hostTemp: Option<Temporary<nat>>,
    unit: Option<nat>, unitTemp: Option<Temporary<nat>>, others: bool)

  datatype Outcome = Applied | Unrecognized | Drifted | Incomplete | Mismatched | NeedsInspection | Interrupted

  function Actual(d: Disk): Hashes { Hashes(d.host, d.unit) }
  function Full(plan: Plan): Hashes { Hashes(Some(plan.host), Some(plan.unit)) }
  function First(d: Disk, plan: Plan): Receipt { Receipt(Actual(d), Some(plan)) }
  function Final(plan: Plan): Receipt { Receipt(Full(plan), None) }

  predicate Adoptable<T(==)>(temp: Option<Temporary<T>>, bytes: T) { temp.None? || temp == Some(Whole(bytes)) }

  /** The temporary of a first application: nothing installed, a plan pending. */
  predicate Initial(temp: Temporary<Receipt>) {
    temp.Whole? && temp.bytes.installed == Hashes(None, None) && temp.bytes.pending.Some?
  }

  predicate Known(hash: Option<nat>, installed: Option<nat>, pending: Option<nat>) {
    hash.None? || hash == installed || hash == pending
  }

  /** Each artifact present is one the receipt names for its path. */
  predicate Recognized(d: Disk) {
    match d.receipt
    case None => d.host.None? && d.unit.None?
    case Some(r) =>
      && Known(d.host, r.installed.host, if r.pending.Some? then Some(r.pending.value.host) else None)
      && Known(d.unit, r.installed.unit, if r.pending.Some? then Some(r.pending.value.unit) else None)
  }

  /** The temporary completes the receipt: all that was pending is installed. */
  predicate Completes(d: Disk) {
    && d.receipt.Some? && d.receipt.value.pending.Some?
    && d.receiptTemp == Some(Whole(Final(d.receipt.value.pending.value)))
  }

  // ----- the durable changes -----

  function Last(d: Disk, steps: seq<Disk>): Disk { if steps == [] then d else steps[|steps| - 1] }

  function PutReceipt(d: Disk, r: Receipt): seq<Disk> {
    (if d.receiptTemp.None? then [d.(receiptTemp := Some(Torn)), d.(receiptTemp := Some(Whole(r)))] else [])
    + [d.(receiptTemp := None, receipt := Some(r))]
  }

  function PutHost(d: Disk, hash: nat): seq<Disk> {
    (if d.hostTemp.None? then [d.(hostTemp := Some(Torn)), d.(hostTemp := Some(Whole(hash)))] else [])
    + [d.(hostTemp := None, host := Some(hash))]
  }

  function PutUnit(d: Disk, hash: nat): seq<Disk> {
    (if d.unitTemp.None? then [d.(unitTemp := Some(Torn)), d.(unitTemp := Some(Whole(hash)))] else [])
    + [d.(unitTemp := None, unit := Some(hash))]
  }

  /** The plan is on record before any directory or artifact exists for it. */
  function Claims(d: Disk, plan: Plan): seq<Disk> {
    var claimed := PutReceipt(d, First(d, plan));
    claimed + [Last(d, claimed).(others := true)]
  }

  /** The recovery of ownership before anything is planned: adopt a first
      receipt, check what is there, adopt a completed receipt. */
  function Recovered(d: Disk): (seq<Disk>, Outcome) {
    if d.receipt.None? && d.receiptTemp.Some? then
      if d.others then ([], Unrecognized)
      else if !Initial(d.receiptTemp.value) then ([], Incomplete)
      else
        var adopted := PutReceipt(d, d.receiptTemp.value.bytes);
        (adopted, if Recognized(Last(d, adopted)) then Applied else Drifted)
    else if d.receipt.None? && d.others then ([], Unrecognized)
    else if !Recognized(d) then ([], if d.receipt.None? then Unrecognized else Drifted)
    else if Completes(d) then
      if Actual(d) == Full(d.receipt.value.pending.value) then (PutReceipt(d, d.receiptTemp.value.bytes), Applied)
      else ([], Mismatched)
    else ([], Applied)
  }

  /** The application proper, from recovered ownership: claim the plan, install
      the host, install the unit, settle the receipt. */
  function Installs(d: Disk, plan: Plan): (seq<Disk>, Outcome) {
    if !Adoptable(d.receiptTemp, First(d, plan)) then ([], NeedsInspection)
    else
      var rest := InstallsHost(Last(d, Claims(d, plan)), plan);
      (Claims(d, plan) + rest.0, rest.1)
  }

  function InstallsHost(d: Disk, plan: Plan): (seq<Disk>, Outcome) {
    if !Adoptable(d.hostTemp, plan.host) then ([], NeedsInspection)
    else
      var hosted := PutHost(d, plan.host);
      var rest := InstallsUnit(Last(d, hosted), plan);
      (hosted + rest.0, rest.1)
  }

  function InstallsUnit(d: Disk, plan: Plan): (seq<Disk>, Outcome) {
    if !Adoptable(d.unitTemp, plan.unit) then ([], NeedsInspection)
    else
      var united := PutUnit(d, plan.unit);
      var d' := Last(d, united);
      if Adoptable(d'.receiptTemp, Final(plan)) then (united + PutReceipt(d', Final(plan)), Applied) else (united, NeedsInspection)
  }

  function Steps(d: Disk, plan: Plan): seq<Disk> {
    var recovered := Recovered(d);
    if recovered.1.Applied? then recovered.0 + Installs(Last(d, recovered.0), plan).0 else recovered.0
  }

  function Result(d: Disk, plan: Plan): Outcome {
    var recovered := Recovered(d);
    if recovered.1.Applied? then Installs(Last(d, recovered.0), plan).1 else recovered.1
  }

  // ----- the same, in place -----

  class Target {
    var receipt: Option<Receipt>
    var receiptTemp: Option<Temporary<Receipt>>
    var host: Option<nat>
    var hostTemp: Option<Temporary<nat>>
    var unit: Option<nat>
    var unitTemp: Option<Temporary<nat>>
    var others: bool
    var budget: nat                 // durable changes left before the interruption
    ghost var steps: seq<Disk>      // durable changes so far

    function Now(): Disk
      reads this
    {
      Disk(receipt, receiptTemp, host, hostTemp, unit, unitTemp, others)
    }

    /** These changes were made, or as many of them as the budget allowed. */
    twostate predicate Made(changes: seq<Disk>, ok: bool)
      reads this
    {
      && (ok <==> |changes| <= old(budget))
      && var made := if ok then changes else changes[..old(budget)];
         && steps == old(steps) + made && budget == old(budget) - |made| && Now() == Last(old(Now()), made)
    }

    /** `atomic_write` of the receipt. */
    method WriteReceipt(r: Receipt) returns (ok: bool)
      requires Adoptable(receiptTemp, r)
      modifies this
      ensures Made(PutReceipt(old(Now()), r), ok)
    {
      if receiptTemp.None? {
        if budget == 0 { return false; }
        receiptTemp, budget := Some(Torn), budget - 1;
        steps := steps + [Now()];
        if budget == 0 { return false; }
        receiptTemp, budget := Some(Whole(r)), budget - 1;
        steps := steps + [Now()];
      }
      if budget == 0 { return false; }
      receiptTemp, receipt, budget := None, Some(r), budget - 1;
      steps := steps + [Now()];
      ok := true;
    }

    method WriteHost(hash: nat) returns (ok: bool)
      requires Adoptable(hostTemp, hash)
      modifies this
      ensures Made(PutHost(old(Now()), hash), ok)
    {
      if hostTemp.None? {
        if budget == 0 { return false; }
        hostTemp, budget := Some(Torn), budget - 1;
        steps := steps + [Now()];
        if budget == 0 { return false; }
        hostTemp, budget := Some(Whole(hash)), budget - 1;
        steps := steps + [Now()];
      }
      if budget == 0 { return false; }
      hostTemp, host, budget := None, Some(hash), budget - 1;
      steps := steps + [Now()];
      ok := true;
    }

    method WriteUnit(hash: nat) returns (ok: bool)
      requires Adoptable(unitTemp, hash)
      modifies this
      ensures Made(PutUnit(old(Now()), hash), ok)
    {
      if unitTemp.None? {
        if budget == 0 { return false; }
        unitTemp, budget := Some(Torn), budget - 1;
        steps := steps + [Now()];
        if budget == 0 { return false; }
        unitTemp, budget := Some(Whole(hash)), budget - 1;
        steps := steps + [Now()];
      }
      if budget == 0 { return false; }
      unitTemp, unit, budget := None, Some(hash), budget - 1;
      steps := steps + [Now()];
      ok := true;
    }

    /** These changes were made and this was the outcome, unless the budget
        ran out first. */
    twostate predicate Ran(changes: seq<Disk>, full: Outcome, outcome: Outcome)
      reads this
    {
      && outcome == (if old(budget) < |changes| then Interrupted else full)
      && var made := Upto(changes, old(budget));
         && steps == old(steps) + made && budget == old(budget) - |made| && Now() == Last(old(Now()), made)
    }

    /** Recover the ownership of an interrupted setup. */
    method RecoverOwnership() returns (outcome: Outcome)
      modifies this
      ensures Ran(Recovered(old(Now())).0, Recovered(old(Now())).1, outcome)
    {
      if receipt.None? && receiptTemp.Some? {
        if others { return Unrecognized; }
        if !Initial(receiptTemp.value) { return Incomplete; }
        var ok := WriteReceipt(receiptTemp.value.bytes);
        if !ok { return Interrupted; }
      } else if receipt.None? && others {
        return Unrecognized;
      }
      var previous := receipt;
      if host.Some? {
        if previous.None? { return Unrecognized; }
        var pending := if previous.value.pending.Some? then Some(previous.value.pending.value.host) else None;
        if !Known(host, previous.value.installed.host, pending) { return Drifted; }
      }
      if unit.Some? {
        if previous.None? { return Unrecognized; }
        var pending := if previous.value.pending.Some? then Some(previous.value.pending.value.unit) else None;
        if !Known(unit, previous.value.installed.unit, pending) { return Drifted; }
      }
      if Completes(Now()) {
        if Actual(Now()) != Full(previous.value.pending.value) { return Mismatched; }
        var ok := WriteReceipt(receiptTemp.value.bytes);
        if !ok { return Interrupted; }
      }
      outcome := Applied;
    }

    /** Claim the plan, install both artifacts, settle the receipt. */
    method InstallArtifacts(plan: Plan) returns (outcome: Outcome)
      modifies this
      ensures Ran(Installs(old(Now()), plan).0, Installs(old(Now()), plan).1, outcome)
    {
      hide Claims, InstallsHost;
      if !Adoptable(receiptTemp, First(Now(), plan)) { return NeedsInspection; }
      ghost var d, n := Now(), budget;
      outcome := Claim(plan);
      Composed(d, Claims(d, plan), InstallsHost(Last(d, Claims(d, plan)), plan).0, n);
      if outcome.Applied? {
        outcome := InstallHost(plan);
      }
    }

    method Claim(plan: Plan) returns (outcome: Outcome)
      requires Adoptable(receiptTemp, First(Now(), plan))
      modifies this
      ensures Ran(Claims(old(Now()), plan), Applied, outcome)
    {
      hide PutReceipt;
      ghost var d, n := Now(), budget;
      ghost var claimed := PutReceipt(d, First(d, plan));
      Composed(d, claimed, [Last(d, claimed).(others := true)], n);
      var ok := WriteReceipt(First(Now(), plan));
      if !ok || budget == 0 { return Interrupted; }
      others, budget := true, budget - 1;
      steps := steps + [Now()];
      outcome := Applied;
    }

    method InstallHost(plan: Plan) returns (outcome: Outcome)
      modifies this
      ensures Ran(InstallsHost(old(Now()), plan).0, InstallsHost(old(Now()), plan).1, outcome)
    {
      hide PutHost, PutUnit, PutReceipt;
      if !Adoptable(hostTemp, plan.host) { return NeedsInspection; }
      ghost var d, n := Now(), budget;
      var ok := WriteHost(plan.host);
      Composed(d, PutHost(d, plan.host), InstallsUnit(Last(d, PutHost(d, plan.host)), plan).0, n);
      if !ok { return Interrupted; }
      outcome := InstallUnit(plan);
    }

    method InstallUnit(plan: Plan) returns (outcome: Outcome)
      modifies this
      ensures Ran(InstallsUnit(old(Now()), plan).0, InstallsUnit(old(Now()), plan).1, outcome)
    {
      hide PutUnit, PutReceipt;
      if !Adoptable(unitTemp, plan.unit) { return NeedsInspection; }
      ghost var d, n := Now(), budget;
      var ok := WriteUnit(plan.unit);
      Composed(d, PutUnit(d, plan.unit), PutReceipt(Last(d, PutUnit(d, plan.unit)), Final(plan)), n);
      if !ok { return Interrupted; }
      if !Adoptable(receiptTemp, Final(plan)) { return NeedsInspection; }
      ok := WriteReceipt(Final(plan));
      if !ok { return Interrupted; }
      outcome := Applied;
    }

    /** `apply`, from any disk, interrupted anywhere. */
    method Apply(plan: Plan) returns (outcome: Outcome)
      modifies this
      ensures Ran(Steps(old(Now()), plan), Result(old(Now()), plan), outcome)
    {
      hide Recovered, Installs;
      ghost var d, n := Now(), budget;
      outcome := RecoverOwnership();
      Composed(d, Recovered(d).0, Installs(Last(d, Recovered(d).0), plan).0, n);
      if outcome.Applied? {
        outcome := InstallArtifacts(plan);
      }
    }
  }

  lemma Composed(d: Disk, a: seq<Disk>, b: seq<Disk>, budget: nat)
    ensures Upto(a + b, budget) == if budget < |a| then Upto(a, budget) else a + Upto(b, budget - |a|)
    ensures Last(d, a + b) == Last(Last(d, a), b)
    ensures budget >= |a| ==> Last(d, Upto(a + b, budget)) == Last(Last(d, a), Upto(b, budget - |a|))
  {
    assert budget >= |a| ==> Upto(a + b, budget) == a + Upto(b, budget - |a|);
  }

  function Upto(steps: seq<Disk>, budget: nat): seq<Disk> {
    if budget < |steps| then steps[..budget] else steps
  }
}
