/**
 What a Linux setup keeps over any sequence of plans and interruptions, and
 when a rerun completes.
 */
module LinuxSetupTheorems {
  import opened Options
  import opened LinuxSetup

  /** Every artifact present is one the durable receipt names; nothing else is
      there before the first receipt; a receipt that would complete the pending
      plan is only ever prepared once that plan is installed. */
  predicate Owned(d: Disk) {
    && Recognized(d)
    && (d.receipt.None? ==> !d.others && d.hostTemp.None? && d.unitTemp.None?
                            && (d.receiptTemp.Some? && d.receiptTemp.value.Whole? ==> Initial(d.receiptTemp.value)))
    && (Completes(d) ==> Actual(d) == Full(d.receipt.value.pending.value))
  }

  predicate AllOwned(steps: seq<Disk>) {
    forall k :: 0 <= k < |steps| ==> Owned(steps[k])
  }

  /** The bytes at each managed path are named by the durable receipt, as
      installed or as pending, and without a receipt there are none. */
  predicate Named(d: Disk) {
    && (d.receipt.None? ==> d.host.None? && d.unit.None? && !d.others)
    && (d.receipt.Some? && d.host.Some? ==>
          || d.host == d.receipt.value.installed.host
          || (d.receipt.value.pending.Some? && d.host.value == d.receipt.value.pending.value.host))
    && (d.receipt.Some? && d.unit.Some? ==>
          || d.unit == d.receipt.value.installed.unit
          || (d.receipt.value.pending.Some? && d.unit.value == d.receipt.value.pending.value.unit))
  }

  lemma OwnedNamed(d: Disk)
    requires Owned(d)
    ensures Named(d)
  {
  }

  /** An artifact whose bytes the receipt names neither as installed nor as
      pending stops setup before it changes anything, and nothing else is called
      drift. */
  lemma DriftedExactly(d: Disk, plan: Plan)
    requires d.receipt.Some?
    ensures Result(d, plan) == Drifted <==> !Named(d)
    ensures !Named(d) ==> Steps(d, plan) == []
  {
    if Named(d) {
      var (steps, outcome) := Recovered(d);
      assert outcome != Drifted;
      InstallsNeverDrift(Last(d, steps), plan);
    }
  }

  lemma InstallsNeverDrift(d: Disk, plan: Plan)
    ensures Installs(d, plan).1 in {Applied, NeedsInspection}
  {
    InstallsHostOutcome(Last(d, Claims(d, plan)), plan);
  }

  lemma InstallsHostOutcome(d: Disk, plan: Plan)
    ensures InstallsHost(d, plan).1 in {Applied, NeedsInspection}
  {
  }

  /** Without a receipt, a work root that holds anything else, or a managed path
      that exists, is refused untouched; an unfinished first receipt likewise. */
  lemma UnclaimedExactly(d: Disk, plan: Plan)
    requires d.receipt.None?
    ensures d.others ==> Result(d, plan) == Unrecognized && Steps(d, plan) == []
    ensures d.receiptTemp.None? && (d.host.Some? || d.unit.Some?) ==> Result(d, plan) == Unrecognized && Steps(d, plan) == []
    ensures !d.others && d.receiptTemp == Some(Torn) ==> Result(d, plan) == Incomplete && Steps(d, plan) == []
    ensures forall receipt: Receipt ::
              !d.others && d.receiptTemp == Some(Whole(receipt)) && (receipt.installed != Hashes(None, None) || receipt.pending.None?) ==>
                Result(d, plan) == Incomplete && Steps(d, plan) == []
  {
  }

  const FRESH := Disk(None, None, None, None, None, None, false)

  function Settled(plan: Plan): Disk {
    Disk(Some(Final(plan)), None, Some(plan.host), None, Some(plan.unit), None, true)
  }

  /** The temporaries left behind are ones this plan adopts. */
  predicate Ready(d: Disk, plan: Plan) {
    && (d.receiptTemp.None? || d.receiptTemp == Some(Whole(First(d, plan))) || Completes(d)
        || (d.receipt.None? && d.receiptTemp.value.Whole?))
    && Adoptable(d.hostTemp, plan.host) && Adoptable(d.unitTemp, plan.unit)
  }

  /** Recovery adopts at most the receipt's temporary. */
  lemma RecoveredOwned(d: Disk)
    requires Owned(d)
    ensures var (steps, outcome) := Recovered(d);
            && AllOwned(steps) && Owned(Last(d, steps))
            && (outcome.Applied? || outcome.Incomplete?)
            && (outcome.Incomplete? <==> d.receipt.None? && d.receiptTemp == Some(Torn))
            && !Completes(Last(d, steps))
            && Last(d, steps).(receipt := d.receipt, receiptTemp := d.receiptTemp) == d
            && (d.receipt.None? ==> Last(d, steps).receiptTemp.None? || outcome.Incomplete?)
            && (d.receipt.Some? ==> Last(d, steps).receiptTemp == if Completes(d) then None else d.receiptTemp)
            && (Last(d, steps).receipt.None? ==> d.receipt.None?)
  {
  }

  lemma ClaimsOwned(d: Disk, plan: Plan)
    requires Owned(d) && Adoptable(d.receiptTemp, First(d, plan))
    ensures AllOwned(Claims(d, plan))
    ensures Last(d, Claims(d, plan)) == d.(receipt := Some(First(d, plan)), receiptTemp := None, others := true)
  {
  }

  lemma HostOwned(d: Disk, plan: Plan)
    requires Owned(d) && d.receipt.Some? && d.receipt.value.pending == Some(plan) && d.receiptTemp.None?
    requires Adoptable(d.hostTemp, plan.host)
    ensures AllOwned(PutHost(d, plan.host))
    ensures Last(d, PutHost(d, plan.host)) == d.(host := Some(plan.host), hostTemp := None)
  {
  }

  lemma UnitOwned(d: Disk, plan: Plan)
    requires Owned(d) && d.receipt.Some? && d.receipt.value.pending == Some(plan) && d.receiptTemp.None?
    requires Adoptable(d.unitTemp, plan.unit)
    ensures AllOwned(PutUnit(d, plan.unit))
    ensures Last(d, PutUnit(d, plan.unit)) == d.(unit := Some(plan.unit), unitTemp := None)
  {
  }

  lemma FinalOwned(d: Disk, plan: Plan)
    requires Owned(d) && d.receipt.Some? && d.receipt.value.pending == Some(plan) && d.receiptTemp.None?
    requires Actual(d) == Full(plan)
    ensures AllOwned(PutReceipt(d, Final(plan)))
    ensures Last(d, PutReceipt(d, Final(plan))) == d.(receipt := Some(Final(plan)))
  {
  }

  /** Once the plan is pending, the installation runs up to the first temporary
      it cannot adopt. */
  lemma InstallsHostOwned(d: Disk, plan: Plan)
    requires Owned(d) && d.receipt.Some? && d.receipt.value.pending == Some(plan) && d.receiptTemp.None? && d.others
    ensures AllOwned(InstallsHost(d, plan).0)
    ensures InstallsHost(d, plan).1 ==
            if Adoptable(d.hostTemp, plan.host) && Adoptable(d.unitTemp, plan.unit) then Applied else NeedsInspection
    ensures InstallsHost(d, plan).1.Applied? ==> Last(d, InstallsHost(d, plan).0) == Settled(plan)
  {
    if Adoptable(d.hostTemp, plan.host) {
      HostOwned(d, plan);
      var d1 := Last(d, PutHost(d, plan.host));
      if Adoptable(d.unitTemp, plan.unit) {
        UnitOwned(d1, plan);
        var d2 := Last(d1, PutUnit(d1, plan.unit));
        FinalOwned(d2, plan);
        Composed(d1, PutUnit(d1, plan.unit), PutReceipt(d2, Final(plan)), 0);
        Composed(d, PutHost(d, plan.host), InstallsUnit(d1, plan).0, 0);
      }
    }
  }

  /** Owned disks stay owned at every durable change of every application. */
  lemma StepsOwned(d: Disk, plan: Plan)
    requires Owned(d)
    ensures AllOwned(Steps(d, plan)) && forall k :: 0 <= k < |Steps(d, plan)| ==> Named(Steps(d, plan)[k])
  {
    hide Recovered, Claims, InstallsHost, Recognized, Completes;
    StepsOwnedOnly(d, plan);
    hide Owned, Named;
    forall k | 0 <= k < |Steps(d, plan)| ensures Named(Steps(d, plan)[k]) { OwnedNamed(Steps(d, plan)[k]); }
  }

  lemma StepsOwnedOnly(d: Disk, plan: Plan)
    requires Owned(d)
    ensures AllOwned(Steps(d, plan))
  {
    hide Recovered, Claims, InstallsHost, Recognized, Completes;
    RecoveredOwned(d);
    var d1 := Last(d, Recovered(d).0);
    if Recovered(d).1.Applied? && Adoptable(d1.receiptTemp, First(d1, plan)) {
      ClaimsOwned(d1, plan);
      var d2 := Last(d1, Claims(d1, plan));
      LastOwned(d1, Claims(d1, plan));
      InstallsHostOwned(d2, plan);
    }
  }

  lemma LastOwned(d: Disk, steps: seq<Disk>)
    requires Owned(d) && AllOwned(steps)
    ensures Owned(Last(d, steps))
  {
  }

  /** An owned disk is never refused as drifted or unrecognized; a plan is
      applied exactly when it adopts what was left behind, and then receipt and
      both artifacts are the plan's. */
  lemma ResultExactly(d: Disk, plan: Plan)
    requires Owned(d)
    ensures Result(d, plan).Applied? <==> Ready(d, plan)
    ensures Result(d, plan) in {Applied, Incomplete, NeedsInspection}
    ensures Ready(d, plan) ==> Last(d, Steps(d, plan)) == Settled(plan)
  {
    hide Claims, InstallsHost, Recovered;
    RecoveredOwned(d);
    var recovered := Recovered(d);
    var d1 := Last(d, recovered.0);
    if recovered.1.Applied? {
      Composed(d, recovered.0, Installs(d1, plan).0, 0);
      if Adoptable(d1.receiptTemp, First(d1, plan)) {
        ClaimsOwned(d1, plan);
        LastOwned(d1, Claims(d1, plan));
        InstallsHostOwned(Last(d1, Claims(d1, plan)), plan);
        Composed(d1, Claims(d1, plan), InstallsHost(Last(d1, Claims(d1, plan)), plan).0, 0);
      }
    }
  }

  // ----- interrupted applications -----

  datatype Attempt = Attempt(plan: Plan, budget: nat)

  function After(d: Disk, attempts: seq<Attempt>): Disk
    decreases |attempts|
  {
    if attempts == [] then d
    else After(Last(d, Upto(Steps(d, attempts[0].plan), attempts[0].budget)), attempts[1..])
  }

  /** Ownership over any sequence of plans, each interrupted anywhere. */
  lemma {:induction false} OwnedForever(d: Disk, attempts: seq<Attempt>)
    requires Owned(d)
    ensures Owned(After(d, attempts)) && Named(After(d, attempts))
    decreases |attempts|
  {
    hide Steps, Owned, Named;
    if attempts == [] {
      OwnedNamed(d);
    } else {
      StepsOwned(d, attempts[0].plan);
      LastOwned(d, Upto(Steps(d, attempts[0].plan), attempts[0].budget));
      OwnedForever(Last(d, Upto(Steps(d, attempts[0].plan), attempts[0].budget)), attempts[1..]);
    }
  }

  predicate HasTorn(d: Disk) {
    d.receiptTemp == Some(Torn) || d.hostTemp == Some(Torn) || d.unitTemp == Some(Torn)
  }

  /** What interrupted applications of this one plan leave behind. */
  predicate LeftBy(d: Disk, plan: Plan) {
    && Owned(d)
    && (Ready(d, plan) || HasTorn(d))
    && (d.hostTemp == Some(Torn) || Adoptable(d.hostTemp, plan.host))
    && (d.unitTemp == Some(Torn) || Adoptable(d.unitTemp, plan.unit))
    && (d.receiptTemp == Some(Torn) || Ready(d.(hostTemp := None, unitTemp := None), plan))
  }

  predicate AllLeftBy(steps: seq<Disk>, plan: Plan) {
    forall k :: 0 <= k < |steps| ==> LeftBy(steps[k], plan)
  }

  lemma RecoveredLeft(d: Disk, plan: Plan)
    requires LeftBy(d, plan)
    ensures AllLeftBy(Recovered(d).0, plan) && LeftBy(Last(d, Recovered(d).0), plan)
  {
  }

  lemma ClaimsLeft(d: Disk, plan: Plan)
    requires LeftBy(d, plan) && Adoptable(d.receiptTemp, First(d, plan))
    ensures AllLeftBy(Claims(d, plan), plan)
  {
    ClaimsOwned(d, plan);
  }

  lemma InstallsHostLeft(d: Disk, plan: Plan)
    requires LeftBy(d, plan) && d.receipt.Some? && d.receipt.value.pending == Some(plan) && d.receiptTemp.None? && d.others
    ensures AllLeftBy(InstallsHost(d, plan).0, plan)
  {
    if Adoptable(d.hostTemp, plan.host) {
      HostOwned(d, plan);
      var d1 := Last(d, PutHost(d, plan.host));
      assert AllLeftBy(PutHost(d, plan.host), plan);
      if Adoptable(d.unitTemp, plan.unit) {
        UnitOwned(d1, plan);
        var d2 := Last(d1, PutUnit(d1, plan.unit));
        assert AllLeftBy(PutUnit(d1, plan.unit), plan);
        FinalOwned(d2, plan);
        assert AllLeftBy(PutReceipt(d2, Final(plan)), plan);
      }
    }
  }

  lemma StepsLeft(d: Disk, plan: Plan)
    requires LeftBy(d, plan)
    ensures AllLeftBy(Steps(d, plan), plan)
  {
    hide Recovered, Claims, InstallsHost, Recognized, Completes, LeftBy;
    RecoveredLeft(d, plan);
    assert Owned(d) by { OwnedLeft(d, plan); }
    RecoveredOwned(d);
    var d1 := Last(d, Recovered(d).0);
    if Recovered(d).1.Applied? && Adoptable(d1.receiptTemp, First(d1, plan)) {
      ClaimsOwned(d1, plan);
      ClaimsLeft(d1, plan);
      var d2 := Last(d1, Claims(d1, plan));
      assert Claims(d1, plan) != [] by { ClaimsSome(d1, plan); }
      InstallsHostLeft(d2, plan);
    }
  }

  lemma ClaimsSome(d: Disk, plan: Plan)
    ensures |Claims(d, plan)| > 0
  {
  }

  lemma OwnedLeft(d: Disk, plan: Plan)
    requires LeftBy(d, plan)
    ensures Owned(d)
  {
  }

  lemma {:induction false} InterruptedLeft(d: Disk, plan: Plan, attempts: seq<Attempt>)
    requires LeftBy(d, plan) && forall k :: 0 <= k < |attempts| ==> attempts[k].plan == plan
    ensures LeftBy(After(d, attempts), plan)
    decreases |attempts|
  {
    hide Steps, LeftBy;
    if attempts != [] {
      StepsLeft(d, plan);
      InterruptedLeft(Last(d, Upto(Steps(d, plan), attempts[0].budget)), plan, attempts[1..]);
    }
  }

  /** From an owned disk without temporaries, however often a plan is
      interrupted: if every temporary left behind is complete, applying it once
      more ends with receipt and both artifacts equal to it. */
  lemma RerunCompletes(d: Disk, plan: Plan, attempts: seq<Attempt>)
    requires Owned(d) && d.receiptTemp.None? && d.hostTemp.None? && d.unitTemp.None?
    requires forall k :: 0 <= k < |attempts| ==> attempts[k].plan == plan
    requires !HasTorn(After(d, attempts))
    ensures Result(After(d, attempts), plan).Applied?
    ensures Last(After(d, attempts), Steps(After(d, attempts), plan)) == Settled(plan)
  {
    InterruptedLeft(d, plan, attempts);
    ResultExactly(After(d, attempts), plan);
  }

  /** Two plans, each interrupted once, can leave complete temporaries that
      neither of them adopts. */
  lemma TwoPlansBlockEachOther(p: Plan, q: Plan)
    requires p.host != q.host
    ensures var d := After(FRESH, [Attempt(p, 6), Attempt(q, 2)]);
            && Owned(d) && !HasTorn(d)
            && Result(d, p) == NeedsInspection && Result(d, q) == NeedsInspection
  {
    var left := Disk(Some(Receipt(Hashes(None, None), Some(p))), None, None, Some(Whole(p.host)), None, None, true);
    assert Last(FRESH, Upto(Steps(FRESH, p), 6)) == left by { FirstInterruption(p); }
    var d := left.(receiptTemp := Some(Whole(First(left, q))));
    assert Last(left, Upto(Steps(left, q), 2)) == d by {
      assert Recovered(left) == ([], Applied);
      assert Steps(left, q) == Installs(left, q).0;
      assert Steps(left, q)[..2] == [left.(receiptTemp := Some(Torn)), d];
    }
    assert After(FRESH, [Attempt(p, 6), Attempt(q, 2)]) == After(left, [Attempt(q, 2)]) == After(d, []) == d;
  }

  lemma FirstInterruption(p: Plan)
    ensures Last(FRESH, Upto(Steps(FRESH, p), 6)) ==
            Disk(Some(Receipt(Hashes(None, None), Some(p))), None, None, Some(Whole(p.host)), None, None, true)
  {
    assert Recovered(FRESH) == ([], Applied);
    assert Steps(FRESH, p) == Installs(FRESH, p).0;
    var claimed := Last(FRESH, Claims(FRESH, p));
    assert |Claims(FRESH, p)| == 4;
    assert Steps(FRESH, p)[5] == InstallsHost(claimed, p).0[1];
  }
}
