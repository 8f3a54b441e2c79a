/**
 The client side of one Run ID: a claim recorded once, a Session pinned once,
 and the calls made to a host that may answer anything. Other clients of the
 same Run work on the same journal between any two accesses of this one.
 */
module RunnerJournal {
  import opened Options

  datatype Claim = Claim(requestId: nat, requestHash: nat, deadline: nat, controller: nat)
  datatype Session = Session(id: nat, valid: bool)
  datatype Authority = Authority(claim: Claim, fingerprint: nat)
  datatype Pin = Pin(claim: Claim, fingerprint: nat, session: Session)

  datatype Journal = Journal(authority: Option<Authority>, pin: Option<Pin>)

  /** `sound` stands for the checks of a receipt that concern neither its claim
      nor its Session. */
  datatype Receipt = Receipt(claim: Claim, session: Option<Session>, terminal: bool, complete: bool, files: nat, known: bool, sound: bool)

  /** A call to the host, with the journal as it was read for that call. A
      settlement is `answered` if it did not fail and `known` if the cleanup it
      reports is. */
  datatype Call =
    | Acquire(claim: Claim, seen: Journal)
    | Stage(claim: Claim, seen: Journal)
    | Start(claim: Claim, seen: Journal)
    | Settle(claim: Claim, session: Option<Session>, seen: Journal, answered: bool, known: bool)
    | Fetch(claim: Claim, session: Option<Session>, seen: Journal)

  datatype Loaded = Loaded(authority: Authority, session: Option<Session>) | Unavailable

  datatype Recovery = Recovered(receipt: Receipt) | Unobserved(receipt: Receipt) | Unsound(receipt: Receipt) | NoAuthority

  predicate Consistent(j: Journal) {
    j.pin.Some? ==> j.authority.Some? && j.pin.value.session.valid
                    && j.pin.value.claim == j.authority.value.claim && j.pin.value.fingerprint == j.authority.value.fingerprint
  }

  /** Both files are created once. */
  predicate Rely(before: Journal, after: Journal) {
    && Consistent(after)
    && (before.authority.Some? ==> after.authority == before.authority)
    && (before.pin.Some? ==> after.pin == before.pin)
  }

  function Pinned(j: Journal): Option<Session> { if j.pin.Some? then Some(j.pin.value.session) else None }

  /** The call carries the recorded claim and the pin it was read with: none
      only while there was none, and evidence only under a pin. */
  predicate Lawful(call: Call, now: Journal) {
    && Rely(call.seen, now)
    && call.seen.authority.Some? && call.claim == call.seen.authority.value.claim
    && (call.Settle? ==> call.session == Pinned(call.seen))
    && (call.Fetch? ==> call.session.Some? && call.session == Pinned(call.seen))
  }

  /** The settlement a receipt asks for: its claim and, if it names one, its
      Session. */
  predicate SettlesAs(call: Call, receipt: Receipt) {
    call.Settle? && call.claim == receipt.claim && (receipt.session.Some? ==> call.session == receipt.session)
  }

  /** From this call on, Acquire, Stage and Start occur at most once, first and in
      this order. */
  predicate InOrder(calls: seq<Call>, from: nat) {
    forall k :: from <= k < |calls| ==>
      (calls[k].Acquire? ==> k == from) && (calls[k].Stage? ==> k == from + 1) && (calls[k].Start? ==> k == from + 2)
  }

  /** The same once the Run is acquired. */
  predicate StagesFirst(calls: seq<Call>, from: nat) {
    forall k :: from <= k < |calls| ==> !calls[k].Acquire? && (calls[k].Stage? ==> k == from) && (calls[k].Start? ==> k == from + 1)
  }

  predicate OnlySettles(calls: seq<Call>, from: nat) { forall k :: from <= k < |calls| ==> calls[k].Settle? || calls[k].Fetch? }

  predicate EndsSettled(calls: seq<Call>, from: nat) { |calls| > from && calls[|calls| - 1].Settle? }

  /** The last call is a settlement the host confirmed. */
  predicate CleanedUp(calls: seq<Call>) {
    |calls| > 0 && calls[|calls| - 1].Settle? && calls[|calls| - 1].answered && calls[|calls| - 1].known
  }

  /** The recorded claim was made for this target. */
  predicate Claimed(j: Journal, selected: nat, claim: Claim) { j.authority == Some(Authority(claim, selected)) }

  /** A receipt of the recorded claim whose Session is the pinned one or can be
      pinned now. */
  predicate Pinnable(j: Journal, selected: nat, receipt: Receipt) {
    && Claimed(j, selected, receipt.claim)
    && (j.pin.Some? ==> receipt.session == Some(j.pin.value.session))
    && (j.pin.None? && receipt.session.Some? ==> receipt.session.value.valid)
  }

  /** A receipt of the recorded claim that names no Session but the pinned one. */
  predicate Authorized(j: Journal, selected: nat, receipt: Receipt) {
    && Claimed(j, selected, receipt.claim)
    && (receipt.session.Some? ==> j.pin.Some? && receipt.session.value == j.pin.value.session)
  }

  /** The Run was claimed for this target and, if a Session is expected, that
      one is pinned. */
  predicate Askable(j: Journal, selected: nat, expected: Option<Session>) {
    && j.authority.Some? && j.authority.value.fingerprint == selected
    && (expected.Some? ==> j.pin.Some? && j.pin.value.session == expected.value)
  }

  /** What is made of the host's answer about a claimed Run. */
  predicate Judged(j: Journal, answer: Option<Receipt>, r: Recovery)
    requires j.authority.Some?
  {
    match answer
    case None => r.Unobserved? && r.receipt.claim == j.authority.value.claim && r.receipt.session == Pinned(j)
    case Some(a) =>
      if a.claim != j.authority.value.claim || (j.pin.Some? && a.session != Pinned(j)) then r == NoAuthority
      else if !a.sound then r == Unsound(a)
      else if j.pin.None? && a.session.Some? && !a.session.value.valid then r == NoAuthority
      else r == Recovered(a)
  }

  /** Some answer since then was about another claim, or about a Session that is
      not the pinned one. */
  ghost predicate Contradicted(answers: seq<Option<Receipt>>, from: nat, j: Journal, claim: Claim) {
    exists k :: from <= k < |answers| && Contradicts(answers[k], j, claim)
  }

  predicate Contradicts(answer: Option<Receipt>, j: Journal, claim: Claim) {
    answer.Some? && (answer.value.claim != claim || answer.value.session != Pinned(j))
  }

  /** Some answer since then is missing, unsound, or contradicts claim or pin. */
  ghost predicate Faulty(answers: seq<Option<Receipt>>, from: nat, j: Journal, claim: Claim) {
    exists k :: from <= k < |answers| && Fault(answers[k], j, claim)
  }

  predicate Fault(answer: Option<Receipt>, j: Journal, claim: Claim) {
    answer.None? || !answer.value.sound || answer.value.claim != claim || answer.value.session != Pinned(j)
  }

  /** Every settlement since then reported a known cleanup. */
  predicate AllKnown(calls: seq<Call>, from: nat) {
    forall k :: from <= k < |calls| && calls[k].Settle? ==> calls[k].known
  }

  predicate FetchesAs(calls: seq<Call>, from: nat, receipt: Receipt) {
    forall k :: from <= k < |calls| ==> calls[k].Fetch? && calls[k].claim == receipt.claim && calls[k].session == receipt.session
  }

  ghost predicate Sound(history: seq<Journal>) {
    && (forall k :: 0 <= k < |history| ==> Consistent(history[k]))
    && forall k :: 0 < k < |history| ==> Rely(history[k - 1], history[k])
  }

  class Client {
    var journal: Journal
    ghost var history: seq<Journal>
    ghost var calls: seq<Call>
    ghost var answers: seq<Option<Receipt>>      // the receipts the host answered with, or not
    const calm: bool                             // the journal can be read and written, and only this client does
    const able: bool                             // no call to the host fails, and evidence can be stored

    ghost predicate Valid()
      reads this
    {
      && |history| > 0 && history[|history| - 1] == journal && Sound(history) && Consistent(journal)
      && forall k :: 0 <= k < |calls| ==> Lawful(calls[k], journal)
    }

    constructor (journal: Journal, calm: bool, able: bool)
      requires Consistent(journal)
      ensures Valid() && this.journal == journal && history == [journal] && calls == [] && answers == []
      ensures this.calm == calm && this.able == able
    {
      this.journal, this.history, this.calls, this.answers := journal, [journal], [], [];
      this.calm, this.able := calm, able;
    }

    twostate predicate Continues()
      reads this
    {
      && Valid() && old(history) <= history && old(calls) <= calls && old(answers) <= answers && Rely(old(journal), journal)
    }

    method Change(next: Journal)
      requires Valid() && Rely(journal, next)
      modifies this`journal, this`history
      ensures Continues() && journal == next
    {
      journal := next;
      history := history + [next];
    }

    ghost method Log(call: Call)
      requires Valid() && Lawful(call, journal)
      modifies this`calls
      ensures Continues() && calls == old(calls) + [call]
    {
      calls := calls + [call];
    }

    ghost method Hear(answer: Option<Receipt>)
      requires Valid()
      modifies this`answers
      ensures Continues() && answers == old(answers) + [answer]
    {
      answers := answers + [answer];
    }

    method Interfere()
      requires Valid()
      modifies this`journal, this`history
      ensures Continues() && (calm ==> journal == old(journal))
    {
      var next: Journal := *;
      if !calm && Rely(journal, next) { Change(next); }
    }

    /** `journal.record`: the claim is published once, or the Run is over. */
    method Record(selected: nat, claim: Claim) returns (ok: bool)
      requires Valid()
      modifies this`journal, this`history
      ensures Continues()
      ensures ok ==> old(journal).authority.None? && journal.authority == Some(Authority(claim, selected))
      ensures calm ==> ok == old(journal).authority.None? && journal.pin == old(journal).pin
    {
      Interfere();
      if journal.authority.Some? { return false; }
      var written, reported: bool := *, *;
      written, reported := written || calm, reported && !calm;
      if written { Change(journal.(authority := Some(Authority(claim, selected)))); }
      ok := written && !reported;
    }

    /** `journal.load`. */
    method Load(selected: nat) returns (r: Loaded)
      requires Valid()
      modifies this`journal, this`history
      ensures Continues()
      ensures r.Loaded? ==> journal.authority == Some(r.authority) && r.authority.fingerprint == selected && r.session == Pinned(journal)
      ensures calm ==> journal == old(journal)
      ensures calm ==> (r.Loaded? <==> journal.authority.Some? && journal.authority.value.fingerprint == selected)
    {
      Interfere();
      var fails: bool := *;
      if (fails && !calm) || journal.authority.None? || journal.authority.value.fingerprint != selected { return Unavailable; }
      r := Loaded(journal.authority.value, Pinned(journal));
    }

    /** `journal.accept`: pin the first Session a receipt names. */
    method Accept(selected: nat, receipt: Receipt) returns (ok: bool)
      requires Valid()
      modifies this`journal, this`history
      ensures Continues()
      ensures ok ==> journal.authority.Some? && journal.authority.value.claim == receipt.claim
      ensures ok && receipt.session.Some? ==> Pinned(journal) == receipt.session
      ensures calm ==> ok == Pinnable(old(journal), selected, receipt)
      ensures calm && (!ok || receipt.session.None?) ==> journal == old(journal)
    {
      var record := Load(selected);
      if record.Unavailable? || record.authority.claim != receipt.claim { return false; }
      if record.session.Some? && record.session != receipt.session { return false; }
      if receipt.session.None? { return true; }
      if !receipt.session.value.valid { return false; }
      if record.session.Some? { return true; }
      Interfere();
      if journal.pin.None? {
        var written, reported: bool := *, *;
        written, reported := written || calm, reported && !calm;
        if written { Change(journal.(pin := Some(Pin(record.authority.claim, record.authority.fingerprint, receipt.session.value)))); }
        return written && !reported;
      }
      record := Load(selected);
      ok := record.Loaded? && record.session == receipt.session;
    }

    /** `journal.settlement`: the authority a receipt may be settled with. */
    method Settlement(selected: nat, receipt: Receipt) returns (ok: bool, settled: Receipt)
      requires Valid()
      modifies this`journal, this`history
      ensures Continues()
      ensures ok ==> journal.authority.Some? && journal.authority.value.claim == receipt.claim
                     && settled == receipt.(session := Pinned(journal))
                     && (receipt.session.Some? ==> receipt.session == Pinned(journal))
      ensures calm ==> journal == old(journal) && ok == Authorized(journal, selected, receipt)
    {
      settled := receipt;
      var record := Load(selected);
      if record.Unavailable? || record.authority.claim != receipt.claim { return false, receipt; }
      if receipt.session.Some? && record.session != receipt.session { return false, receipt; }
      ok, settled := true, receipt.(session := record.session);
    }

    /** `settle`; `lost` when the authority to settle was missing or changed. */
    method SettleHost(selected: nat, receipt: Receipt) returns (ok: bool, known: bool, lost: bool)
      requires Valid()
      modifies this`journal, this`history, this`calls
      ensures Continues() && (ok ==> !lost)
      ensures if calls == old(calls) then lost && !known
              else |calls| == |old(calls)| + 1 && SettlesAs(calls[|old(calls)|], receipt) && known == calls[|old(calls)|].known
      ensures ok ==> calls != old(calls) && calls[|old(calls)|].answered
      ensures calm ==> lost == !Authorized(old(journal), selected, receipt) && journal == old(journal)
      ensures calm && !lost ==> ok == calls[|old(calls)|].answered && (able ==> ok)
    {
      known := false;
      var settled: Receipt;
      ok, settled := Settlement(selected, receipt);
      if !ok { return false, false, true; }
      var answered: bool := *;
      known := *;
      answered := answered || able;
      Log(Settle(settled.claim, settled.session, journal, answered, known));
      var again: Receipt;
      ok, again := Settlement(selected, settled);
      lost := !ok;
      ok := ok && answered;
    }

    /** `recoverReceipt`: the host's receipt, if it is of the recorded claim and
        of the pinned Session; a first Session is pinned before it is believed. */
    method RecoverReceipt(selected: nat, expected: Option<Session>) returns (r: Recovery)
      requires Valid()
      modifies this
      ensures Continues()
      ensures calls == old(calls)
      ensures !r.NoAuthority? ==> journal.authority.Some? && journal.authority.value.claim == r.receipt.claim
      ensures r.Recovered? && r.receipt.session.Some? ==> Pinned(journal) == r.receipt.session
      ensures r.Unobserved? && r.receipt.session.Some? ==> Pinned(journal) == r.receipt.session
      ensures r.Recovered? ==> r.receipt.sound && answers == old(answers) + [Some(r.receipt)]
      ensures |answers| <= |old(answers)| + 1
      ensures calm && !Askable(old(journal), selected, expected) ==>
                r.NoAuthority? && answers == old(answers) && journal == old(journal)
      ensures calm && Askable(old(journal), selected, expected) ==>
                && |answers| == |old(answers)| + 1 && Judged(old(journal), answers[|old(answers)|], r)
                && (r.Recovered? || r.Unobserved? ==> Authorized(journal, selected, r.receipt))
                && (r.NoAuthority? || (r.Unsound? && !Authorized(journal, selected, r.receipt)) ==>
                      Contradicts(answers[|old(answers)|], journal, journal.authority.value.claim))
    {
      hide Sound, Lawful;
      var record := Load(selected);
      if record.Unavailable? { return NoAuthority; }
      if expected.Some? && record.session != expected { return NoAuthority; }
      var observed: bool := *;
      var receipt: Receipt := *;
      observed := observed || able;
      Hear(if observed then Some(receipt) else None);
      var ok, authority := Settlement(selected, receipt.(claim := record.authority.claim, session := record.session));
      if !observed {
        return if ok then Unobserved(authority) else NoAuthority;
      }
      if !ok || record.authority.claim != receipt.claim { return NoAuthority; }
      if authority.session.Some? && receipt.session != authority.session { return NoAuthority; }
      if !receipt.sound { return Unsound(receipt); }
      if authority.session.Some? {
        var settled: Receipt;
        ok, settled := Settlement(selected, receipt);
      } else {
        ok := Accept(selected, receipt);
      }
      r := if ok then Recovered(receipt) else NoAuthority;
    }

    method Status(selected: nat) returns (r: Recovery)
      requires Valid()
      modifies this
      ensures Continues() && calls == old(calls)
    {
      r := RecoverReceipt(selected, None);
    }

    /** `Stop`: settle the recovered authority, then observe it settled. */
    method Stop(selected: nat) returns (result: Option<Receipt>)
      requires Valid()
      modifies this
      ensures Continues() && |calls| <= |old(calls)| + 1 && OnlySettles(calls, |old(calls)|)
      ensures result.Some? ==> |calls| == |old(calls)| + 1 && calls[|old(calls)|].Settle? && calls[|old(calls)|].claim == result.value.claim
      ensures result.Some? ==> result.value.known && result.value.sound && CleanedUp(calls)
      ensures result.Some? ==> |answers| > |old(answers)| + 1 && answers[|answers| - 1] == result
      ensures result.Some? ==> journal.authority.Some? && journal.authority.value.claim == result.value.claim
                               && (result.value.session.Some? ==> Pinned(journal) == result.value.session)
      ensures calm && able && Askable(old(journal), selected, None) && result.None? ==>
                || Faulty(answers, |old(answers)|, journal, old(journal).authority.value.claim)
                || !AllKnown(calls, |old(calls)|) || answers == [] || answers[|answers| - 1].None? || !answers[|answers| - 1].value.known
    {
      var r := RecoverReceipt(selected, None);
      if !r.Recovered? { return None; }
      var ok, known, lost := SettleHost(selected, r.receipt);
      if !ok || !known { return None; }
      var after := RecoverReceipt(selected, r.receipt.session);
      if !after.Recovered? || after.receipt.claim != r.receipt.claim { return None; }
      if r.receipt.session.Some? && after.receipt.session != r.receipt.session { return None; }
      if !after.receipt.known { return None; }
      result := Some(after.receipt);
    }

    /** `collectEvidence`: every file is fetched under the pin, checked before
        the call and again before the content is kept. */
    method CollectEvidence(selected: nat, receipt: Receipt) returns (ok: bool, lost: bool, kept: nat)
      requires Valid() && receipt.session.Some?
      modifies this`journal, this`history, this`calls
      ensures Continues() && (ok ==> kept == receipt.files && !lost)
      ensures |old(calls)| + kept <= |calls| <= |old(calls)| + kept + 1 && (ok ==> |calls| == |old(calls)| + kept)
      ensures FetchesAs(calls, |old(calls)|, receipt)
      ensures calm && Authorized(old(journal), selected, receipt) ==> !lost && journal == old(journal) && (able ==> ok)
    {
      hide Sound;
      kept, lost := 0, false;
      while kept < receipt.files
        invariant Continues() && kept <= receipt.files && |calls| == |old(calls)| + kept
        invariant FetchesAs(calls, |old(calls)|, receipt)
        invariant calm && Authorized(old(journal), selected, receipt) ==> journal == old(journal)
      {
        var settled: Receipt;
        ok, settled := Settlement(selected, receipt);
        if !ok { return false, true, kept; }
        Log(Fetch(receipt.claim, receipt.session, journal));
        var intact, stored: bool := *, *;
        intact, stored := intact || able, stored || able;
        if !intact { return false, false, kept; }
        ok, settled := Settlement(selected, receipt);
        if !ok { return false, true, kept; }
        if !stored { return false, false, kept; }
        kept := kept + 1;
      }
      ok := true;
    }

    /** `validateReceipt`, for the claim and the Session; the rest is `sound`. */
    static predicate ChangesAuthority(receipt: Receipt, claim: Claim, expected: Option<Session>) {
      receipt.claim != claim || (expected.Some? && receipt.session != expected)
    }

    static predicate Acceptable(receipt: Receipt) {
      receipt.sound && receipt.session.Some? && receipt.session.value.valid
    }

    /** What `Run` may report as its result: a Run that ended complete, under a
        valid Session, and was settled with a known cleanup. */
    static predicate Succeeded(receipt: Receipt) {
      receipt.terminal && receipt.complete && receipt.sound && receipt.known && receipt.session.Some? && receipt.session.value.valid
    }

    /** The result is the receipt the host answered last, with the cleanup that
        was confirmed since. */
    static predicate Reports(result: Receipt, answer: Option<Receipt>) {
      answer.Some? && result == answer.value.(known := true)
    }

    /** `Run`: the one client that records the claim acquires, stages and starts
        with it; whatever fails later is settled, unless the authority to
        settle is itself in doubt. */
    method Run(selected: nat, claim: Claim, polls: nat, interactive: bool) returns (result: Option<Receipt>, lost: bool)
      requires Valid()
      modifies this
      ensures Continues() && InOrder(calls, |old(calls)|)
      ensures calls != old(calls) ==> old(journal).authority.None? && journal.authority.Some?
      ensures calls != old(calls) ==> calls[|old(calls)|].Acquire? && (lost || EndsSettled(calls, |old(calls)|))
      ensures result.Some? ==> result.value.claim == claim && result.value.session.Some? && Pinned(journal) == result.value.session
      ensures result.Some? ==> |calls| > |old(calls)| + 3 + result.value.files
      ensures result.Some? ==> Succeeded(result.value) && CleanedUp(calls)
      ensures result.Some? ==> |answers| > |old(answers)| && Reports(result.value, answers[|answers| - 1])
      ensures calm && lost ==> Contradicted(answers, |old(answers)|, journal, claim)
      ensures calm && able && old(journal).authority.None? && !interactive && result.None? ==>
                Unfinished(polls, |old(answers)|, |old(calls)|, claim)
    {
      hide Sound;
      result, lost := None, false;
      var ok := Record(selected, claim);
      if !ok { return; }
      var inspected, acquired: bool := *, *;
      inspected, acquired := inspected || able, acquired || able;
      if !inspected { return; }
      var receipt := Receipt(claim, None, false, false, 0, false, true);
      Log(Acquire(claim, journal));
      var known: bool;
      if !acquired {
        ok, known, lost := SettleHost(selected, receipt);
        return;
      }
      result, lost, receipt := RunClaimed(selected, claim, receipt, polls);
      if result.Some? || lost { return; }
      lost := GiveUp(selected, receipt, interactive);
    }

    /** Whatever failed, the Run is settled. */
    method GiveUp(selected: nat, receipt: Receipt, interactive: bool) returns (lost: bool)
      requires Valid()
      modifies this
      ensures Continues() && OnlySettles(calls, |old(calls)|) && (lost || EndsSettled(calls, |old(calls)|))
      ensures calm && Authorized(old(journal), selected, receipt) && lost ==>
                Contradicted(answers, |old(answers)|, journal, receipt.claim)
      ensures calm && receipt.session.Some? && Pinned(old(journal)) != receipt.session ==> journal == old(journal)
      ensures !interactive ==> answers == old(answers) && (calm ==> journal == old(journal))
      ensures calm && interactive && Authorized(old(journal), selected, receipt) ==> |answers| > |old(answers)|
    {
      var known: bool;
      var last := receipt;
      if interactive {
        var settled: bool;
        settled, lost, last := RecoverFailure(selected, receipt);
        if settled || lost { return; }
      }
      var ok;
      ok, known, lost := SettleHost(selected, last);
    }

    /** Why a client that could do everything reports no success: the host gave
        no usable answer, named no Session, did not finish the Run in time or
        not as complete, or reported no known cleanup. */
    ghost predicate Unfinished(polls: nat, heard: nat, called: nat, claim: Claim)
      reads this
    {
      || Faulty(answers, heard, journal, claim) || journal.pin.None? || !AllKnown(calls, called)
      || (|answers| > heard && answers[|answers| - 1].Some?
          && !(answers[|answers| - 1].value.terminal && answers[|answers| - 1].value.complete)
          && (answers[|answers| - 1].value.terminal || |answers| == heard + 1 + polls))
    }

    method RunClaimed(selected: nat, claim: Claim, acquired: Receipt, polls: nat)
      returns (result: Option<Receipt>, lost: bool, receipt: Receipt)
      requires Valid() && journal.authority == Some(Authority(claim, selected)) && acquired.claim == claim
      modifies this
      ensures Continues() && receipt.claim == claim && StagesFirst(calls, |old(calls)|)
      ensures result.Some? ==> result.value == receipt && receipt.session.Some? && Pinned(journal) == receipt.session
      ensures result.Some? ==> Succeeded(receipt) && CleanedUp(calls)
      ensures result.Some? ==> |answers| > |old(answers)| && Reports(receipt, answers[|answers| - 1])
      ensures calm && old(journal).pin.None? && acquired.session.None? ==>
                (!lost && Authorized(journal, selected, receipt)) || Contradicted(answers, |old(answers)|, journal, claim)
      ensures result.Some? ==> EndsSettled(calls, |old(calls)|) && |calls| == |old(calls)| + receipt.files + 3
      ensures calm && able && old(journal).pin.None? && acquired.session.None? && result.None? ==>
                Unfinished(polls, |old(answers)|, |old(calls)|, claim)
    {
      var started: bool;
      result := None;
      started, lost, receipt := StartClaimed(selected, claim, acquired);
      if !started { return; }
      lost, receipt := Poll(selected, claim, receipt, polls);
      if lost || !receipt.terminal || !receipt.complete { return; }
      var finished: bool;
      finished, lost := Finish(selected, receipt);
      if finished {
        receipt := receipt.(known := true);
        result := Some(receipt);
      }
    }

    /** Stage and start with the recorded claim, and pin the Session started. */
    method StartClaimed(selected: nat, claim: Claim, acquired: Receipt) returns (ok: bool, lost: bool, receipt: Receipt)
      requires Valid() && journal.authority == Some(Authority(claim, selected)) && acquired.claim == claim
      modifies this
      ensures Continues() && receipt.claim == claim && StagesFirst(calls, |old(calls)|)
      ensures ok ==> Acceptable(receipt)
      ensures ok ==> !lost && receipt.session.Some? && Pinned(journal) == receipt.session && |calls| == |old(calls)| + 2
      ensures ok ==> answers == old(answers) + [Some(receipt)]
      ensures calm && old(journal).pin.None? && acquired.session.None? ==>
                (!lost && Authorized(journal, selected, receipt)) || Contradicted(answers, |old(answers)|, journal, claim)
      ensures calm && able && old(journal).pin.None? && !ok ==>
                Faulty(answers, |old(answers)|, journal, claim) || journal.pin.None?
    {
      hide Sound;
      ok, lost, receipt := false, false, acquired;
      Log(Stage(claim, journal));
      var staged, answered, failed: bool := *, *, *;
      staged, answered, failed := staged || able, answered || able, failed && !able;
      if !staged { return; }
      Log(Start(claim, journal));
      var started: Receipt := *;
      if !answered { return; }
      Hear(Some(started));
      if started.claim == claim && started.session.Some? { receipt := receipt.(session := started.session); }
      var record := Load(selected);
      ok, lost := Trust(selected, claim, started, failed);
      assert answers[|old(answers)|] == Some(started);
      assert calm && (started.claim != claim || started.session != Pinned(journal)) ==>
               Contradicts(answers[|old(answers)|], journal, claim);
      if ok { receipt := started; }
    }

    /** The receipt of a Start is believed if it is sound and its Session is the
        pinned one, or can be pinned now. */
    method Trust(selected: nat, claim: Claim, started: Receipt, failed: bool) returns (ok: bool, lost: bool)
      requires Valid() && journal.authority == Some(Authority(claim, selected))
      modifies this`journal, this`history
      ensures Continues()
      ensures ok ==> !lost && Acceptable(started) && started.claim == claim && Pinned(journal) == started.session
      ensures calm && old(journal).pin.None? ==>
                && lost == (started.claim != claim) && ok == (started.claim == claim && Acceptable(started) && !failed)
                && (!ok ==> journal == old(journal))
    {
      hide Sound, Lawful;
      var record := Load(selected);
      if record.Unavailable? || ChangesAuthority(started, claim, record.session) { return false, true; }
      if !Acceptable(started) || failed { return false, false; }
      if record.session.Some? {
        var settled: Receipt;
        ok, settled := Settlement(selected, started);
      } else {
        ok := Accept(selected, started);
      }
      lost := !ok;
    }

    /** A complete Run: collect its evidence, settle it, publish the bundle. */
    method Finish(selected: nat, receipt: Receipt) returns (ok: bool, lost: bool)
      requires Valid() && receipt.session.Some?
      modifies this`journal, this`history, this`calls
      ensures Continues() && (ok ==> Pinned(journal) == receipt.session)
      ensures OnlySettles(calls, |old(calls)|) && (ok ==> EndsSettled(calls, |old(calls)|) && |calls| == |old(calls)| + receipt.files + 1)
      ensures ok ==> CleanedUp(calls)
      ensures calm && Authorized(old(journal), selected, receipt) ==> !lost && journal == old(journal)
      ensures calm && able && Authorized(old(journal), selected, receipt) && !ok ==> !AllKnown(calls, |old(calls)|)
    {
      var kept: nat;
      var known, published: bool;
      var settled: Receipt;
      ok, lost, kept := CollectEvidence(selected, receipt);
      if !ok { return; }
      ok, known, lost := SettleHost(selected, receipt);
      if !ok || !known { return false, lost; }
      ok, settled := Settlement(selected, receipt);
      if !ok { return false, true; }
      published := *;
      ok := published || able;
    }

    /** The polling loop, until a terminal receipt or the deadline. */
    method Poll(selected: nat, claim: Claim, first: Receipt, polls: nat) returns (lost: bool, receipt: Receipt)
      requires Valid() && first.claim == claim && Acceptable(first)
      requires |answers| > 0 && answers[|answers| - 1] == Some(first)
      modifies this
      ensures Continues() && receipt.claim == claim && receipt.session == first.session && calls == old(calls)
      ensures Acceptable(receipt)
      ensures !lost && receipt.terminal ==> answers[|answers| - 1] == Some(receipt)
      ensures calm && Authorized(old(journal), selected, first) ==> journal == old(journal)
      ensures calm && Authorized(old(journal), selected, first) && lost ==> Contradicted(answers, |old(answers)|, journal, claim)
      ensures calm && able && Authorized(old(journal), selected, first) ==>
                || Faulty(answers, |old(answers)|, journal, claim)
                || (!lost && answers[|answers| - 1] == Some(receipt) && (receipt.terminal || |answers| == |old(answers)| + polls))
    {
      lost, receipt := false, first;
      var left := polls;
      while !receipt.terminal && left > 0
        invariant Continues() && receipt.claim == claim && receipt.session == first.session && calls == old(calls)
        invariant Acceptable(receipt) && !lost && answers[|answers| - 1] == Some(receipt)
        invariant calm && Authorized(old(journal), selected, first) ==> journal == old(journal)
        invariant |answers| == |old(answers)| + polls - left
      {
        var ok, settled := Settlement(selected, receipt);
        if !ok { return true, receipt; }
        var answered: bool := *;
        var observed: Receipt := *;
        answered := answered || able;
        if !answered { return; }
        Hear(Some(observed));
        if ChangesAuthority(observed, claim, first.session) {
          assert calm && Authorized(journal, selected, first) ==> Contradicts(answers[|answers| - 1], journal, claim);
          return true, receipt;
        }
        if !Acceptable(observed) { return; }
        ok, settled := Settlement(selected, observed);
        if !ok { return true, receipt; }
        receipt := observed;
        left := left - 1;
      }
    }

    /** The files of a failed Run that were declared and are still missing. */
    method CollectRest(selected: nat, receipt: Receipt) returns (lost: bool)
      requires Valid()
      modifies this`journal, this`history, this`calls
      ensures Continues() && OnlySettles(calls, |old(calls)|)
      ensures calm && Authorized(old(journal), selected, receipt) ==> !lost && journal == old(journal)
    {
      var file := 0;
      lost := false;
      while file < receipt.files
        invariant Continues() && OnlySettles(calls, |old(calls)|) && !lost
        invariant calm && Authorized(old(journal), selected, receipt) ==> journal == old(journal)
      {
        var declared, missing: bool := *, *;
        if declared && missing && receipt.session.Some? {
          var ok, gone, kept := CollectEvidence(selected, receipt.(complete := false, files := 1));
          if gone { return true; }
        }
        file := file + 1;
      }
    }

    /** `recoverUIFailure`: collect what a failed interactive Run left, settle
        it, and observe it settled. */
    method RecoverFailure(selected: nat, previous: Receipt) returns (settled: bool, lost: bool, receipt: Receipt)
      requires Valid()
      modifies this
      ensures Continues() && receipt.claim == previous.claim
      ensures OnlySettles(calls, |old(calls)|) && (settled ==> EndsSettled(calls, |old(calls)|) && CleanedUp(calls))
      ensures calm && Authorized(old(journal), selected, previous) ==>
                (!lost && Authorized(journal, selected, receipt)) || Contradicted(answers, |old(answers)|, journal, previous.claim)
      ensures calm && previous.session.Some? && Pinned(old(journal)) != previous.session ==> lost && journal == old(journal)
      ensures calm && Authorized(old(journal), selected, previous) ==> |answers| > |old(answers)|
    {
      hide Sound, Lawful;
      receipt := previous;
      var r := RecoverReceipt(selected, previous.session);
      if r.NoAuthority? { return false, true, receipt; }
      if r.receipt.claim == previous.claim && r.receipt.session.Some? && previous.session in {None, r.receipt.session} {
        receipt := receipt.(session := r.receipt.session);
      }
      if !r.Recovered? { return false, false, receipt; }
      if r.receipt.claim != receipt.claim || (receipt.session.Some? && r.receipt.session != receipt.session) {
        return false, true, receipt;
      }
      if !r.receipt.sound { return false, false, receipt; }
      var gone := CollectRest(selected, r.receipt);
      if gone { return false, true, receipt; }
      var ok, known;
      ok, known, gone := SettleHost(selected, r.receipt);
      if !ok || !known { return false, gone, receipt; }
      var after := RecoverReceipt(selected, r.receipt.session);
      settled, lost := true, after.NoAuthority?;
    }
  }

  // ----- every client of the Run together -----

  datatype Request =
    | RunClaim(selected: nat, claim: Claim, polls: nat, interactive: bool)
    | AskStatus(selected: nat) | StopRun(selected: nat) | RecoverRun(selected: nat, previous: Receipt)

  const UNCLAIMED := Journal(None, None)

  predicate AcquiredOnce(calls: seq<Call>) {
    forall j, k :: 0 <= j < |calls| && 0 <= k < |calls| && calls[j].Acquire? && calls[k].Acquire? ==> j == k
  }

  /** Successes are of complete, cleaned up Runs under the pinned Session, stops
      of the recorded claim with a known cleanup. */
  predicate AllReported(results: seq<Receipt>, stopped: seq<Receipt>, now: Journal) {
    && (forall j :: 0 <= j < |results| ==> Client.Succeeded(results[j]) && results[j].session == Pinned(now))
    && forall j :: 0 <= j < |stopped| ==>
         stopped[j].known && now.authority.Some? && stopped[j].claim == now.authority.value.claim
  }

  lemma ReportedStays(results: seq<Receipt>, stopped: seq<Receipt>, before: Journal, after: Journal)
    requires AllReported(results, stopped, before) && Rely(before, after)
    ensures AllReported(results, stopped, after)
  {
  }

  /** One request: what Run, or else Stop, reports as its success. */
  method Answer(client: Client, request: Request) returns (result: Option<Receipt>, stopped: Option<Receipt>)
    requires client.Valid() && AcquiredOnce(client.calls) && (client.calls != [] ==> client.journal.authority.Some?)
    modifies client
    ensures client.Valid() && AcquiredOnce(client.calls) && (client.calls != [] ==> client.journal.authority.Some?)
    ensures Rely(old(client.journal), client.journal) && client.history[0] == old(client.history[0])
    ensures |old(client.calls)| <= |client.calls|
    ensures result.Some? ==> Client.Succeeded(result.value) && result.value.session == Pinned(client.journal)
    ensures result.Some? ==> old(client.calls) == [] && client.calls != []
    ensures stopped.Some? ==>
              stopped.value.known && client.journal.authority.Some? && stopped.value.claim == client.journal.authority.value.claim
  {
    ghost var before := client.calls;
    result, stopped := None, None;
    var lost: bool;
    match request {
      case RunClaim(selected, claim, polls, interactive) =>
        result, lost := client.Run(selected, claim, polls, interactive);
        assert client.calls != before ==> before == [] && InOrder(client.calls, 0);
      case AskStatus(selected) =>
        var recovery := client.Status(selected);
      case StopRun(selected) =>
        stopped := client.Stop(selected);
      case RecoverRun(selected, previous) =>
        var settled, receipt;
        settled, lost, receipt := client.RecoverFailure(selected, previous);
    }
    assert client.calls != [] ==> Lawful(client.calls[0], client.journal);
  }

  /** From an empty journal, any requests of any clients, while others work on
      the journal or crash: the Run is acquired at most once, all calls made
      carry the one claim, and at most one request reports the Run a success,
      which then ended complete under the pinned Session and was cleaned up. */
  method Serve(requests: seq<Request>, calm: bool, able: bool) returns (client: Client, results: seq<Receipt>, stopped: seq<Receipt>)
    ensures client.Valid() && client.history[0] == UNCLAIMED && AcquiredOnce(client.calls)
    ensures forall j, k :: 0 <= j < |client.calls| && 0 <= k < |client.calls| ==> client.calls[j].claim == client.calls[k].claim
    ensures |results| <= 1
    ensures AllReported(results, stopped, client.journal)
  {
    client := new Client(UNCLAIMED, calm, able);
    results, stopped := [], [];
    for n := 0 to |requests|
      invariant fresh(client) && client.Valid() && client.history[0] == UNCLAIMED && AcquiredOnce(client.calls)
      invariant client.calls != [] ==> client.journal.authority.Some?
      invariant |results| <= if client.calls == [] then 0 else 1
      invariant AllReported(results, stopped, client.journal)
    {
      ghost var before := client.journal;
      var result, stop := Answer(client, requests[n]);
      ReportedStays(results, stopped, before, client.journal);
      if result.Some? { results := results + [result.value]; }
      if stop.Some? { stopped := stopped + [stop.value]; }
    }
  }

  lemma {:induction false} HistoryRelies(history: seq<Journal>, i: nat, j: nat)
    requires Sound(history) && i <= j < |history|
    ensures Rely(history[i], history[j])
    decreases j
  {
    if i < j { HistoryRelies(history, i, j - 1); }
  }

  /** At most one claim is ever recorded and at most one Session ever pinned,
      under that claim. */
  lemma OnePin(history: seq<Journal>, i: nat, j: nat)
    requires Sound(history) && i < |history| && j < |history| && history[i].pin.Some? && history[j].pin.Some?
    ensures history[i].pin == history[j].pin && history[i].authority == history[j].authority
    ensures history[i].authority.Some? && history[i].pin.value.claim == history[i].authority.value.claim
  {
    if i <= j { HistoryRelies(history, i, j); } else { HistoryRelies(history, j, i); }
  }

  /** The claim is recorded at one moment only, so of all clients only the one
      that recorded it acquires, stages and starts. */
  lemma RecordedOnce(history: seq<Journal>, i: nat, j: nat)
    requires Sound(history) && 0 < i < |history| && 0 < j < |history|
    requires history[i - 1].authority.None? && history[i].authority.Some? && history[j - 1].authority.None?
    requires history[j].authority.Some?
    ensures i == j
  {
    if i < j { HistoryRelies(history, i, j - 1); } else if j < i { HistoryRelies(history, j, i - 1); }
  }

  /** Of any calls, by any clients, to any host: all carry the same claim, and
      those that carry a Session carry the same one. A settlement carries none
      only if nothing was pinned when it was authorized. */
  lemma CallsAgree(now: Journal, one: Call, two: Call)
    requires Lawful(one, now) && Lawful(two, now)
    ensures one.claim == two.claim && now.authority.Some? && one.claim == now.authority.value.claim
    ensures one.Settle? && one.session.Some? ==> one.session == Pinned(now)
    ensures one.Settle? && one.session.None? ==> one.seen.pin.None?
    ensures one.Fetch? ==> one.session.Some? && one.session == Pinned(now)
    ensures one.Fetch? && two.Settle? && two.session.Some? ==> one.session == two.session
  {
  }
}
