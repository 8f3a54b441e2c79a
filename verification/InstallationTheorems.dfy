/**
 What holds along every accepted checkpoint chain, between any two of its
 records.
 */
module InstallationTheorems {
  import opened Options
  import opened InstallationChain

  lemma {:induction false} ChainSound(records: seq<Record>, operator: Operator, i: nat)
    requires Chain(records, operator) && i < |records|
    ensures Sound(records[i], operator)
  {
    if i > 0 {
      ChainSound(records, operator, i - 1);
      assert Linked(records[i - 1], records[i], operator);
    }
  }

  lemma ConservesTrans(a: Record, b: Record, c: Record)
    requires Conserves(a, b) && Conserves(b, c)
    ensures Conserves(a, c)
  {
  }

  /** Install intent, installer execution, Run claim and the first pinned Session
      are the same in every later record of the chain. */
  lemma {:induction false} AuthorityIsConserved(records: seq<Record>, operator: Operator, i: nat, j: nat)
    requires Chain(records, operator) && i <= j < |records|
    ensures Conserves(records[i], records[j])
    decreases j - i
  {
    if i < j {
      AuthorityIsConserved(records, operator, i, j - 1);
      ChainSound(records, operator, j - 1);
      assert Linked(records[j - 1], records[j], operator);
      AcceptedConserves(records[j - 1], records[j], operator);
      ConservesTrans(records[i], records[j - 1], records[j]);
    }
  }

  predicate HoldsGrant(record: Record) {
    PairedAuthority(record.At(), record.Held())
  }

  lemma GrantStep(before: Record, after: Record, operator: Operator)
    requires after.Checkpoint? && Sound(before, operator) && Accepts(before, after, operator, after.invocation)
    requires HoldsGrant(before)
    ensures (HoldsGrant(after) || after.stage.Unpaired?) && !after.stage.RemoveReleased?
  {
  }

  /** Removal is never released while a pairing grant may be live: every way
      from a released pairing to a released removal passes a recorded
      revocation. */
  lemma {:induction false} RemovalFollowsRevocation(records: seq<Record>, operator: Operator, i: nat, j: nat) returns (k: nat)
    requires Chain(records, operator) && i < j < |records|
    requires HoldsGrant(records[i]) && records[j].At().RemoveReleased?
    ensures i < k < j && records[k].At().Unpaired?
    decreases j - i
  {
    ChainSound(records, operator, i);
    assert Linked(records[i], records[i + 1], operator);
    GrantStep(records[i], records[i + 1], operator);
    if records[i + 1].At().Unpaired? {
      k := i + 1;
    } else {
      k := RemovalFollowsRevocation(records, operator, i + 1, j);
    }
  }

  // ----- what a proven removal shows -----

  /** The stages a chain can still reach from a settled installation. */
  predicate PastInstall(stage: Stage) {
    !stage.Bound? && !stage.InstallReleased? && !stage.InstallObserved?
  }

  lemma InstallCarried(before: Record, after: Record, operator: Operator)
    requires after.Checkpoint? && Sound(before, operator) && Accepts(before, after, operator, after.invocation)
    requires PastInstall(before.At())
    ensures PastInstall(after.At()) && InstallRecord(after.At(), after.Held()) == InstallRecord(before.At(), before.Held())
  {
    if after.stage.RemoveReleased? || after.stage.UnpairReleased? {
      ReleaseStands(before, after, operator);
    } else if Wraps(after.stage) {
      SettlementStands(before, after, operator);
    }
  }

  /** The record of the installation, once it is settled, is the same in every
      later record of the chain. */
  lemma {:induction false} InstallKept(records: seq<Record>, operator: Operator, i: nat, j: nat)
    requires Chain(records, operator) && i <= j < |records| && PastInstall(records[i].At())
    ensures PastInstall(records[j].At())
    ensures InstallRecord(records[j].At(), records[j].Held()) == InstallRecord(records[i].At(), records[i].Held())
    decreases j - i
  {
    if i < j {
      InstallKept(records, operator, i, j - 1);
      ChainSound(records, operator, j - 1);
      assert Linked(records[j - 1], records[j], operator);
      InstallCarried(records[j - 1], records[j], operator);
    }
  }

  /** A removal is believed only with a view of the host in which the task is
      gone, the installation's own record is not, and everything foreign is as it
      was before the installation; a target that was published is still there. */
  lemma RemovalProven(records: seq<Record>, operator: Operator, j: nat)
    requires Chain(records, operator) && j < |records| && records[j].At().Removed?
    ensures var data := records[j].Held();
            && data.preserved.Some? && data.removeRepeat.Some?
            && !data.preserved.value.installationAbsent && data.preserved.value.taskAbsent
            && data.preserved.value.files == operator.before.files && data.preserved.value.tasks == operator.before.tasks
    ensures var data := records[j].Held();
            && data.intent.Some? && data.intent.value.operation.Remove?
            && data.observed.Some? && data.observed.value.state.HostRemoved?
            && data.observed.value.terminal && data.observed.value.released
            && data.observed.value.operationId == data.intent.value.operationId == records[j].anchor.removeId
    ensures forall i :: 0 <= i <= j && records[i].At().Installed? ==>
              && records[i].Held().observed.Some?
              && (records[i].Held().observed.value.publication == Publication.Published ==>
                    !records[j].Held().preserved.value.targetAbsent)
  {
    ChainSound(records, operator, j);
    assert Removing(records[j].At(), records[j].Held(), records[j].anchor, operator);
    forall i | 0 <= i <= j && records[i].At().Installed?
      ensures records[i].Held().observed.Some?
      ensures records[i].Held().observed.value.publication == Publication.Published ==>
                !records[j].Held().preserved.value.targetAbsent
    {
      ChainSound(records, operator, i);
      InstallKept(records, operator, i, j);
      Unwrap(records[j].At(), records[j].Held());
    }
  }

  // ----- how often a Run is recorded as owned -----

  predicate Unpinned(record: Record) {
    record.At().RunOwned? && record.Held().run.Some? && record.Held().run.value.session.None?
  }

  /** What a repeated `run-owned` record adds: the pinned Session or, since the
      checker compares only the keys the old record has, a pairing. */
  lemma OwnedAgain(before: Record, after: Record, operator: Operator)
    requires after.Checkpoint? && Sound(before, operator) && Accepts(before, after, operator, after.invocation)
    requires before.At().RunOwned? && after.At().RunOwned?
    ensures (Unpinned(before) && !Unpinned(after)) || (before.data.pairing.None? && after.data.pairing.Some?)
    ensures Unpinned(after) ==> Unpinned(before)
    ensures before.data.pairing.Some? ==> after.data.pairing.Some?
  {
    var left, right := before.data, after.data;
    assert right == EMPTY.(target := right.target, pairing := right.pairing, run := right.run);
    assert left == EMPTY.(target := left.target, pairing := left.pairing, run := left.run);
    assert left.target == right.target;
    assert right.run.value.(session := None) == left.run.value.(session := None);
    if right.run.value.session == left.run.value.session {
      assert right.run.value == left.run.value.(session := right.run.value.session);
    }
  }

  /** How many repeats of `run-owned` the checker still admits: a record may
      gain a pairing and a Session, once each. */
  function Gains(record: Record): nat {
    (if record.Held().pairing.None? then 1 else 0) + (if Unpinned(record) then 1 else 0)
  }

  lemma GainSpent(before: Record, after: Record, operator: Operator)
    requires after.Checkpoint? && Sound(before, operator) && Accepts(before, after, operator, after.invocation)
    requires before.At().RunOwned? && after.At().RunOwned?
    ensures Gains(after) < Gains(before)
  {
    hide Sound, Accepts;
    OwnedAgain(before, after, operator);
  }

  predicate PastRun(stage: Stage) {
    stage.RunClean? || Wraps(stage)
  }

  lemma {:induction false} PastRunStays(records: seq<Record>, operator: Operator, i: nat, j: nat)
    requires Chain(records, operator) && i <= j < |records| && PastRun(records[i].At())
    ensures PastRun(records[j].At())
    decreases j - i
  {
    if i < j {
      PastRunStays(records, operator, i, j - 1);
      assert Linked(records[j - 1], records[j], operator);
    }
  }

  /** Along a whole chain the `run-owned` records follow each other, and there
      are no more of them after one than it still has to gain: at most two. */
  lemma {:induction false} RunOwnedBound(records: seq<Record>, operator: Operator, i: nat, j: nat)
    requires Chain(records, operator) && i <= j < |records|
    requires records[i].At().RunOwned? && records[j].At().RunOwned?
    ensures j - i <= Gains(records[i]) <= 2
    decreases j - i
  {
    hide Sound, Accepts, Gains, Parses;
    if i < j {
      ChainSound(records, operator, i);
      OwnedNext(records, operator, i, j);
      GainSpent(records[i], records[i + 1], operator);
      RunOwnedBound(records, operator, i + 1, j);
    }
    assert Gains(records[i]) <= 2 by { GainsTwo(records[i]); }
  }

  lemma GainsTwo(record: Record)
    ensures Gains(record) <= 2
  {
  }

  lemma OwnedNext(records: seq<Record>, operator: Operator, i: nat, j: nat)
    requires Chain(records, operator) && i < j < |records|
    requires records[i].At().RunOwned? && records[j].At().RunOwned?
    ensures Linked(records[i], records[i + 1], operator) && records[i + 1].At().RunOwned?
  {
    assert Linked(records[i], records[i + 1], operator);
    if PastRun(records[i + 1].At()) {
      PastRunStays(records, operator, i + 1, j);
    }
  }

  /** With a pairing, as the driver always records it before the Run, or with
      the Session pinned, `run-owned` is repeated at most once in any chain. */
  lemma PairedRunRepeatsOnce(records: seq<Record>, operator: Operator, i: nat, j: nat)
    requires Chain(records, operator) && i <= j < |records|
    requires records[i].At().RunOwned? && records[j].At().RunOwned?
    requires records[i].Held().pairing.Some? || !Unpinned(records[i])
    ensures j <= i + 1
  {
    hide Chain;
    RunOwnedBound(records, operator, i, j);
  }

  /** `record` is followed by `times` more `run-owned` records, by whichever attempts. */
  ghost predicate Repeats(record: Record, times: nat, operator: Operator)
    decreases times
  {
    times > 0 ==> exists next :: Linked(record, next, operator) && next.At().RunOwned? && Repeats(next, times - 1, operator)
  }

  lemma {:induction false} RepeatsBound(record: Record, times: nat, operator: Operator)
    requires Sound(record, operator) && record.At().RunOwned? && Repeats(record, times, operator)
    ensures times <= Gains(record) && (times > 0 ==> record.sequence + times < MAX_REVISIONS)
    decreases times
  {
    hide Sound, Parses, Gains;
    if times > 0 {
      var next :| Linked(record, next, operator) && next.At().RunOwned? && Repeats(next, times - 1, operator);
      AcceptedConserves(record, next, operator);
      GainSpent(record, next, operator);
      RepeatsBound(next, times - 1, operator);
    }
  }

  /** The next `run-owned` record, with a pairing or else a Session added. */
  function Gaining(record: Record): Record
    requires record.Checkpoint? && record.data.run.Some?
  {
    var run := record.data.run.value;
    var data := if record.data.pairing.None? then record.data.(pairing := Some(Pairing(0, 0, 0, Some(0), Some(0))))
                else record.data.(run := Some(run.(session := Some(SessionPin(0, run.runId, run.claim, run.fingerprint, 0)))));
    Checkpoint(record.anchor, record.sequence + 1, record, Invocation(record.invocation.attempt, record.anchor.request), RunOwned, data)
  }

  lemma GainLinks(record: Record, operator: Operator)
    requires record.Checkpoint? && Sound(record, operator) && record.stage.RunOwned?
    requires Gains(record) > 0 && record.sequence + 1 < MAX_REVISIONS
    ensures Linked(record, Gaining(record), operator) && Gains(Gaining(record)) == Gains(record) - 1
  {
  }

  lemma {:induction false} MayRepeatTimes(record: Record, times: nat, operator: Operator)
    requires record.Checkpoint? && Sound(record, operator) && record.stage.RunOwned?
    requires times <= Gains(record) && (times > 0 ==> record.sequence + times < MAX_REVISIONS)
    ensures Repeats(record, times, operator)
    decreases times
  {
    hide Sound, Parses, Gains, Linked;
    if times > 0 {
      OwnedHasRun(record, operator);
      var next := Gaining(record);
      GainLinks(record, operator);
      assert Sound(next, operator) by { LinkedSound(record, next, operator); }
      MayRepeatTimes(next, times - 1, operator);
    }
  }

  lemma OwnedHasRun(record: Record, operator: Operator)
    requires record.Checkpoint? && Sound(record, operator) && record.stage.RunOwned?
    ensures record.data.run.Some?
  {
  }

  lemma LinkedSound(before: Record, after: Record, operator: Operator)
    requires Linked(before, after, operator)
    ensures Sound(after, operator)
  {
  }

  /** `run-owned` can be repeated exactly as often as the record has something
      to gain and the chain has room. */
  lemma RunOwnedRepeats(record: Record, times: nat, operator: Operator)
    requires record.Checkpoint? && Sound(record, operator) && record.stage.RunOwned?
    ensures Repeats(record, times, operator)
            <==> times <= Gains(record) && (times > 0 ==> record.sequence + times < MAX_REVISIONS)
  {
    hide Sound, Repeats, Gains;
    if Repeats(record, times, operator) { RepeatsBound(record, times, operator); }
    if times <= Gains(record) && (times > 0 ==> record.sequence + times < MAX_REVISIONS) { MayRepeatTimes(record, times, operator); }
  }

  // ----- a chain with three of them -----

  const ANCHOR := Anchor(1, 2, 3, 4)
  const WORKER := Invocation(1, 1)

  const INTENT := Intent(Install, 3, 2, Preview(0, 0, Planned, true), true)
  const SEEN := Observation(2, 3, 0, 0, Published, Pin(0, 0, 0, ProcessStarted, None, None), true, true, true, false, HostInstalled, 0)
  const CLAIM := Claim(5, 6, 0, 9)

  const INSTALLED := EMPTY.(intent := Some(INTENT), observed := Some(SEEN))
  const TARGET := EMPTY.(install := Some(INSTALLED), targetHash := Some(7))
  const RUNNING := EMPTY.(target := Some(TARGET))
  const OWNED := RUNNING.(run := Some(Run(5, 0, 0, CLAIM, OfTarget(8), None)))

  function Following(previous: Record, stage: Stage, data: Doc): Record {
    Checkpoint(ANCHOR, previous.Number() + 1, previous, WORKER, stage, data)
  }

  function Upto(k: nat): (record: Record)
    requires k <= 6
    ensures record.Number() == k
  {
    if k == 0 then Initial(ANCHOR)
    else Following(Upto(k - 1), StageOf(k), DataOf(k))
  }

  function StageOf(k: nat): Stage {
    match k
    case 1 => InstallReleased
    case 2 => InstallObserved
    case 3 => Installed
    case 4 => TargetBound
    case 5 => RunReleased
    case _ => RunOwned
  }

  function DataOf(k: nat): Doc {
    match k
    case 1 => EMPTY.(intent := Some(INTENT))
    case 2 => INSTALLED
    case 3 => INSTALLED
    case 4 => TARGET
    case 5 => RUNNING
    case _ => OWNED
  }

  lemma {:induction false} Link1(operator: Operator)
    ensures Linked(Upto(0), Upto(1), operator)
  {
  }

  lemma {:induction false} Link2(operator: Operator)
    ensures Linked(Upto(1), Upto(2), operator)
  {
  }

  lemma {:induction false} Link3(operator: Operator)
    ensures Linked(Upto(2), Upto(3), operator)
  {
  }

  lemma {:induction false} Link4(operator: Operator)
    ensures Linked(Upto(3), Upto(4), operator)
  {
  }

  lemma {:induction false} Link5(operator: Operator)
    ensures Linked(Upto(4), Upto(5), operator)
  {
  }

  lemma {:induction false} Link6(operator: Operator)
    ensures Linked(Upto(5), Upto(6), operator)
  {
  }

  lemma {:induction false} UptoLinks(k: nat, operator: Operator)
    requires 0 < k <= 6
    ensures Linked(Upto(k - 1), Upto(k), operator)
  {
    hide Linked, Upto;
    match k
    case 1 => Link1(operator);
    case 2 => Link2(operator);
    case 3 => Link3(operator);
    case 4 => Link4(operator);
    case 5 => Link5(operator);
    case _ => Link6(operator);
  }

  lemma Latest(operator: Operator)
    ensures Sound(Upto(6), operator) && Gains(Upto(6)) == 2
  {
    UptoLinks(6, operator);
  }

  /** The bound is met: from the initial record, an unpaired Run is recorded as
      owned, then with a pairing, then with a Session. */
  lemma ThreeRunOwned(operator: Operator) returns (records: seq<Record>)
    ensures Chain(records, operator) && |records| == 9
    ensures forall k :: 6 <= k < 9 ==> records[k].At().RunOwned?
  {
    hide Linked, Sound, Gains, Parses;
    Latest(operator);
    var first := Upto(6);
    GainLinks(first, operator);
    var second := Gaining(first);
    LinkedSound(first, second, operator);
    GainLinks(second, operator);
    records := seq(7, k requires 0 <= k < 7 => Upto(k)) + [second, Gaining(second)];
    forall i | 0 < i < |records|
      ensures Linked(records[i - 1], records[i], operator)
    {
      if i <= 6 { UptoLinks(i, operator); }
    }
  }

  // ----- published chains -----

  /** The fingerprint of a Run says whether it was started paired, so a
      published chain never adds a pairing to it. */
  lemma PairingFixed(before: Record, after: Record, operator: Operator, left: Files, right: Files)
    requires Sound(before, operator) && Linked(before, after, operator)
    requires before.At().RunOwned? && after.At().RunOwned?
    requires Protected(before.At(), before.Held(), left) && Protected(after.At(), after.Held(), right)
    ensures before.Held().pairing == after.Held().pairing && Unpinned(before) && !Unpinned(after)
  {
    OwnedAgain(before, after, operator);
  }

  /** In a published chain `run-owned` is repeated at most once, to add the
      Session. */
  lemma PublishedRepeatsOnce(records: seq<Record>, operator: Operator, files: seq<Files>, i: nat, j: nat)
    requires PublishedChain(records, operator, files) && i <= j < |records|
    requires records[i].At().RunOwned? && records[j].At().RunOwned?
    ensures j <= i + 1
    ensures j == i + 1 ==> records[i].Held().pairing == records[j].Held().pairing && Unpinned(records[i]) && !Unpinned(records[j])
  {
    hide Sound, Linked, Unpinned, Protected;
    if i < j {
      ChainSound(records, operator, i);
      ChainSound(records, operator, i + 1);
      OwnedNext(records, operator, i, j);
      OwnedProtected(records, operator, files, i);
      OwnedProtected(records, operator, files, i + 1);
      PairingFixed(records[i], records[i + 1], operator, files[i], files[i + 1]);
      if i + 1 < j {
        OwnedNext(records, operator, i + 1, j);
        OwnedProtected(records, operator, files, i + 2);
        PairingFixed(records[i + 1], records[i + 2], operator, files[i + 1], files[i + 2]);
        assert false;
      }
    }
  }

  lemma OwnedProtected(records: seq<Record>, operator: Operator, files: seq<Files>, i: nat)
    requires PublishedChain(records, operator, files) && i < |records| && records[i].At().RunOwned?
    ensures Protected(records[i].At(), records[i].Held(), files[i])
  {
  }

  /** `record` is followed by `times` more published `run-owned` records. */
  ghost predicate RepeatsPublished(record: Record, times: nat, operator: Operator)
    decreases times
  {
    times > 0 ==> exists next, files ::
      && Linked(record, next, operator) && next.At().RunOwned? && Protected(next.At(), next.Held(), files)
      && RepeatsPublished(next, times - 1, operator)
  }

  lemma PublishedBound(record: Record, times: nat, operator: Operator, files: Files)
    requires Sound(record, operator) && record.At().RunOwned? && Protected(record.At(), record.Held(), files)
    requires times > 0 && RepeatsPublished(record, times, operator)
    ensures times == 1 && Unpinned(record) && record.sequence + 1 < MAX_REVISIONS
  {
    hide Sound, Parses, Unpinned, Protected;
    var next, seen :|
      && Linked(record, next, operator) && next.At().RunOwned? && Protected(next.At(), next.Held(), seen)
      && RepeatsPublished(next, times - 1, operator);
    PairingFixed(record, next, operator, files, seen);
    LinkedSound(record, next, operator);
    if times > 1 {
      var last, later :|
        && Linked(next, last, operator) && last.At().RunOwned? && Protected(last.At(), last.Held(), later)
        && RepeatsPublished(last, times - 2, operator);
      PairingFixed(next, last, operator, seen, later);
      assert false;
    }
  }

  /** The same Run with its Session pinned. */
  function Pinning(record: Record): Record
    requires record.Checkpoint? && record.data.run.Some?
  {
    var run := record.data.run.value;
    var data := record.data.(run := Some(run.(session := Some(SessionPin(0, run.runId, run.claim, run.fingerprint, 0)))));
    Checkpoint(record.anchor, record.sequence + 1, record, Invocation(record.invocation.attempt, record.anchor.request), RunOwned, data)
  }

  lemma PinLinks(record: Record, operator: Operator, files: Files)
    requires record.Checkpoint? && Sound(record, operator) && record.stage.RunOwned? && Unpinned(record)
    requires record.sequence + 1 < MAX_REVISIONS && Protected(record.stage, record.data, files)
    ensures var next := Pinning(record);
            Linked(record, next, operator) && Protected(next.stage, next.data, files.(run := next.data.run)) && !Unpinned(next)
  {
  }

  /** A published `run-owned` record is repeated exactly once more, or not at
      all when its Session is pinned already or the chain is full. */
  lemma PublishedRepeats(record: Record, times: nat, operator: Operator, files: Files)
    requires record.Checkpoint? && Sound(record, operator) && record.stage.RunOwned? && Protected(record.stage, record.data, files)
    ensures RepeatsPublished(record, times, operator)
            <==> times == 0 || (times == 1 && Unpinned(record) && record.sequence + 1 < MAX_REVISIONS)
  {
    hide Sound, Linked, Protected;
    if times > 0 && RepeatsPublished(record, times, operator) { PublishedBound(record, times, operator, files); }
    if times == 1 && Unpinned(record) && record.sequence + 1 < MAX_REVISIONS {
      PinLinks(record, operator, files);
      var next := Pinning(record);
      assert Protected(next.At(), next.Held(), files.(run := next.data.run));
      assert RepeatsPublished(next, times - 1, operator);
    }
  }

  const FILES := Files(TargetFile(7, 8, 9), true, None, OWNED.run)

  lemma UptoProtected(k: nat)
    requires 0 < k <= 6
    ensures Protected(Upto(k).At(), Upto(k).Held(), FILES)
  {
    assert Upto(k).At() == StageOf(k) && Upto(k).Held() == DataOf(k);
  }

  /** And once it happens: a published chain from the initial record, with the
      client's files at each writing. */
  lemma PublishedTwice(operator: Operator) returns (records: seq<Record>, files: seq<Files>)
    ensures PublishedChain(records, operator, files) && |records| == 8
    ensures records[6].At().RunOwned? && records[7].At().RunOwned?
  {
    hide Linked, Sound, Parses, Protected;
    Latest(operator);
    UptoProtected(6);
    var first := Upto(6);
    PinLinks(first, operator, FILES);
    var second := Pinning(first);
    records := seq(7, k requires 0 <= k < 7 => Upto(k)) + [second];
    files := seq(7, k => FILES) + [FILES.(run := second.data.run)];
    forall i | 0 < i < |records|
      ensures Linked(records[i - 1], records[i], operator) && Protected(records[i].At(), records[i].Held(), files[i])
    {
      if i <= 6 {
        UptoLinks(i, operator);
        UptoProtected(i);
      }
    }
  }
}
