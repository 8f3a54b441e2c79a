/**
 Preparing and completing one named pairing on the client. Its records are
 files created once and never replaced; any number of attempts run at the same
 time, crash anywhere and see spurious publication errors. An attempt is a
 method during which the files may change between any two of its accesses, in
 the ways any other attempt can change them (`Rely`); every change of its own
 is one of those ways too.
 */
module PairingClient {
  import opened Options

  datatype Offer = Offer(identity: nat, expires: nat, connection: nat)

  /** A public key is the placeholder of a preparation or belongs to a seed. */
  datatype Key = Placeholder | KeyOf(seed: nat)

  /** The digest of an offer identifies it, so it is modelled by the offer. */
  datatype Intent = Intent(pairId: nat, operationId: nat, offerHash: Offer, publicKey: Key, expires: nat)

  datatype Pending = Pending(offer: Offer, intent: Intent)

  datatype Receipt = Receipt(pairId: nat, operationId: nat, intentSha: Intent, publicKey: Key, connection: nat, scope: nat)

  datatype Disk = Disk(preparation: Option<Pending>, seed: Option<nat>, intent: Option<Pending>, credentials: set<Key>,
                       receipt: Option<Receipt>, targetSaved: bool)

  datatype Read<T> = Absent | Found(value: T) | Failed

  function Retained(intent: Intent): Intent { intent.(publicKey := Placeholder) }

  predicate ValidPending(value: Pending) {
    value.intent.offerHash == value.offer && value.intent.expires == value.offer.expires
  }

  /** The intent is the preparation with the retained seed's key in it; a
      credential exists only for the key an intent names. */
  predicate Consistent(d: Disk) {
    && (d.preparation.Some? ==> ValidPending(d.preparation.value) && d.preparation.value.intent.publicKey.Placeholder?)
    && (d.intent.Some? ==>
          && d.preparation.Some? && d.seed.Some?
          && d.intent.value == d.preparation.value.(intent := d.preparation.value.intent.(publicKey := KeyOf(d.seed.value))))
    && (forall k :: k in d.credentials ==> d.intent.Some? && d.intent.value.intent.publicKey == k)
    && (d.receipt.Some? ==> d.intent.Some? && Matches(d.intent.value, d.receipt.value))
  }

  /** `matchReceipt`. */
  predicate Matches(value: Pending, receipt: Receipt) {
    && receipt.pairId == value.intent.pairId && receipt.operationId == value.intent.operationId
    && receipt.intentSha == value.intent && receipt.publicKey == value.intent.publicKey
    && receipt.connection == value.offer.connection
  }

  predicate Once<T(==)>(before: Option<T>, after: Option<T>) { before.Some? ==> after == before }

  /** What attempts do to the files: create them, once, consistently. */
  predicate Rely(before: Disk, after: Disk) {
    && Consistent(after)
    && Once(before.preparation, after.preparation) && Once(before.seed, after.seed) && Once(before.intent, after.intent)
    && Once(before.receipt, after.receipt) && before.credentials <= after.credentials
    && (before.targetSaved ==> after.targetSaved)
  }

  /** Preparing neither completes a pairing nor saves its target. */
  predicate SameTarget(before: Disk, after: Disk) {
    after.receipt == before.receipt && after.targetSaved == before.targetSaved
  }

  ghost predicate Sound(history: seq<Disk>) {
    && (forall k :: 0 <= k < |history| ==> Consistent(history[k]))
    && forall k :: 0 < k < |history| ==> Rely(history[k - 1], history[k])
  }

  class Attempt {
    const calm: bool                // no other attempt and no spurious error
    var disk: Disk
    ghost var history: seq<Disk>

    ghost predicate Valid()
      reads this
    {
      |history| > 0 && history[|history| - 1] == disk && Sound(history)
    }

    constructor (calm: bool, disk: Disk)
      requires Consistent(disk)
      ensures Valid() && this.disk == disk && history == [disk] && this.calm == calm
    {
      this.calm := calm;
      this.disk := disk;
      this.history := [disk];
    }

    twostate predicate Continues()
      reads this
    {
      Valid() && old(history) <= history && Rely(old(disk), disk)
    }

    method Change(next: Disk)
      requires Valid() && Rely(disk, next)
      modifies this
      ensures Continues() && disk == next
    {
      disk := next;
      history := history + [next];
    }

    /** Other attempts at work. */
    method Interfere()
      requires Valid()
      modifies this
      ensures Continues() && (calm ==> disk == old(disk))
    {
      var next: Disk := *;
      if !calm && Rely(disk, next) {
        Change(next);
      }
    }

    method ReadPreparation() returns (r: Read<Pending>)
      requires Valid()
      modifies this
      ensures Continues() && (calm ==> disk == old(disk) && !r.Failed?)
      ensures r.Found? ==> disk.preparation == Some(r.value)
      ensures r.Absent? ==> old(disk).preparation.None?
    {
      Interfere();
      var fails: bool := *;
      r := if fails && !calm then Failed else if disk.preparation.Some? then Found(disk.preparation.value) else Absent;
    }

    method ReadIntent() returns (r: Read<Pending>)
      requires Valid()
      modifies this
      ensures Continues() && (calm ==> disk == old(disk) && !r.Failed?)
      ensures r.Found? ==> disk.intent == Some(r.value)
      ensures r.Absent? ==> old(disk).intent.None?
    {
      Interfere();
      var fails: bool := *;
      r := if fails && !calm then Failed else if disk.intent.Some? then Found(disk.intent.value) else Absent;
    }

    /** Exclusive creation of the preparation: an error says nothing about
        whether the record is there. */
    method PublishPreparation(candidate: Pending) returns (reported: bool)
      requires Valid() && ValidPending(candidate) && candidate.intent.publicKey.Placeholder?
      modifies this
      ensures Continues()
      ensures calm ==> SameTarget(old(disk), disk)
      ensures calm && old(disk).preparation.None? ==> disk == old(disk).(preparation := Some(candidate))
      ensures calm && old(disk).preparation.Some? ==> disk == old(disk)
    {
      Interfere();
      var written: bool := *;
      if disk.preparation.None? && (written || calm) {
        Change(disk.(preparation := Some(candidate)));
      }
      reported := *;
    }

    method PublishIntent(expected: Pending) returns (reported: bool)
      requires Valid() && disk.preparation.Some? && disk.seed.Some?
      requires expected == disk.preparation.value.(intent := disk.preparation.value.intent.(publicKey := KeyOf(disk.seed.value)))
      modifies this
      ensures Continues()
      ensures calm ==> SameTarget(old(disk), disk)
      ensures calm && old(disk).intent.None? ==> disk == old(disk).(intent := Some(expected))
      ensures calm && old(disk).intent.Some? ==> disk == old(disk)
    {
      Interfere();
      var written: bool := *;
      if disk.intent.None? && (written || calm) {
        Change(disk.(intent := Some(expected)));
      }
      reported := *;
    }

    /** `sshkey.Reserved`: the retained seed, created at most once. */
    method ReserveSeed(create: bool) returns (ok: bool, key: Key)
      requires Valid()
      modifies this
      ensures Continues()
      ensures calm ==> SameTarget(old(disk), disk)
      ensures ok ==> disk.seed.Some? && key == KeyOf(disk.seed.value)
      ensures calm ==> disk == old(disk).(seed := disk.seed) && (ok <==> create || old(disk).seed.Some?)
    {
      Interfere();
      if disk.seed.None? && create {
        var candidate: nat := *;
        var written: bool := *;
        if written || calm { Change(disk.(seed := Some(candidate))); }
        Interfere();
      }
      var fails: bool := *;
      ok := disk.seed.Some? && (calm || !fails);
      key := if disk.seed.Some? then KeyOf(disk.seed.value) else Placeholder;
    }

    /** The credential of the key the durable intent names. */
    method PublishCredential(key: Key) returns (ok: bool)
      requires Valid() && disk.intent.Some? && disk.intent.value.intent.publicKey == key
      modifies this
      ensures Continues() && (ok ==> key in disk.credentials)
      ensures calm ==> SameTarget(old(disk), disk)
      ensures calm ==> ok && disk == old(disk).(credentials := disk.credentials)
    {
      Interfere();
      var written: bool := *;
      if written || calm { Change(disk.(credentials := disk.credentials + {key})); }
      Interfere();
      var fails: bool := *;
      ok := key in disk.credentials && (calm || !fails);
    }

    /** `reserve`: propose a preparation, then go by the one that is there. */
    method Reserve(offer: Offer) returns (r: Option<Pending>)
      requires Valid()
      modifies this
      ensures Continues()
      ensures calm ==> SameTarget(old(disk), disk)
      ensures r.Some? ==> disk.preparation == r && r.value.offer == offer
      ensures calm ==> disk == old(disk).(preparation := disk.preparation)
      ensures calm ==> (r.Some? <==> old(disk).preparation.None? || old(disk).preparation.value.offer == offer)
    {
      var pairId, operationId: nat := *, *;
      var candidate := Pending(offer, Intent(pairId, operationId, offer, Placeholder, offer.expires));
      var reported := PublishPreparation(candidate);
      var winner := ReadPreparation();
      if !winner.Found? || winner.value.intent.offerHash != candidate.intent.offerHash { return None; }
      r := Some(winner.value);
    }

    /** `prepareReserved`: seed, then intent, then credential, each from what is
        durable. */
    method PrepareReserved(reservation: Pending) returns (r: Option<Intent>)
      requires Valid() && disk.preparation == Some(reservation)
      modifies this
      ensures Continues()
      ensures calm ==> SameTarget(old(disk), disk)
      ensures r.Some? ==> Agreed(disk, reservation.offer, r.value)
      ensures calm ==> r.Some?
    {
      var existing := ReadIntent();
      if existing.Failed? { return None; }
      if existing.Found? && Retained(existing.value.intent) != reservation.intent { return None; }
      var ok, key := ReserveSeed(existing.Absent?);
      if !ok { return None; }
      var expected := reservation.(intent := reservation.intent.(publicKey := key));
      if existing.Found? && existing.value.intent != expected.intent { return None; }
      var reported := PublishIntent(expected);
      var durable := ReadIntent();
      if !durable.Found? || durable.value.intent != expected.intent { return None; }
      var cancelled: bool := *;
      if cancelled && !calm { return None; }
      ok := PublishCredential(key);
      if !ok { return None; }
      r := Some(durable.value.intent);
    }

    /** `Prepare`. `admitted` stands for the checks of the offer, its expiry and
        the platform; `targetExists` for a target that already has the name. */
    method Prepare(offer: Offer, admitted: bool, targetExists: bool) returns (r: Option<Intent>)
      requires Valid()
      modifies this
      ensures Continues()
      ensures r.Some? ==> Agreed(disk, offer, r.value)
      ensures r.Some? ==> disk.intent == Some(Pending(offer, r.value)) && r.value.offerHash == offer && r.value.expires == offer.expires
      ensures r.Some? ==> disk.seed.Some? && r.value.publicKey == KeyOf(disk.seed.value) && KeyOf(disk.seed.value) in disk.credentials
      ensures calm ==> SameTarget(old(disk), disk)
      ensures calm ==> (r.Some? <==> admitted && Preparable(old(disk), offer, targetExists))
    {
      if !admitted { return None; }
      var existing := ReadIntent();
      if existing.Failed? { return None; }
      if existing.Found? {
        if existing.value.intent.offerHash != offer { return None; }
        var reservation := ReadPreparation();
        if !reservation.Found? { return None; }
        r := PrepareReserved(reservation.value);
      } else {
        if targetExists { return None; }
        var reservation := Reserve(offer);
        if reservation.None? { return None; }
        r := PrepareReserved(reservation.value);
      }
    }

    /** `Complete`, with a receipt verified through another channel. */
    method Complete(trusted: Receipt, targetConflicts: bool) returns (ok: bool)
      requires Valid()
      modifies this
      ensures Continues()
      ensures calm ==> (ok <==> Completable(old(disk), trusted) && !targetConflicts)
      ensures ok ==> disk.receipt == Some(trusted) && disk.intent.Some? && Matches(disk.intent.value, trusted)
                     && trusted.publicKey in disk.credentials
      ensures ok ==> var intent := disk.intent.value.intent;
                     && trusted.pairId == intent.pairId && trusted.operationId == intent.operationId && trusted.intentSha == intent
                     && trusted.publicKey == intent.publicKey && trusted.connection == disk.intent.value.offer.connection
                     && disk.targetSaved
      ensures calm && !ok ==> disk.targetSaved == old(disk).targetSaved
    {
      var value := ReadIntent();
      if !value.Found? || !Matches(value.value, trusted) { return false; }
      var verified := VerifyCredential(value.value);
      if !verified { return false; }
      Interfere();
      var written, fails: bool := *, *;
      if disk.receipt.None? && (written || calm) { Change(disk.(receipt := Some(trusted))); }
      Interfere();
      if (fails && !calm) || disk.receipt != Some(trusted) || targetConflicts { return false; }
      Change(disk.(targetSaved := true));
      ok := true;
    }

    /** `verifyCredential`. */
    method VerifyCredential(value: Pending) returns (ok: bool)
      requires Valid() && disk.intent == Some(value)
      modifies this
      ensures Continues() && (ok ==> value.intent.publicKey in disk.credentials)
      ensures calm ==> disk == old(disk) && (ok <==> value.intent.publicKey in disk.credentials)
    {
      var reservation := ReadPreparation();
      if !reservation.Found? || Retained(value.intent) != reservation.value.intent { return false; }
      var found, key := ReserveSeed(false);
      if !found || key != value.intent.publicKey { return false; }
      Interfere();
      ok := key in disk.credentials;
    }
  }

  /** An attempt for this offer may return this intent. */
  predicate Agreed(d: Disk, offer: Offer, intent: Intent) {
    && d.intent.Some? && d.intent.value.intent == intent && d.intent.value.offer == offer && intent.offerHash == offer
    && d.preparation.Some? && d.preparation.value.offer == offer && Retained(intent) == d.preparation.value.intent
    && intent.publicKey in d.credentials
  }

  /** The receipt matches what was prepared here and is not a second one. */
  predicate Completable(d: Disk, trusted: Receipt) {
    && d.intent.Some? && Matches(d.intent.value, trusted) && trusted.publicKey in d.credentials
    && (d.receipt.None? || d.receipt.value == trusted)
  }

  /** Whatever an interrupted attempt left behind, the same offer can still be
      prepared; another one only before anything is retained. */
  predicate Preparable(d: Disk, offer: Offer, targetExists: bool) {
    if d.intent.Some? then d.intent.value.offer == offer
    else !targetExists && (d.preparation.None? || d.preparation.value.offer == offer)
  }

  // ----- all attempts together -----

  datatype Request = Prepared(offer: Offer, admitted: bool, targetExists: bool) | Completed(trusted: Receipt, targetConflicts: bool)

  const NOTHING := Disk(None, None, None, {}, None, false)

  lemma AgreedStays(before: Disk, after: Disk, offer: Offer, intent: Intent)
    requires Agreed(before, offer, intent) && Rely(before, after)
    ensures Agreed(after, offer, intent)
  {
  }

  /** From no file at all, any requests, each made while other attempts do
      whatever attempts do or crash: all that succeed in preparing were for one
      offer and returned one intent, and all that complete hold one receipt. */
  method Serve(requests: seq<Request>) returns (attempt: Attempt, prepared: seq<(Offer, Intent)>, completed: seq<Receipt>)
    ensures attempt.Valid() && attempt.history[0] == NOTHING
    ensures forall i, j :: 0 <= i < |prepared| && 0 <= j < |prepared| ==> prepared[i] == prepared[j]
    ensures forall i, j :: 0 <= i < |completed| && 0 <= j < |completed| ==> completed[i] == completed[j]
    ensures forall i, j :: 0 <= i < |prepared| && 0 <= j < |completed| ==> completed[j].intentSha == prepared[i].1
  {
    attempt := new Attempt(false, NOTHING);
    prepared, completed := [], [];
    for n := 0 to |requests|
      invariant fresh(attempt) && attempt.Valid() && attempt.history[0] == NOTHING
      invariant forall i :: 0 <= i < |prepared| ==> Agreed(attempt.disk, prepared[i].0, prepared[i].1)
      invariant forall i :: 0 <= i < |completed| ==> attempt.disk.receipt == Some(completed[i])
    {
      ghost var before := attempt.disk;
      match requests[n]
      case Prepared(offer, admitted, targetExists) =>
        var intent := attempt.Prepare(offer, admitted, targetExists);
        if intent.Some? { prepared := prepared + [(offer, intent.value)]; }
      case Completed(trusted, targetConflicts) =>
        var ok := attempt.Complete(trusted, targetConflicts);
        if ok { completed := completed + [trusted]; }
    }
    ReceiptMatches(attempt);
  }

  lemma ReceiptMatches(attempt: Attempt)
    requires attempt.Valid()
    ensures Consistent(attempt.disk)
  {
  }

  lemma {:induction false} HistoryRelies(history: seq<Disk>, i: nat, j: nat)
    requires Sound(history) && i <= j < |history|
    ensures Rely(history[i], history[j])
    decreases j
  {
    if i < j { HistoryRelies(history, i, j - 1); }
  }

  /** Any two attempts that succeed, however they interleave with others and
      with crashes, were for the same offer and return the same intent. */
  lemma SuccessesAgree(history: seq<Disk>, i: nat, j: nat, left: Offer, right: Offer, one: Intent, two: Intent)
    requires Sound(history) && i <= j < |history|
    requires Agreed(history[i], left, one) && Agreed(history[j], right, two)
    ensures left == right && one == two
  {
    HistoryRelies(history, i, j);
  }

  /** A credential is on disk only after the intent that names its key, and no
      other key ever gets one. */
  lemma CredentialFollowsIntent(history: seq<Disk>, i: nat, j: nat, one: Key, two: Key)
    requires Sound(history) && i <= j < |history| && one in history[i].credentials && two in history[j].credentials
    ensures history[i].intent.Some? && history[i].intent.value.intent.publicKey == one && one == two
  {
    HistoryRelies(history, i, j);
  }

  /** Two different receipts never both complete a pairing. */
  lemma OneReceipt(history: seq<Disk>, i: nat, j: nat)
    requires Sound(history) && i <= j < |history| && history[i].receipt.Some?
    ensures history[j].receipt == history[i].receipt && history[j].intent == history[i].intent
    ensures history[i].targetSaved ==> history[j].targetSaved
  {
    HistoryRelies(history, i, j);
  }
}
