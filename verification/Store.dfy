/** The SQLite state: event claims, the delivery ledger and the administrative ledger.
    Each statement autocommits, so each operation is one function on a table; the class runs the
    statements on its tables in place. */
module Store {
  import opened Wrappers

  // ----- processed_events

  datatype ClaimStatus = Processing | Delivered | Abandoned

  datatype Claim = Claimed(status: ClaimStatus, createdAt: int)

  type Claims = map<string, Claim>

  function ClaimEvent(claims: Claims, key: string, now: int): Claims {
    if key in claims then claims else claims[key := Claimed(Processing, now)]
  }

  /** An upsert that keeps the time of the claim. */
  function MarkProcessed(claims: Claims, key: string, status: ClaimStatus, now: int): Claims {
    claims[key := Claimed(status, if key in claims then claims[key].createdAt else now)]
  }

  function ReleaseEvent(claims: Claims, key: string): Claims {
    if key in claims && claims[key].status.Processing? then claims - {key} else claims
  }

  function PruneClaims(claims: Claims, cutoff: int): Claims {
    map k | k in claims && claims[k].createdAt >= cutoff :: claims[k]
  }

  // ----- notification_delivery_ledger

  datatype RowStatus = Prepared | Delivering | Retrying | PermanentFailed | DeliveryConfirmed

  datatype Row = Row(
    source: string,
    status: RowStatus,
    transportAccepted: bool,
    deliveryConfirmed: bool,
    attempts: nat,
    lastErrorCode: string,
    createdAt: int,
    updatedAt: int,
    transportAcceptedAt: Option<int>,
    deliveryConfirmedAt: Option<int>,
    nextRetryAt: Option<int>,
    terminalAt: Option<int>,
    synthetic: bool)

  type Ledger = map<string, Row>

  /** What a ledger row looks like. */
  predicate RowShape(row: Row) {
    && (row.transportAccepted <==> row.attempts >= 1)
    && (row.transportAccepted <==> row.transportAcceptedAt.Some?)
    && (row.terminalAt.Some? <==> row.status.DeliveryConfirmed? || row.status.PermanentFailed?)
    && (row.nextRetryAt.Some? <==> row.status.Retrying?)
    && (row.lastErrorCode != "" <==> row.status.Retrying? || row.status.PermanentFailed?)
    && (row.deliveryConfirmed <==> row.deliveryConfirmedAt.Some?)
    && (row.status.DeliveryConfirmed? ==> row.deliveryConfirmed)
    && (row.status.Prepared? <==> row.attempts == 0)
    && row.createdAt <= row.updatedAt
  }

  predicate SoundRow(ledger: Ledger, id: string, now: int) {
    id in ledger ==> RowShape(ledger[id]) && ledger[id].updatedAt <= now
  }

  ghost predicate OtherRowsSame(a: Ledger, b: Ledger, id: string) {
    forall x :: x != id ==> (x in b <==> x in a) && (x in a ==> b[x] == a[x])
  }

  /** A delivery of this id has begun; no later statement takes that back. */
  predicate Begun(ledger: Ledger, id: string) {
    id in ledger && ledger[id].attempts >= 1
  }

  function Attempts(ledger: Ledger, id: string): nat {
    if id in ledger then ledger[id].attempts else 0
  }

  function BeginDelivery(ledger: Ledger, id: string, source: string, now: int): (l: Ledger)
    ensures OtherRowsSame(ledger, l, id)
    ensures Begun(l, id) && (SoundRow(ledger, id, now) ==> SoundRow(l, id, now))
  {
    if id in ledger then
      var row := ledger[id];
      ledger[id := row.(
        source := source, status := Delivering, transportAccepted := true, attempts := row.attempts + 1,
        lastErrorCode := "", updatedAt := now,
        transportAcceptedAt := if row.transportAcceptedAt.Some? then row.transportAcceptedAt else Some(now),
        nextRetryAt := None, terminalAt := None)]
    else
      ledger[id := Row(source, Delivering, true, false, 1, "", now, now, Some(now), None, None, None, false)]
  }

  function MarkConfirmed(ledger: Ledger, id: string, now: int): (l: Ledger)
    ensures OtherRowsSame(ledger, l, id)
    ensures Begun(ledger, id) ==> Begun(l, id) && (SoundRow(ledger, id, now) ==> SoundRow(l, id, now))
  {
    if id !in ledger then ledger
    else ledger[id := ledger[id].(
      status := DeliveryConfirmed, deliveryConfirmed := true, updatedAt := now,
      deliveryConfirmedAt := Some(now), nextRetryAt := None, terminalAt := Some(now), lastErrorCode := "")]
  }

  function MarkRetrying(ledger: Ledger, id: string, code: string, nextRetry: int, now: int): (l: Ledger)
    ensures OtherRowsSame(ledger, l, id)
    ensures Begun(ledger, id) && code != "" ==> Begun(l, id) && (SoundRow(ledger, id, now) ==> SoundRow(l, id, now))
  {
    if id !in ledger then ledger
    else ledger[id := ledger[id].(
      status := Retrying, updatedAt := now, lastErrorCode := code,
      nextRetryAt := Some(nextRetry), terminalAt := None)]
  }

  function MarkPermanentFailed(ledger: Ledger, id: string, code: string, now: int): (l: Ledger)
    ensures OtherRowsSame(ledger, l, id)
    ensures Begun(ledger, id) && code != "" ==> Begun(l, id) && (SoundRow(ledger, id, now) ==> SoundRow(l, id, now))
  {
    if id !in ledger then ledger
    else ledger[id := ledger[id].(
      status := PermanentFailed, updatedAt := now, lastErrorCode := code,
      nextRetryAt := None, terminalAt := Some(now))]
  }

  function PrepareSynthetic(ledger: Ledger, id: string, source: string, now: int): (l: Ledger)
    ensures OtherRowsSame(ledger, l, id)
    ensures id in l && (SoundRow(ledger, id, now) ==> SoundRow(l, id, now))
  {
    if id in ledger then ledger
    else ledger[id := Row(source, Prepared, false, false, 0, "", now, now, None, None, None, None, true)]
  }

  predicate Prunable(row: Row, cutoff: int) {
    row.updatedAt < cutoff
    && (row.status.Prepared? || row.status.DeliveryConfirmed? || row.status.PermanentFailed?)
  }

  function PruneLedger(ledger: Ledger, cutoff: int): Ledger {
    map id | id in ledger && !Prunable(ledger[id], cutoff) :: ledger[id]
  }

  // ----- administrative_communication_ledger

  datatype AdminStatus = AdminPrepared | TransportAccepted | OutcomeUnknown | AdminConfirmed | AdminFailed

  datatype AdminRow = AdminRow(
    bodyDigest: string,
    recipientDigest: string,
    status: AdminStatus,
    transportAccepted: bool,
    deliveryConfirmed: bool,
    attempts: nat,
    providerRef: Option<string>,
    lastErrorCode: string,
    createdAt: int,
    updatedAt: int,
    transportAcceptedAt: Option<int>)

  type AdminLedger = map<string, AdminRow>

  function BeginAdmin(ledger: AdminLedger, id: string, body: string, recipient: string, now: int): AdminLedger {
    if id in ledger then ledger
    else ledger[id := AdminRow(body, recipient, AdminPrepared, false, false, 0, None, "", now, now, None)]
  }

  function MarkAdminAccepted(ledger: AdminLedger, id: string, ref: Option<string>, now: int): AdminLedger {
    if id !in ledger then ledger
    else ledger[id := ledger[id].(
      status := TransportAccepted, transportAccepted := true, attempts := ledger[id].attempts + 1,
      providerRef := ref, updatedAt := now, transportAcceptedAt := Some(now), lastErrorCode := "")]
  }

  function MarkAdminUnknown(ledger: AdminLedger, id: string, code: string, now: int): AdminLedger {
    if id !in ledger then ledger
    else ledger[id := ledger[id].(
      status := OutcomeUnknown, attempts := ledger[id].attempts + 1, updatedAt := now, lastErrorCode := code)]
  }

  predicate AdminPrunable(row: AdminRow, cutoff: int) {
    row.updatedAt < cutoff && (row.status.AdminConfirmed? || row.status.AdminFailed?)
  }

  function PruneAdmin(ledger: AdminLedger, cutoff: int): AdminLedger {
    map id | id in ledger && !AdminPrunable(ledger[id], cutoff) :: ledger[id]
  }

  // ----- the claim protocol in small

  /** Winning a claim and giving it up leaves no trace; a finished claim can neither be won nor
      given up; and finishing keeps the time at which the claim was won. */
  lemma ClaimLaws(claims: Claims, key: string, status: ClaimStatus, t: int, now: int)
    ensures key !in claims ==> ReleaseEvent(ClaimEvent(claims, key, t), key) == claims
    ensures key !in claims ==>
              MarkProcessed(ClaimEvent(claims, key, t), key, status, now)[key] == Claimed(status, t)
    ensures !status.Processing? ==>
              var done := MarkProcessed(claims, key, status, now);
              ClaimEvent(done, key, t) == done && ReleaseEvent(done, key) == done
  {
    if key !in claims {
      assert ClaimEvent(claims, key, t) - {key} == claims;
    }
  }

  // ----- what pruning removes

  /** Exactly the claims won before the cutoff, whatever their status. */
  ghost predicate ClaimsPruned(a: Claims, b: Claims, cutoff: int) {
    forall k :: (k in b <==> k in a && a[k].createdAt >= cutoff) && (k in b ==> b[k] == a[k])
  }

  /** Exactly the prepared, confirmed and permanently failed rows not written since the cutoff. */
  ghost predicate RowsPruned(a: Ledger, b: Ledger, cutoff: int) {
    forall id ::
      && (id in b <==> id in a && (a[id].updatedAt >= cutoff || a[id].status in {Delivering, Retrying}))
      && (id in b ==> b[id] == a[id])
  }

  /** Exactly the confirmed and permanently failed communications not written since the cutoff. */
  ghost predicate AdminPruned(a: AdminLedger, b: AdminLedger, cutoff: int) {
    forall id ::
      && (id in b <==> id in a && (a[id].updatedAt >= cutoff || a[id].status !in {AdminConfirmed, AdminFailed}))
      && (id in b ==> b[id] == a[id])
  }

  lemma PruneIsExact(claims: Claims, ledger: Ledger, admin: AdminLedger, cutoff: int)
    ensures ClaimsPruned(claims, PruneClaims(claims, cutoff), cutoff)
    ensures RowsPruned(ledger, PruneLedger(ledger, cutoff), cutoff)
    ensures AdminPruned(admin, PruneAdmin(admin, cutoff), cutoff)
    ensures PruneClaims(claims, cutoff).Keys <= claims.Keys && PruneLedger(ledger, cutoff).Keys <= ledger.Keys
    ensures PruneAdmin(admin, cutoff).Keys <= admin.Keys
  {
  }

  class StateStore {
    var claims: Claims
    var ledger: Ledger
    var admin: AdminLedger

    constructor ()
      ensures claims == map[] && ledger == map[] && admin == map[]
    {
      claims, ledger, admin := map[], map[], map[];
    }

    method TryClaim(key: string, now: int) returns (won: bool)
      modifies this`claims
      ensures won == (key !in old(claims))
      ensures claims == ClaimEvent(old(claims), key, now)
    {
      won := key !in claims;
      if won {
        claims := claims[key := Claimed(Processing, now)];
      }
    }

    method Finish(key: string, status: ClaimStatus, now: int)
      modifies this`claims
      ensures claims == MarkProcessed(old(claims), key, status, now)
    {
      if key in claims {
        claims := claims[key := claims[key].(status := status)];
      } else {
        claims := claims[key := Claimed(status, now)];
      }
    }

    method Release(key: string)
      modifies this`claims
      ensures claims == ReleaseEvent(old(claims), key)
    {
      if key in claims && claims[key].status.Processing? {
        claims := claims - {key};
      }
    }

    method Begin(id: string, source: string, now: int)
      modifies this`ledger
      ensures ledger == BeginDelivery(old(ledger), id, source, now)
    {
      if id !in ledger {
        var row := Row(source, Delivering, true, false, 1, "", now, now, Some(now), None, None, None, false);
        ledger := ledger[id := row];
      } else {
        var row := ledger[id].(source := source, status := Delivering, transportAccepted := true);
        row := row.(attempts := row.attempts + 1, lastErrorCode := "", updatedAt := now);
        if row.transportAcceptedAt.None? {
          row := row.(transportAcceptedAt := Some(now));
        }
        ledger := ledger[id := row.(nextRetryAt := None, terminalAt := None)];
      }
    }

    method Confirm(id: string, now: int)
      modifies this`ledger
      ensures ledger == MarkConfirmed(old(ledger), id, now)
    {
      if id in ledger {
        var row := ledger[id].(status := DeliveryConfirmed, deliveryConfirmed := true, updatedAt := now);
        row := row.(deliveryConfirmedAt := Some(now), nextRetryAt := None, terminalAt := Some(now));
        ledger := ledger[id := row.(lastErrorCode := "")];
      }
    }

    method Retry(id: string, code: string, nextRetry: int, now: int)
      modifies this`ledger
      ensures ledger == MarkRetrying(old(ledger), id, code, nextRetry, now)
    {
      if id in ledger {
        var row := ledger[id].(status := Retrying, updatedAt := now, lastErrorCode := code);
        ledger := ledger[id := row.(nextRetryAt := Some(nextRetry), terminalAt := None)];
      }
    }

    method Fail(id: string, code: string, now: int)
      modifies this`ledger
      ensures ledger == MarkPermanentFailed(old(ledger), id, code, now)
    {
      if id in ledger {
        var row := ledger[id].(status := PermanentFailed, updatedAt := now, lastErrorCode := code);
        ledger := ledger[id := row.(nextRetryAt := None, terminalAt := Some(now))];
      }
    }

    method Prepare(id: string, source: string, now: int) returns (entry: Row)
      modifies this`ledger
      ensures ledger == PrepareSynthetic(old(ledger), id, source, now) && entry == ledger[id]
    {
      if id !in ledger {
        ledger := ledger[id := Row(source, Prepared, false, false, 0, "", now, now, None, None, None, None, true)];
      }
      entry := ledger[id];
    }

    method BeginAdministrative(id: string, body: string, recipient: string, now: int) returns (inserted: bool)
      modifies this`admin
      ensures inserted == (id !in old(admin)) && admin == BeginAdmin(old(admin), id, body, recipient, now)
    {
      inserted := id !in admin;
      if inserted {
        admin := admin[id := AdminRow(body, recipient, AdminPrepared, false, false, 0, None, "", now, now, None)];
      }
    }

    method AcceptAdministrative(id: string, ref: Option<string>, now: int)
      modifies this`admin
      ensures admin == MarkAdminAccepted(old(admin), id, ref, now)
    {
      if id in admin {
        var row := admin[id].(status := TransportAccepted, transportAccepted := true, providerRef := ref);
        row := row.(attempts := row.attempts + 1, updatedAt := now, transportAcceptedAt := Some(now));
        admin := admin[id := row.(lastErrorCode := "")];
      }
    }

    method DoubtAdministrative(id: string, code: string, now: int)
      modifies this`admin
      ensures admin == MarkAdminUnknown(old(admin), id, code, now)
    {
      if id in admin {
        var row := admin[id].(status := OutcomeUnknown, updatedAt := now, lastErrorCode := code);
        admin := admin[id := row.(attempts := row.attempts + 1)];
      }
    }

    method Prune(now: int, retention: int) returns (removed: nat)
      modifies this
      ensures claims == PruneClaims(old(claims), now - retention)
      ensures ledger == PruneLedger(old(ledger), now - retention)
      ensures admin == PruneAdmin(old(admin), now - retention)
      ensures ClaimsPruned(old(claims), claims, now - retention)
      ensures RowsPruned(old(ledger), ledger, now - retention)
      ensures AdminPruned(old(admin), admin, now - retention)
      ensures |old(claims)| + |old(ledger)| + |old(admin)| == |claims| + |ledger| + |admin| + removed
    {
      hide ClaimsPruned, RowsPruned, AdminPruned, PruneClaims, PruneLedger, PruneAdmin;
      var cutoff := now - retention;
      PruneIsExact(claims, ledger, admin, cutoff);
      var keptClaims := PruneClaims(claims, cutoff);
      KeepsFewer(claims, keptClaims);
      removed := |claims| - |keptClaims|;
      claims := keptClaims;
      var keptRows := PruneLedger(ledger, cutoff);
      KeepsFewer(ledger, keptRows);
      removed := removed + |ledger| - |keptRows|;
      ledger := keptRows;
      var keptAdmin := PruneAdmin(admin, cutoff);
      KeepsFewer(admin, keptAdmin);
      removed := removed + |admin| - |keptAdmin|;
      admin := keptAdmin;
    }
  }

  lemma {:induction false} SubsetSize<K>(a: set<K>, b: set<K>)
    requires a <= b
    ensures |a| <= |b|
  {
    if a != {} {
      var x :| x in a;
      SubsetSize(a - {x}, b - {x});
    }
  }

  lemma KeepsFewer<K, V>(whole: map<K, V>, kept: map<K, V>)
    requires kept.Keys <= whole.Keys
    ensures |kept| <= |whole|
  {
    SubsetSize(kept.Keys, whole.Keys);
    assert |kept| == |kept.Keys| && |whole| == |whole.Keys|;
  }
}
