/** Whole-history theorems about the ledger: what advances, what is final, what is conserved. */
module LedgerTheorems {
  import opened Basics
  import opened Totals
  import opened Ledger
  import opened LedgerInvariants

  /* ---------- every transaction only moves forward ---------- */

  predicate Open(d: DeliveryStatus) {
    d == DeliveryPending || d == Delivering
  }

  ghost predicate QuotesAdvance(a: Quotes, b: Quotes) {
    forall q :: q in a ==> q in b && b[q].terms == a[q].terms
  }

  ghost predicate RowsAdvance(a: Settlements, b: Settlements) {
    forall s :: s in a ==>
      && s in b
      && b[s].payment == a[s].payment
      && b[s].createdAt == a[s].createdAt
      && (!Active(a[s].status) ==> b[s] == a[s])
  }

  ghost predicate ReceiptsAdvance(a: Receipts, b: Receipts) {
    forall s :: s in a ==> s in b && b[s] == a[s]
  }

  ghost predicate DeliveriesAdvance(a: Deliveries, b: Deliveries) {
    forall s :: s in a ==>
      && s in b
      && b[s].deliveryId == a[s].deliveryId
      && b[s].retryExpiresAt == a[s].retryExpiresAt
      && a[s].attemptCount <= b[s].attemptCount
      && (!Open(a[s].status) ==> b[s] == a[s])
  }

  /** Identities persist, ended rows and receipts are frozen, and the log grows at its end. */
  ghost predicate Advances(a: Db, b: Db) {
    && QuotesAdvance(a.quotes, b.quotes)
    && RowsAdvance(a.settlements, b.settlements)
    && ReceiptsAdvance(a.receipts, b.receipts)
    && DeliveriesAdvance(a.deliveries, b.deliveries)
    && a.log <= b.log
  }

  lemma RowsAdvanceByOne(rows: Settlements, s: SettlementId, row: Settlement)
    requires s in rows && Active(rows[s].status) && row.payment == rows[s].payment && row.createdAt == rows[s].createdAt
    ensures RowsAdvance(rows, rows[s := row])
  {
  }

  lemma ApplyAdvances(db: Db, o: Observed)
    ensures Advances(db, ApplyReconciliationResult(db, o).After(db))
  {
    var out := ApplyReconciliationResult(db, o);
    if out.Commit? && Active(db.settlements[o.settlementId].status) {
      RowsAdvanceByOne(db.settlements, o.settlementId, out.db.settlements[o.settlementId]);
    }
  }

  lemma StatusAdvances(db: Db, s: SettlementId, to: AttemptStatus, reason: Option<string>, at: Time)
    ensures Advances(db, UpdateSettlementStatus(db, s, to, reason, at).After(db))
  {
    var out := UpdateSettlementStatus(db, s, to, reason, at);
    if out.Commit? {
      RowsAdvanceByOne(db.settlements, s, out.db.settlements[s]);
    }
  }

  lemma ClaimAdvances(db: Db, limit: nat, at: Time, until: Time, locked: set<SettlementId>, picked: set<SettlementId>)
    requires IsBatch(db, limit, at, locked, picked)
    ensures Advances(db, ClaimSettlements(db, picked, until))
  {
    assert forall s :: s in picked ==> s in DueSet(db, at, locked);
  }

  lemma ReserveAdvances(db: Db, r: Reservation, now: Time)
    ensures Advances(db, ReserveSettlement(db, r, now).After(db))
  {
  }

  lemma DeliveryAdvances(db: Db, s: SettlementId, d: Delivery)
    requires s in db.deliveries && Open(db.deliveries[s].status) && d.deliveryId == db.deliveries[s].deliveryId
    requires d.retryExpiresAt == db.deliveries[s].retryExpiresAt && db.deliveries[s].attemptCount <= d.attemptCount
    ensures Advances(db, SetDelivery(db, s, d))
  {
  }

  lemma UnchangedAdvances(db: Db)
    ensures Advances(db, db)
  {
  }

  lemma DeliveryTxnAdvances(db: Db, t: Txn)
    requires t.TxClaimDelivery? || t.TxCompleteDelivery?
    ensures Advances(db, Exec(db, t))
  {
    hide Advances;
    UnchangedAdvances(db);
    if DeliveryVisible(db, t.settlementId, t.merchantId) && Open(db.deliveries[t.settlementId].status)
        && Exec(db, t) != db {
      DeliveryAdvances(db, t.settlementId, Exec(db, t).deliveries[t.settlementId]);
    }
  }

  lemma ExecAdvances(db: Db, t: Txn)
    ensures Advances(db, Exec(db, t))
  {
    match t
    case TxApply(o) => ApplyAdvances(db, o);
    case TxStatus(s, to, reason, at) => StatusAdvances(db, s, to, reason, at);
    case TxClaim(limit, at, until, locked, picked) =>
      hide Advances;
      UnchangedAdvances(db);
      if IsBatch(db, limit, at, locked, picked) {
        ClaimAdvances(db, limit, at, until, locked, picked);
      }
    case TxIssue(_, _) =>
    case TxReserve(r, now) => ReserveAdvances(db, r, now);
    case TxClaimDelivery(_, _, _) => DeliveryTxnAdvances(db, t);
    case TxCompleteDelivery(_, _, _, _) => DeliveryTxnAdvances(db, t);
  }

  lemma AdvancesTransitive(a: Db, b: Db, c: Db)
    requires Advances(a, b) && Advances(b, c)
    ensures Advances(a, c)
  {
  }

  /** However many transactions follow, identities persist and whatever has ended stays as it ended. */
  lemma {:induction false} HistoryAdvances(db: Db, ts: seq<Txn>)
    ensures Advances(db, ExecAll(db, ts))
    decreases |ts|
  {
    if ts != [] {
      ExecAdvances(db, ts[0]);
      HistoryAdvances(Exec(db, ts[0]), ts[1..]);
      AdvancesTransitive(db, Exec(db, ts[0]), ExecAll(db, ts));
    }
  }

  lemma WellFormedStays(db: Db, next: Db, o: Observed)
    requires Advances(db, next) && o.Settled? && o.settlementId in db.settlements && SettledWellFormed(db, o)
    ensures o.settlementId in next.settlements && SettledWellFormed(next, o)
  {
  }

  /* ---------- the cross-table coupling, over every history ---------- */

  ghost predicate WellFormedHistory(db: Db, ts: seq<Txn>)
    decreases |ts|
  {
    ts != [] ==> WellFormed(db, ts[0]) && WellFormedHistory(Exec(db, ts[0]), ts[1..])
  }

  lemma {:induction false} HistoryKeepsInv(db: Db, ts: seq<Txn>)
    requires Inv(db) && WellFormedHistory(db, ts)
    ensures Inv(ExecAll(db, ts))
    decreases |ts|
  {
    hide Inv;
    if ts != [] {
      ExecKeepsInv(db, ts[0]);
      HistoryKeepsInv(Exec(db, ts[0]), ts[1..]);
    }
  }

  /** Issued iff unsettled, reserved iff settled but unconfirmed, consumed iff confirmed with a receipt and a
      delivery. */
  lemma QuoteStatusMeaning(db: Db, q: QuoteId)
    requires Inv(db) && q in db.quotes
    ensures db.quotes[q].status == Issued <==> !Owned(db.settlements, q)
    ensures db.quotes[q].status == Reserved <==>
            exists s :: OwnedBy(db.settlements, q, s) && db.settlements[s].status != Confirmed
    ensures db.quotes[q].status == Consumed <==>
            exists s :: OwnedBy(db.settlements, q, s) && db.settlements[s].status == Confirmed
                        && s in db.receipts && s in db.deliveries
    ensures forall s, t :: OwnedBy(db.settlements, q, s) && OwnedBy(db.settlements, q, t) ==> s == t
  {
    if db.quotes[q].status != Issued {
      var s :| OwnedBy(db.settlements, q, s);
      assert db.settlements[s].payment.quoteId == q;
    }
  }

  /** A settlement is confirmed exactly when it has a receipt, exactly when it has a delivery; validated exactly
      when no attempt was recorded; and only an active row can be leased. */
  lemma SettlementMeaning(db: Db, s: SettlementId)
    requires Inv(db) && s in db.settlements
    ensures db.settlements[s].status == Confirmed <==> s in db.receipts
    ensures db.settlements[s].status == Confirmed <==> s in db.deliveries
    ensures db.settlements[s].status == Confirmed <==> db.quotes[db.settlements[s].payment.quoteId].status == Consumed
    ensures db.settlements[s].status == Validated <==> db.settlements[s].attemptedAt.None?
    ensures db.settlements[s].leaseUntil.Some? ==> Active(db.settlements[s].status)
  {
    assert RowOk(db.settlements[s]);
  }

  lemma OutcomeIdsFree(quotes: Quotes, rows: Settlements, receipts: Receipts, deliveries: Deliveries, s: SettlementId,
      r: ReceiptRecord, deliveryId: string)
    requires ReceiptsTrue(quotes, rows, receipts) && IdsDerived(rows, receipts, deliveries)
    requires receipts.Keys == deliveries.Keys <= rows.Keys
    requires s in rows && s !in receipts && r.settlementId == s == r.signedToken.receipt.settlementId
    requires r.payloadHash == PayloadHash(r.signedToken.receipt) && r.tokenHash == TokenHash(r.signedToken)
    requires |s| >= 3 && r.receiptId == DeterministicId("nr", s) && deliveryId == DeterministicId("nd", s)
    ensures forall k :: k in receipts ==>
              receipts[k].receiptId != r.receiptId && receipts[k].payloadHash != r.payloadHash
                  && receipts[k].tokenHash != r.tokenHash
    ensures forall k :: k in deliveries ==> deliveries[k].deliveryId != deliveryId
  {
    forall k | k in receipts
      ensures receipts[k].receiptId != r.receiptId && receipts[k].payloadHash != r.payloadHash
          && receipts[k].tokenHash != r.tokenHash
    {
      assert ReceiptTrue(quotes, rows[k], k, receipts[k]);
      DeterministicIdInjective("nr", k, s);
    }
    forall k | k in deliveries ensures deliveries[k].deliveryId != deliveryId {
      DeterministicIdInjective("nd", k, s);
    }
  }

  /** With inputs the services can produce, a confirmation never hits a UNIQUE violation. */
  lemma ConfirmationNeverRollsBack(db: Db, o: Observed)
    requires Inv(db) && o.Settled? && o.settlementId in db.settlements && SettledWellFormed(db, o)
    ensures ApplyReconciliationResult(db, o).Commit?
    ensures Active(db.settlements[o.settlementId].status) ==>
        ApplyReconciliationResult(db, o).db == AppliedSettled(db, o)
  {
    hide RowsOk, QuotesTaken, QuotesOwned, PaymentsUnique, ReceiptsTrue, IdsDerived, DeliveriesOk;
    var s := o.settlementId;
    if Active(db.settlements[s].status) {
      OutcomeIdsFree(db.quotes, db.settlements, db.receipts, db.deliveries, s, o.receipt, o.deliveryId);
      assert ReceiptInsertable(db, o.receipt) && DeliveryInsertable(db, s, o.deliveryId);
    }
  }

  /* ---------- conservation ---------- */

  /** Amounts stated by receipts, per settlement, for one merchant and asset. */
  function ReceiptedAmounts(db: Db, merchant: string, asset: string): map<SettlementId, nat> {
    map s | s in db.receipts
            && db.receipts[s].signedToken.receipt.merchantId == merchant
            && db.receipts[s].signedToken.receipt.asset == asset
      :: db.receipts[s].signedToken.receipt.amount
  }

  /** Amounts of consumed quotes for one merchant and asset. */
  function ConsumedAmounts(db: Db, merchant: string, asset: string): map<QuoteId, nat> {
    map q | q in db.quotes
            && db.quotes[q].status == Consumed
            && db.quotes[q].terms.merchantId == merchant
            && db.quotes[q].terms.assetId == asset
      :: db.quotes[q].terms.amountAtomic
  }

  /** A receipted settlement's quote is consumed for the amount its receipt states. */
  lemma ReceiptedIsConsumed(db: Db, merchant: string, asset: string, s: SettlementId)
    requires Inv(db) && s in ReceiptedAmounts(db, merchant, asset)
    ensures s in db.settlements
    ensures var n, q := ConsumedAmounts(db, merchant, asset), db.settlements[s].payment.quoteId;
      q in n && n[q] == ReceiptedAmounts(db, merchant, asset)[s]
  {
    hide RowsOk, QuotesOwned, PaymentsUnique, IdsDerived, DeliveriesOk;
    assert ReceiptTrue(db.quotes, db.settlements[s], s, db.receipts[s]);
  }

  lemma ConsumedIsReceipted(db: Db, merchant: string, asset: string, q: QuoteId) returns (s: SettlementId)
    requires Inv(db) && q in ConsumedAmounts(db, merchant, asset)
    ensures s in ReceiptedAmounts(db, merchant, asset) && s in db.settlements
    ensures db.settlements[s].payment.quoteId == q
  {
    hide RowsOk, PaymentsUnique, IdsDerived, DeliveriesOk;
    s :| OwnedBy(db.settlements, q, s);
    assert db.settlements[s].status == Confirmed;
    assert ReceiptTrue(db.quotes, db.settlements[s], s, db.receipts[s]);
  }

  /** What receipts state adds up to what quotes were consumed for: nothing is counted twice or lost. */
  lemma ReceiptsConserveQuotes(db: Db, merchant: string, asset: string)
    requires Inv(db)
    ensures Total(ReceiptedAmounts(db, merchant, asset)) == Total(ConsumedAmounts(db, merchant, asset))
  {
    hide RowsOk, QuotesTaken, QuotesOwned, OutcomesCoupled, ReceiptsTrue, IdsDerived, DeliveriesOk, ReceiptedAmounts,
        ConsumedAmounts;
    var m, n := ReceiptedAmounts(db, merchant, asset), ConsumedAmounts(db, merchant, asset);
    forall s | s in m
      ensures s in db.settlements && db.settlements[s].payment.quoteId in n
      ensures n[db.settlements[s].payment.quoteId] == m[s]
    {
      ReceiptedIsConsumed(db, merchant, asset, s);
    }
    var rename := map s | s in m :: db.settlements[s].payment.quoteId;
    forall j, k | j in rename && k in rename && rename[j] == rename[k] ensures j == k {
      assert SamePayment(db.settlements[j].payment, db.settlements[k].payment);
    }
    forall q | q in n ensures exists s :: s in rename && rename[s] == q {
      var s := ConsumedIsReceipted(db, merchant, asset, q);
      assert s in rename;
    }
    TotalRename(m, rename, n);
  }

  /** Two receipts never share a quote, a transaction, a receipt identifier or a delivery. */
  lemma ReceiptsAreInjective(db: Db, s: SettlementId, t: SettlementId)
    requires Inv(db) && s in db.receipts && t in db.receipts && s != t
    ensures var a, b := db.receipts[s].signedToken.receipt, db.receipts[t].signedToken.receipt;
      && a.quoteId != b.quoteId
      && (a.network != b.network || a.txid != b.txid)
      && a.receiptId != b.receiptId
      && db.deliveries[s].deliveryId != db.deliveries[t].deliveryId
  {
    assert ReceiptTrue(db.quotes, db.settlements[s], s, db.receipts[s]);
    assert ReceiptTrue(db.quotes, db.settlements[t], t, db.receipts[t]);
    assert !SamePayment(db.settlements[s].payment, db.settlements[t].payment);
    DeterministicIdInjective("nr", s, t);
    DeterministicIdInjective("nd", s, t);
  }

  /* ---------- stale workers and leases ---------- */

  /** Once a settlement has ended, no history of transactions - late applies included - changes its row or its receipt,
      and every late apply answers with the row as it ended. */
  lemma LateAppliesAreHarmless(db: Db, ts: seq<Txn>, late: Observed)
    requires late.settlementId in db.settlements && !Active(db.settlements[late.settlementId].status)
    ensures var s, after := late.settlementId, ExecAll(db, ts);
      && s in after.settlements
      && after.settlements[s] == db.settlements[s]
      && (s in db.receipts ==> s in after.receipts && after.receipts[s] == db.receipts[s])
      && ApplyReconciliationResult(after, late) == Commit(after, Select(after, s))
  {
    HistoryAdvances(db, ts);
  }

  /** A failed or dropped settlement never gets a receipt or a delivery, whatever happens next. */
  lemma FailureIsNeverPaid(db: Db, ts: seq<Txn>, s: SettlementId)
    requires Inv(db) && WellFormedHistory(db, ts)
    requires s in db.settlements && (db.settlements[s].status == Failed || db.settlements[s].status == Dropped)
    ensures s !in ExecAll(db, ts).receipts && s !in ExecAll(db, ts).deliveries
  {
    HistoryAdvances(db, ts);
    assert ExecAll(db, ts).settlements[s] == db.settlements[s];
    HistoryKeepsInv(db, ts);
    SettlementMeaning(ExecAll(db, ts), s);
  }

  predicate Touches(t: Txn, s: SettlementId) {
    (t.TxApply? && t.observed.settlementId == s) || (t.TxClaim? && s in t.picked)
  }

  ghost predicate LeasedUntil(db: Db, s: SettlementId, until: Time) {
    s in db.settlements && db.settlements[s].leaseUntil == Some(until)
  }

  lemma LeaseKept(db: Db, t: Txn, s: SettlementId, until: Time)
    requires LeasedUntil(db, s, until) && !Touches(t, s)
    ensures LeasedUntil(Exec(db, t), s, until)
  {
  }

  lemma {:induction false} LeaseKeptThrough(db: Db, ts: seq<Txn>, s: SettlementId, until: Time)
    requires LeasedUntil(db, s, until)
    requires forall i :: 0 <= i < |ts| ==> !Touches(ts[i], s)
    ensures LeasedUntil(ExecAll(db, ts), s, until)
    decreases |ts|
  {
    if ts != [] {
      LeaseKept(db, ts[0], s, until);
      LeaseKeptThrough(Exec(db, ts[0]), ts[1..], s, until);
    }
  }

  /** Between two successive claims of a settlement with no apply in between, the first lease has run out. */
  lemma ClaimsAreALeaseApart(db: Db, first: Txn, between: seq<Txn>, second: Txn, s: SettlementId)
    requires first.TxClaim? && second.TxClaim? && s in first.picked && s in second.picked
    requires IsBatch(db, first.limit, first.claimedAt, first.locked, first.picked)
    requires forall i :: 0 <= i < |between| ==> !Touches(between[i], s)
    requires var middle := ExecAll(Exec(db, first), between);
      IsBatch(middle, second.limit, second.claimedAt, second.locked, second.picked)
    ensures first.leaseUntil <= second.claimedAt
  {
    assert s in DueSet(db, first.claimedAt, first.locked);
    assert LeasedUntil(Exec(db, first), s, first.leaseUntil);
    LeaseKeptThrough(Exec(db, first), between, s, first.leaseUntil);
    var middle := ExecAll(Exec(db, first), between);
    assert s in DueSet(middle, second.claimedAt, second.locked);
  }

  /** A rejected broadcast of a leased settlement cannot be recorded: the lease CHECK rolls it back. */
  lemma RejectionUnderLeaseAborts(db: Db, s: SettlementId, reason: Option<string>, at: Time)
    requires s in db.settlements && db.settlements[s].status == Validated
    ensures UpdateSettlementStatus(db, s, Failed, reason, at).Rollback? <==> db.settlements[s].leaseUntil.Some?
    ensures UpdateSettlementStatus(db, s, Broadcast, reason, at).Commit?
    ensures UpdateSettlementStatus(db, s, Pending, reason, at).Commit?
  {
  }

  /* ---------- replays of a reservation ---------- */

  /** Resubmitting the stored payment under the stored quote token finds the same settlement and writes nothing;
      it does so exactly when the quote token, the transaction and its bytes are the stored ones. */
  lemma ResubmissionReturnsTheSameSettlement(db: Db, r: Reservation, s: SettlementId, now: Time)
    requires Inv(db) && OwnedBy(db.settlements, r.payment.quoteId, s)
    ensures var stored, out := db.settlements[s].payment, ReserveSettlement(db, r, now);
      && (out.Commit? <==>
         QuoteLocked(db, r) && stored.txid == r.payment.txid && stored.rawTxHash == r.payment.rawTxHash)
      && (out.Commit? ==> out == Commit(db, ReserveResult(false, Select(db, s))))
  {
    assert SettlementFor(db, r.payment.quoteId, s);
    var q := r.payment.quoteId;
    forall t | SettlementFor(db, q, t) ensures t == s {
      assert SamePayment(db.settlements[s].payment, db.settlements[t].payment);
    }
  }

  /** A reservation that creates a settlement is the only one its quote and its transaction will ever have. */
  lemma CreatedOnlyOnce(db: Db, r: Reservation, now: Time, ts: seq<Txn>, again: Reservation, later: Time)
    requires ReserveSettlement(db, r, now).Commit? && ReserveSettlement(db, r, now).value.created
    requires again.payment.quoteId == r.payment.quoteId
          || (again.payment.network == r.payment.network && again.payment.txid == r.payment.txid)
    ensures var end := ExecAll(ReserveSettlement(db, r, now).db, ts);
      var out := ReserveSettlement(end, again, later);
      out.Commit? ==> !out.value.created && out.db == end
  {
    var after := ReserveSettlement(db, r, now).db;
    HistoryAdvances(after, ts);
    var end := ExecAll(after, ts);
    assert end.settlements[r.settlementId].payment == r.payment;
    if again.payment.quoteId == r.payment.quoteId {
      assert SettlementFor(end, again.payment.quoteId, r.settlementId);
    } else {
      assert TxidTaken(end, again.payment.network, again.payment.txid);
    }
  }
}
