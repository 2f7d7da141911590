/** What every transaction of the ledger keeps, and what that says about quotes, receipts and deliveries. */
module LedgerInvariants {
  import opened Basics
  import opened Ledger

  /* ---------- identifiers ---------- */

  predicate IsSettlementId(s: SettlementId) {
    |s| >= 3 && s[..3] == "ns_"
  }

  function DeterministicId(prefix: string, s: SettlementId): string
    requires |s| >= 3
  {
    prefix + "_" + s[3..]
  }

  /** Receipt and delivery identifiers are derived one-to-one from settlement identifiers. */
  lemma DeterministicIdInjective(prefix: string, s: SettlementId, t: SettlementId)
    requires IsSettlementId(s) && IsSettlementId(t)
    ensures DeterministicId(prefix, s) == DeterministicId(prefix, t) <==> s == t
  {
    if DeterministicId(prefix, s) == DeterministicId(prefix, t) {
      var n := |prefix| + 1;
      assert DeterministicId(prefix, s)[n..] == s[3..];
      assert DeterministicId(prefix, t)[n..] == t[3..];
      assert s == s[..3] + s[3..] && t == t[..3] + t[3..];
    }
  }

  /* ---------- the invariant ---------- */

  type Quotes = map<QuoteId, Quote>
  type Settlements = map<SettlementId, Settlement>
  type Receipts = map<SettlementId, ReceiptRecord>
  type Deliveries = map<SettlementId, Delivery>

  predicate RowOk(row: Settlement) {
    && (row.status == Validated <==> row.attemptedAt.None?)
    && (row.leaseUntil.Some? ==> Active(row.status))
    && (row.confirmation.Some? <==> row.status == Confirmed)
  }

  ghost predicate RowsOk(rows: Settlements) {
    forall s :: s in rows ==> RowOk(rows[s])
  }

  function QuoteStatusFor(s: Status): QuoteStatus {
    if s == Confirmed then Consumed else Reserved
  }

  /** Every settlement reserves or consumes its quote. */
  ghost predicate QuotesTaken(quotes: Quotes, rows: Settlements) {
    forall s :: s in rows ==>
      && rows[s].payment.quoteId in quotes
      && quotes[rows[s].payment.quoteId].status == QuoteStatusFor(rows[s].status)
  }

  predicate OwnedBy(rows: Settlements, q: QuoteId, s: SettlementId) {
    s in rows && rows[s].payment.quoteId == q
  }

  ghost predicate Owned(rows: Settlements, q: QuoteId) {
    exists s :: OwnedBy(rows, q, s)
  }

  /** Every quote that is no longer merely issued has a settlement. */
  ghost predicate QuotesOwned(quotes: Quotes, rows: Settlements) {
    forall q :: q in quotes && quotes[q].status != Issued ==> Owned(rows, q)
  }

  predicate SamePayment(a: Payment, b: Payment) {
    a.quoteId == b.quoteId || (a.network == b.network && a.txid == b.txid)
  }

  ghost predicate PaymentsUnique(rows: Settlements) {
    forall s, t :: s in rows && t in rows && SamePayment(rows[s].payment, rows[t].payment) ==> s == t
  }

  ghost predicate OutcomesCoupled(rows: Settlements, receipts: Receipts, deliveries: Deliveries) {
    && receipts.Keys == deliveries.Keys
    && receipts.Keys <= rows.Keys
    && (forall s :: s in rows ==> (rows[s].status == Confirmed <==> s in receipts))
  }

  /** A receipt that states the settlement's payment, its quote's terms and nothing else. */
  predicate ReceiptStates(r: ReceiptRecord, s: SettlementId, payment: Payment, terms: QuoteTerms) {
    var p := r.signedToken.receipt;
    && r.settlementId == s
    && r.receiptId == p.receiptId == r.signedToken.receiptId
    && r.payloadHash == PayloadHash(p)
    && r.tokenHash == TokenHash(r.signedToken)
    && p.settlementId == s
    && p.quoteId == payment.quoteId
    && p.network == payment.network
    && p.txid == payment.txid
    && p.payer == payment.payer
    && p.merchantId == terms.merchantId
    && p.asset == terms.assetId
    && p.amount == terms.amountAtomic
    && p.payTo == terms.payTo
  }

  predicate ReceiptTrue(quotes: Quotes, row: Settlement, s: SettlementId, r: ReceiptRecord) {
    && row.payment.quoteId in quotes
    && ReceiptStates(r, s, row.payment, quotes[row.payment.quoteId].terms)
    && row.confirmation.Some?
    && r.signedToken.receipt.blockHeight == row.confirmation.value.blockHeight
    && r.signedToken.receipt.blockHash == row.confirmation.value.blockHash
  }

  ghost predicate ReceiptsTrue(quotes: Quotes, rows: Settlements, receipts: Receipts) {
    forall s :: s in receipts ==> s in rows && ReceiptTrue(quotes, rows[s], s, receipts[s])
  }

  ghost predicate IdsDerived(rows: Settlements, receipts: Receipts, deliveries: Deliveries) {
    && (forall s :: s in rows ==> IsSettlementId(s))
    && (forall s :: s in receipts ==> |s| >= 3 && receipts[s].receiptId == DeterministicId("nr", s))
    && (forall s :: s in deliveries ==> |s| >= 3 && deliveries[s].deliveryId == DeterministicId("nd", s))
  }

  predicate DeliveryOk(d: Delivery) {
    match d.status
    case DeliveryPending => d.attemptCount == 0 && d.responseDigest.None?
    case Delivering => d.attemptCount == 1 && d.startedAt.Some? && d.responseDigest.None?
    case Delivered => d.attemptCount == 1 && d.startedAt.Some? && d.responseDigest.Some? && d.completedAt.Some?
    case DeliveryExpired => d.attemptCount == 0 && d.responseDigest.None?
    case DeliveryFailed => false
  }

  ghost predicate DeliveriesOk(deliveries: Deliveries) {
    forall s :: s in deliveries ==> DeliveryOk(deliveries[s])
  }

  ghost predicate Inv(db: Db) {
    && RowsOk(db.settlements)
    && QuotesTaken(db.quotes, db.settlements)
    && QuotesOwned(db.quotes, db.settlements)
    && PaymentsUnique(db.settlements)
    && OutcomesCoupled(db.settlements, db.receipts, db.deliveries)
    && ReceiptsTrue(db.quotes, db.settlements, db.receipts)
    && IdsDerived(db.settlements, db.receipts, db.deliveries)
    && DeliveriesOk(db.deliveries)
  }

  /** What the services promise about the inputs of their transactions. */
  ghost predicate WellFormed(db: Db, t: Txn) {
    match t
    case TxReserve(r, _) => IsSettlementId(r.settlementId)
    case TxApply(o) => o.Settled? && o.settlementId in db.settlements ==> SettledWellFormed(db, o)
    case _ => true
  }

  ghost predicate SettledWellFormed(db: Db, o: Observed)
    requires o.Settled? && o.settlementId in db.settlements
  {
    var payment := db.settlements[o.settlementId].payment;
    && payment.quoteId in db.quotes
    && ReceiptStates(o.receipt, o.settlementId, payment, db.quotes[payment.quoteId].terms)
    && |o.settlementId| >= 3
    && o.receipt.receiptId == DeterministicId("nr", o.settlementId)
    && o.deliveryId == DeterministicId("nd", o.settlementId)
    && o.receipt.signedToken.receipt.blockHeight == o.blockHeight
    && o.receipt.signedToken.receipt.blockHash == o.blockHash
  }

  /* ---------- preservation, one kind of change at a time ---------- */

  lemma EmptyInv()
    ensures Inv(EMPTY_DB)
  {
  }

  /** Same settlements and payments, none entering or leaving the confirmed state. */
  ghost predicate SameStanding(rows: Settlements, next: Settlements) {
    && rows.Keys == next.Keys
    && (forall s :: s in rows ==>
          && next[s].payment == rows[s].payment
          && next[s].confirmation == rows[s].confirmation
          && (next[s].status == Confirmed <==> rows[s].status == Confirmed))
  }

  lemma OwnershipGrows(rows: Settlements, next: Settlements, q: QuoteId)
    requires Owned(rows, q)
    requires forall s :: s in rows ==> s in next && next[s].payment == rows[s].payment
    ensures Owned(next, q)
  {
    var s :| OwnedBy(rows, q, s);
    assert OwnedBy(next, q, s);
  }

  lemma StandingKeepsPayments(rows: Settlements, next: Settlements)
    requires PaymentsUnique(rows) && SameStanding(rows, next)
    ensures PaymentsUnique(next)
  {
  }

  lemma StandingKeepsQuotes(quotes: Quotes, rows: Settlements, next: Settlements)
    requires QuotesTaken(quotes, rows) && QuotesOwned(quotes, rows) && SameStanding(rows, next)
    ensures QuotesTaken(quotes, next) && QuotesOwned(quotes, next)
  {
    forall q | q in quotes && quotes[q].status != Issued ensures Owned(next, q) {
      OwnershipGrows(rows, next, q);
    }
  }

  lemma StandingKeepsReceipts(quotes: Quotes, rows: Settlements, next: Settlements, receipts: Receipts)
    requires ReceiptsTrue(quotes, rows, receipts) && SameStanding(rows, next)
    ensures ReceiptsTrue(quotes, next, receipts)
  {
  }

  lemma StandingKeepsInv(db: Db, next: Db)
    requires Inv(db) && next.quotes == db.quotes && next.receipts == db.receipts && next.deliveries == db.deliveries
    requires SameStanding(db.settlements, next.settlements) && RowsOk(next.settlements)
    ensures Inv(next)
  {
    StandingKeepsPayments(db.settlements, next.settlements);
    StandingKeepsQuotes(db.quotes, db.settlements, next.settlements);
    StandingKeepsReceipts(db.quotes, db.settlements, next.settlements, db.receipts);
  }

  lemma RowsOkSet(rows: Settlements, s: SettlementId, row: Settlement)
    requires RowsOk(rows) && RowOk(row)
    ensures RowsOk(rows[s := row])
  {
  }

  lemma RowReplaced(rows: Settlements, s: SettlementId, row: Settlement)
    requires RowsOk(rows) && s in rows && RowOk(row)
    requires row.payment == rows[s].payment && row.confirmation == rows[s].confirmation
    requires row.status == Confirmed <==> rows[s].status == Confirmed
    ensures SameStanding(rows, rows[s := row]) && RowsOk(rows[s := row])
  {
  }

  lemma QuoteAdded(quotes: Quotes, rows: Settlements, receipts: Receipts, q: QuoteId, quote: Quote)
    requires QuotesTaken(quotes, rows) && QuotesOwned(quotes, rows) && ReceiptsTrue(quotes, rows, receipts)
    requires q !in quotes && quote.status == Issued
    ensures QuotesTaken(quotes[q := quote], rows) && QuotesOwned(quotes[q := quote], rows)
    ensures ReceiptsTrue(quotes[q := quote], rows, receipts)
  {
  }

  lemma IssueKeepsInv(db: Db, q: QuoteId, terms: QuoteTerms)
    requires Inv(db)
    ensures Inv(InsertIssuedQuote(db, q, terms).After(db))
  {
    if QuoteInsertable(db, q, terms) {
      QuoteAdded(db.quotes, db.settlements, db.receipts, q, Quote(terms, Issued));
    }
  }

  lemma StatusKeepsInv(db: Db, s: SettlementId, to: AttemptStatus, reason: Option<string>, at: Time)
    requires Inv(db)
    ensures Inv(UpdateSettlementStatus(db, s, to, reason, at).After(db))
  {
    var out := UpdateSettlementStatus(db, s, to, reason, at);
    if out.Commit? {
      RowReplaced(db.settlements, s, out.db.settlements[s]);
      StandingKeepsInv(db, out.db);
    }
  }

  lemma LeasesKeepStanding(db: Db, picked: set<SettlementId>, until: Time)
    requires RowsOk(db.settlements)
    requires forall s :: s in picked && s in db.settlements ==> Active(db.settlements[s].status)
    ensures SameStanding(db.settlements, ClaimSettlements(db, picked, until).settlements)
    ensures RowsOk(ClaimSettlements(db, picked, until).settlements)
  {
  }

  lemma ClaimKeepsInv(db: Db, limit: nat, at: Time, until: Time, locked: set<SettlementId>, picked: set<SettlementId>)
    requires Inv(db) && IsBatch(db, limit, at, locked, picked)
    ensures Inv(ClaimSettlements(db, picked, until))
  {
    assert forall s :: s in picked ==> s in DueSet(db, at, locked);
    LeasesKeepStanding(db, picked, until);
    StandingKeepsInv(db, ClaimSettlements(db, picked, until));
  }

  lemma PendingKeepsInv(db: Db, o: Observed)
    requires Inv(db) && o.StillPending? && o.settlementId in db.settlements
        && Active(db.settlements[o.settlementId].status)
    ensures Inv(AppliedPending(db, o))
  {
    RowReplaced(db.settlements, o.settlementId, AppliedPending(db, o).settlements[o.settlementId]);
    StandingKeepsInv(db, AppliedPending(db, o));
  }

  lemma EndedKeepsInv(db: Db, o: Observed)
    requires Inv(db) && o.Ended? && o.settlementId in db.settlements && Active(db.settlements[o.settlementId].status)
    ensures Inv(AppliedEnded(db, o))
  {
    RowReplaced(db.settlements, o.settlementId, AppliedEnded(db, o).settlements[o.settlementId]);
    StandingKeepsInv(db, AppliedEnded(db, o));
  }

  lemma SettledKeepsQuotes(quotes: Quotes, rows: Settlements, s: SettlementId, row: Settlement)
    requires QuotesTaken(quotes, rows) && QuotesOwned(quotes, rows) && PaymentsUnique(rows)
    requires s in rows && row.payment == rows[s].payment && row.status == Confirmed
    ensures var q := row.payment.quoteId;
      var quotes' := quotes[q := quotes[q].(status := Consumed)];
      QuotesTaken(quotes', rows[s := row]) && QuotesOwned(quotes', rows[s := row]) && PaymentsUnique(rows[s := row])
  {
    var q := row.payment.quoteId;
    var quotes' := quotes[q := quotes[q].(status := Consumed)];
    forall k | k in quotes' && quotes'[k].status != Issued ensures Owned(rows[s := row], k) {
      assert OwnedBy(rows, q, s);
      OwnershipGrows(rows, rows[s := row], k);
    }
  }

  lemma SettledKeepsReceipts(quotes: Quotes, rows: Settlements, receipts: Receipts, s: SettlementId, row: Settlement,
      r: ReceiptRecord)
    requires ReceiptsTrue(quotes, rows, receipts)
    requires s in rows && s !in receipts && row.payment == rows[s].payment
    requires ReceiptTrue(quotes, row, s, r)
    ensures var q := row.payment.quoteId;
      ReceiptsTrue(quotes[q := quotes[q].(status := Consumed)], rows[s := row], receipts[s := r])
  {
  }

  lemma SettledKeepsOutcomes(rows: Settlements, receipts: Receipts, deliveries: Deliveries, s: SettlementId,
      row: Settlement,
      r: ReceiptRecord, d: Delivery)
    requires OutcomesCoupled(rows, receipts, deliveries) && DeliveriesOk(deliveries)
        && IdsDerived(rows, receipts, deliveries)
    requires s in rows && row.status == Confirmed && DeliveryOk(d)
    requires |s| >= 3 && r.receiptId == DeterministicId("nr", s) && d.deliveryId == DeterministicId("nd", s)
    ensures OutcomesCoupled(rows[s := row], receipts[s := r], deliveries[s := d])
    ensures DeliveriesOk(deliveries[s := d])
    ensures IdsDerived(rows[s := row], receipts[s := r], deliveries[s := d])
  {
  }

  lemma SettledKeepsInv(db: Db, o: Observed)
    requires Inv(db) && o.Settled? && o.settlementId in db.settlements && Active(db.settlements[o.settlementId].status)
    requires SettledWellFormed(db, o)
    ensures Inv(AppliedSettled(db, o))
  {
    var s := o.settlementId;
    var next := AppliedSettled(db, o);
    SettledKeepsQuotes(db.quotes, db.settlements, s, next.settlements[s]);
    SettledKeepsReceipts(db.quotes, db.settlements, db.receipts, s, next.settlements[s], o.receipt);
    SettledKeepsOutcomes(db.settlements, db.receipts, db.deliveries, s, next.settlements[s], o.receipt,
        next.deliveries[s]);
    RowsOkSet(db.settlements, s, next.settlements[s]);
  }

  lemma ApplyKeepsInv(db: Db, o: Observed)
    requires Inv(db) && WellFormed(db, TxApply(o))
    ensures Inv(ApplyReconciliationResult(db, o).After(db))
  {
    hide Inv;
    if o.settlementId in db.settlements && Active(db.settlements[o.settlementId].status) {
      match o
      case StillPending(_, _, _, _) => PendingKeepsInv(db, o);
      case Ended(_, _, _, _) => EndedKeepsInv(db, o);
      case Settled(_, _, _, _, _, _, _, _, _) => SettledKeepsInv(db, o);
    }
  }

  lemma ReserveKeepsQuotes(quotes: Quotes, rows: Settlements, s: SettlementId, payment: Payment, now: Time)
    requires QuotesTaken(quotes, rows) && QuotesOwned(quotes, rows) && PaymentsUnique(rows)
    requires s !in rows && payment.quoteId in quotes && !Owned(rows, payment.quoteId)
    requires forall t :: t in rows ==>
        !(rows[t].payment.network == payment.network && rows[t].payment.txid == payment.txid)
    ensures var q := payment.quoteId;
      var quotes' := quotes[q := quotes[q].(status := Reserved)];
      var rows' := rows[s := NewSettlement(payment, now)];
      QuotesTaken(quotes', rows') && QuotesOwned(quotes', rows') && PaymentsUnique(rows')
  {
    var q := payment.quoteId;
    var quotes' := quotes[q := quotes[q].(status := Reserved)];
    var rows' := rows[s := NewSettlement(payment, now)];
    forall t | t in rows ensures rows[t].payment.quoteId != q {
      assert !OwnedBy(rows, q, t);
    }
    forall k | k in quotes' && quotes'[k].status != Issued ensures Owned(rows', k) {
      if k == q {
        assert OwnedBy(rows', q, s);
      } else {
        OwnershipGrows(rows, rows', k);
      }
    }
  }

  lemma ReserveKeepsReceipts(quotes: Quotes, rows: Settlements, receipts: Receipts, s: SettlementId, payment: Payment,
      now: Time)
    requires ReceiptsTrue(quotes, rows, receipts) && s !in rows && payment.quoteId in quotes
    ensures var q := payment.quoteId;
      ReceiptsTrue(quotes[q := quotes[q].(status := Reserved)], rows[s := NewSettlement(payment, now)], receipts)
  {
  }

  lemma ReserveKeepsOutcomes(rows: Settlements, receipts: Receipts, deliveries: Deliveries, s: SettlementId,
      payment: Payment, now: Time)
    requires OutcomesCoupled(rows, receipts, deliveries) && IdsDerived(rows, receipts, deliveries)
    requires s !in rows && IsSettlementId(s)
    ensures OutcomesCoupled(rows[s := NewSettlement(payment, now)], receipts, deliveries)
    ensures IdsDerived(rows[s := NewSettlement(payment, now)], receipts, deliveries)
  {
  }

  lemma ReserveKeepsInv(db: Db, r: Reservation, now: Time)
    requires Inv(db) && IsSettlementId(r.settlementId)
    ensures Inv(ReserveSettlement(db, r, now).After(db))
  {
    var out := ReserveSettlement(db, r, now);
    var q := r.payment.quoteId;
    if out.Commit? && out.value.created {
      if Owned(db.settlements, q) {
        var s :| OwnedBy(db.settlements, q, s);
        assert SettlementFor(db, q, s);
      }
      ReserveKeepsQuotes(db.quotes, db.settlements, r.settlementId, r.payment, now);
      ReserveKeepsReceipts(db.quotes, db.settlements, db.receipts, r.settlementId, r.payment, now);
      ReserveKeepsOutcomes(db.settlements, db.receipts, db.deliveries, r.settlementId, r.payment, now);
      RowsOkSet(db.settlements, r.settlementId, out.db.settlements[r.settlementId]);
    }
  }

  lemma DeliveryReplaced(rows: Settlements, receipts: Receipts, deliveries: Deliveries, s: SettlementId, d: Delivery)
    requires OutcomesCoupled(rows, receipts, deliveries) && IdsDerived(rows, receipts, deliveries)
        && DeliveriesOk(deliveries)
    requires s in deliveries && DeliveryOk(d) && d.deliveryId == deliveries[s].deliveryId
    ensures OutcomesCoupled(rows, receipts, deliveries[s := d])
    ensures IdsDerived(rows, receipts, deliveries[s := d])
    ensures DeliveriesOk(deliveries[s := d])
  {
  }

  lemma DeliveryKeepsInv(db: Db, s: SettlementId, d: Delivery)
    requires Inv(db) && s in db.deliveries && DeliveryOk(d) && d.deliveryId == db.deliveries[s].deliveryId
    ensures Inv(SetDelivery(db, s, d))
  {
    DeliveryReplaced(db.settlements, db.receipts, db.deliveries, s, d);
  }

  lemma ClaimDeliveryKeepsInv(db: Db, s: SettlementId, m: string, at: Time)
    requires Inv(db)
    ensures Inv(ClaimDelivery(db, s, m, at).After(db))
  {
    hide RowsOk, QuotesTaken, QuotesOwned, PaymentsUnique, ReceiptsTrue, IdsDerived;
    var out := ClaimDelivery(db, s, m, at);
    if out.Commit? {
      DeliveryKeepsInv(db, s, out.value.delivery);
    }
  }

  lemma CompleteDeliveryKeepsInv(db: Db, s: SettlementId, m: string, digest: Hash, at: Time)
    requires Inv(db)
    ensures Inv(CompleteDelivery(db, s, m, digest, at).After(db))
  {
    hide RowsOk, QuotesTaken, QuotesOwned, PaymentsUnique, ReceiptsTrue, IdsDerived;
    var out := CompleteDelivery(db, s, m, digest, at);
    if out.Commit? {
      DeliveryKeepsInv(db, s, out.value.delivery);
    }
  }

  /** Every transaction with inputs the services can produce keeps the cross-table invariant. */
  lemma ExecKeepsInv(db: Db, t: Txn)
    requires Inv(db) && WellFormed(db, t)
    ensures Inv(Exec(db, t))
  {
    match t
    case TxIssue(q, terms) => IssueKeepsInv(db, q, terms);
    case TxReserve(r, now) => ReserveKeepsInv(db, r, now);
    case TxStatus(s, to, reason, at) => StatusKeepsInv(db, s, to, reason, at);
    case TxClaim(limit, at, until, locked, picked) =>
      if IsBatch(db, limit, at, locked, picked) {
        ClaimKeepsInv(db, limit, at, until, locked, picked);
      }
    case TxApply(o) => ApplyKeepsInv(db, o);
    case TxClaimDelivery(s, m, at) => ClaimDeliveryKeepsInv(db, s, m, at);
    case TxCompleteDelivery(s, m, digest, at) => CompleteDeliveryKeepsInv(db, s, m, digest, at);
  }
}
