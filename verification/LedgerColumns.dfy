/** The ledger's statements read off the columns: what the UNIQUE indexes keep over every history, and who is
    refused. */
module LedgerColumns {
  import opened Basics
  import opened Ledger
  import opened LedgerInvariants

  /* ---------- the indexes, whatever the callers send ---------- */

  predicate QuotesDiffer(a: Quote, b: Quote) {
    a.terms.fingerprint != b.terms.fingerprint && a.terms.signedTokenHash != b.terms.signedTokenHash
  }

  /** UNIQUE fingerprint and signed_token_hash; an amount above zero, and five minutes to live at most. */
  ghost predicate QuotesIndexed(quotes: Quotes) {
    && (forall p, q :: p in quotes && q in quotes && p != q ==> QuotesDiffer(quotes[p], quotes[q]))
    && (forall q :: q in quotes ==>
          && quotes[q].terms.amountAtomic > 0
          && quotes[q].terms.issuedAt < quotes[q].terms.expiresAt <= quotes[q].terms.issuedAt + 300000)
  }

  predicate SettlementsDiffer(a: Settlement, b: Settlement) {
    && a.payment.quoteId != b.payment.quoteId
    && !(a.payment.network == b.payment.network && a.payment.txid == b.payment.txid)
  }

  /** UNIQUE quote_id and (network, txid). */
  ghost predicate SettlementsIndexed(rows: Settlements) {
    forall s, t :: s in rows && t in rows && s != t ==> SettlementsDiffer(rows[s], rows[t])
  }

  predicate ReceiptsDiffer(a: ReceiptRecord, b: ReceiptRecord) {
    && a.receiptId != b.receiptId && a.settlementId != b.settlementId
    && a.payloadHash != b.payloadHash && a.tokenHash != b.tokenHash
  }

  /** UNIQUE receipt_id, settlement_id, payload_hash and token_hash, each for a stored settlement. */
  ghost predicate ReceiptsIndexed(rows: Settlements, receipts: Receipts) {
    && (forall s :: s in receipts ==> s in rows && receipts[s].settlementId == s)
    && (forall s, t :: s in receipts && t in receipts && s != t ==> ReceiptsDiffer(receipts[s], receipts[t]))
  }

  /** UNIQUE delivery_id. */
  ghost predicate DeliveriesIndexed(deliveries: Deliveries) {
    forall s, t :: s in deliveries && t in deliveries && s != t ==>
        deliveries[s].deliveryId != deliveries[t].deliveryId
  }

  ghost predicate Indexed(db: Db) {
    && QuotesIndexed(db.quotes) && SettlementsIndexed(db.settlements)
    && ReceiptsIndexed(db.settlements, db.receipts) && DeliveriesIndexed(db.deliveries)
  }

  lemma QuoteMoves(quotes: Quotes, q: QuoteId, quote: Quote)
    requires QuotesIndexed(quotes) && q in quotes && quote.terms == quotes[q].terms
    ensures QuotesIndexed(quotes[q := quote])
  {
  }

  lemma RowsMove(rows: Settlements, next: Settlements, receipts: Receipts)
    requires SettlementsIndexed(rows) && ReceiptsIndexed(rows, receipts) && rows.Keys == next.Keys
    requires forall s :: s in rows ==> next[s].payment == rows[s].payment
    ensures SettlementsIndexed(next) && ReceiptsIndexed(next, receipts)
  {
  }

  lemma ReceiptInserted(rows: Settlements, receipts: Receipts, db: Db, r: ReceiptRecord)
    requires ReceiptsIndexed(rows, receipts) && db.receipts == receipts && db.settlements == rows
    requires ReceiptInsertable(db, r)
    ensures ReceiptsIndexed(rows, receipts[r.settlementId := r])
  {
  }

  lemma DeliveryInserted(db: Db, s: SettlementId, d: Delivery)
    requires DeliveriesIndexed(db.deliveries) && DeliveryInsertable(db, s, d.deliveryId)
    ensures DeliveriesIndexed(db.deliveries[s := d])
  {
  }

  lemma DeliveryMoves(deliveries: Deliveries, s: SettlementId, d: Delivery)
    requires DeliveriesIndexed(deliveries) && s in deliveries && d.deliveryId == deliveries[s].deliveryId
    ensures DeliveriesIndexed(deliveries[s := d])
  {
  }

  lemma IssueKeepsIndexes(db: Db, q: QuoteId, terms: QuoteTerms)
    requires Indexed(db)
    ensures Indexed(InsertIssuedQuote(db, q, terms).After(db))
  {
    hide SettlementsIndexed, ReceiptsIndexed, DeliveriesIndexed;
  }

  lemma ReserveKeepsIndexes(db: Db, r: Reservation, now: Time)
    requires Indexed(db)
    ensures Indexed(ReserveSettlement(db, r, now).After(db))
  {
    hide QuotesIndexed, DeliveriesIndexed;
    var out := ReserveSettlement(db, r, now);
    if out.Commit? && out.value.created {
      QuoteMoves(db.quotes, r.payment.quoteId, db.quotes[r.payment.quoteId].(status := Reserved));
      forall s | s in db.settlements ensures SettlementsDiffer(db.settlements[s], NewSettlement(r.payment, now)) {
        assert !SettlementFor(db, r.payment.quoteId, s);
      }
    }
  }

  lemma StatusKeepsIndexes(db: Db, s: SettlementId, to: AttemptStatus, reason: Option<string>, at: Time)
    requires Indexed(db)
    ensures Indexed(UpdateSettlementStatus(db, s, to, reason, at).After(db))
  {
    hide QuotesIndexed, DeliveriesIndexed, SettlementsIndexed, ReceiptsIndexed;
    RowsMove(db.settlements, UpdateSettlementStatus(db, s, to, reason, at).After(db).settlements, db.receipts);
  }

  lemma SettledKeepsIndexes(db: Db, o: Observed)
    requires Indexed(db) && o.Settled? && o.settlementId in db.settlements
    requires ReceiptInsertable(db, o.receipt) && DeliveryInsertable(db, o.settlementId, o.deliveryId)
    ensures Indexed(AppliedSettled(db, o))
  {
    hide QuotesIndexed, SettlementsIndexed, ReceiptsIndexed, DeliveriesIndexed, ReceiptInsertable, DeliveryInsertable;
    var s, next := o.settlementId, AppliedSettled(db, o);
    var q := db.settlements[s].payment.quoteId;
    if q in db.quotes {
      QuoteMoves(db.quotes, q, db.quotes[q].(status := Consumed));
    }
    ReceiptInserted(db.settlements, db.receipts, db, o.receipt);
    RowsMove(db.settlements, next.settlements, next.receipts);
    DeliveryInserted(db, s, NewDelivery(o.deliveryId, o.requestDigest, o.deliveryRetryExpiresAt));
  }

  lemma ApplyKeepsIndexes(db: Db, o: Observed)
    requires Indexed(db)
    ensures Indexed(ApplyReconciliationResult(db, o).After(db))
  {
    hide QuotesIndexed, SettlementsIndexed, ReceiptsIndexed, DeliveriesIndexed, ReceiptInsertable, DeliveryInsertable;
    var next := ApplyReconciliationResult(db, o).After(db);
    if next != db {
      if o.Settled? {
        hide AppliedSettled;
        SettledKeepsIndexes(db, o);
      } else {
        RowsMove(db.settlements, next.settlements, db.receipts);
      }
    }
  }

  lemma DeliveryKeepsIndexes(db: Db, t: Txn)
    requires Indexed(db) && (t.TxClaimDelivery? || t.TxCompleteDelivery?)
    ensures Indexed(Exec(db, t))
  {
    hide QuotesIndexed, SettlementsIndexed, ReceiptsIndexed, DeliveriesIndexed;
    if Exec(db, t) != db {
      DeliveryMoves(db.deliveries, t.settlementId, Exec(db, t).deliveries[t.settlementId]);
    }
  }

  lemma ExecKeepsIndexes(db: Db, t: Txn)
    requires Indexed(db)
    ensures Indexed(Exec(db, t))
  {
    hide Indexed;
    match t
    case TxIssue(q, terms) => IssueKeepsIndexes(db, q, terms);
    case TxReserve(r, now) => ReserveKeepsIndexes(db, r, now);
    case TxStatus(s, to, reason, at) => StatusKeepsIndexes(db, s, to, reason, at);
    case TxClaim(limit, at, until, locked, picked) => ClaimKeepsIndexes(db, picked, until);
    case TxApply(o) => ApplyKeepsIndexes(db, o);
    case TxClaimDelivery(_, _, _) => DeliveryKeepsIndexes(db, t);
    case TxCompleteDelivery(_, _, _, _) => DeliveryKeepsIndexes(db, t);
  }

  lemma ClaimKeepsIndexes(db: Db, picked: set<SettlementId>, until: Time)
    requires Indexed(db)
    ensures Indexed(ClaimSettlements(db, picked, until))
  {
    hide QuotesIndexed, DeliveriesIndexed, SettlementsIndexed, ReceiptsIndexed;
    RowsMove(db.settlements, ClaimSettlements(db, picked, until).settlements, db.receipts);
  }

  /** Over every history of transactions, with any inputs at all, no two rows of a table share what an index keeps
      apart. */
  lemma {:induction false} IndexesHoldInEveryHistory(db: Db, ts: seq<Txn>)
    requires Indexed(db)
    ensures Indexed(ExecAll(db, ts))
    decreases |ts|
  {
    hide Indexed;
    if ts != [] {
      ExecKeepsIndexes(db, ts[0]);
      IndexesHoldInEveryHistory(Exec(db, ts[0]), ts[1..]);
    }
  }

  /* ---------- who is refused ---------- */

  /** A quote is refused exactly when an index already holds its id, fingerprint or token hash, or its own columns are
      out of range. */
  lemma QuoteIssuedIff(db: Db, q: QuoteId, terms: QuoteTerms)
    ensures var out := InsertIssuedQuote(db, q, terms);
      && (out.Commit? <==>
            && q !in db.quotes && (forall k :: k in db.quotes ==> QuotesDiffer(db.quotes[k], Quote(terms, Issued)))
            && 1 <= terms.amountAtomic && 1 <= terms.expiresAt - terms.issuedAt <= 300000)
      && (out.Commit? ==> out.db == db.(quotes := db.quotes[q := Quote(terms, Issued)]))
  {
  }

  /** A settlement is created exactly for an issued, unexpired quote of this merchant and token that has none yet, and a
      transaction that pays for nothing else; its row has been neither attempted nor leased and is due at once. */
  lemma ReservationCreatesIff(db: Db, r: Reservation, now: Time)
    ensures var out, q, x := ReserveSettlement(db, r, now), r.payment.quoteId, r.settlementId;
      && (out.Commit? && out.value.created <==>
            && q in db.quotes && db.quotes[q].status == Issued && now <= db.quotes[q].terms.expiresAt
            && db.quotes[q].terms.merchantId == r.merchantId
            && db.quotes[q].terms.signedTokenHash == r.expectedSignedTokenHash
            && x !in db.settlements
            && forall s :: s in db.settlements ==> SettlementsDiffer(db.settlements[s], NewSettlement(r.payment, now)))
      && (out.Commit? && out.value.created ==>
            && out.db.settlements == db.settlements[x := Settlement(r.payment, now, Validated, None, None, None, None,
                 None, now, None, 0)]
            && out.db.quotes == db.quotes[q := Quote(db.quotes[q].terms, Reserved)]
            && out.db.log == db.log + [Transition(x, None, Validated, Some("payment_verified"), None)]
            && out.db.receipts == db.receipts && out.db.deliveries == db.deliveries
            && out.value.settlement == SettlementRecord(x, out.db.settlements[x],
                 if x in db.receipts then Some(db.receipts[x]) else None,
                 if x in db.deliveries then Some(db.deliveries[x]) else None))
  {
    var q, row := r.payment.quoteId, NewSettlement(r.payment, now);
    if s :| s in db.settlements && !SettlementsDiffer(db.settlements[s], row) {
      assert SettlementFor(db, q, s) || TxidTaken(db, r.payment.network, r.payment.txid);
    }
    if forall s :: s in db.settlements ==> SettlementsDiffer(db.settlements[s], row) {
      forall s ensures !SettlementFor(db, q, s) {
      }
    }
  }

  /** Which refusal: anything wrong with the quote makes it unavailable, anything wrong with the payment a replay. */
  lemma ReservationRefusal(db: Db, r: Reservation, now: Time)
    requires PaymentsUnique(db.settlements)
    ensures var out, q := ReserveSettlement(db, r, now), r.payment.quoteId;
      var ours := q in db.quotes && db.quotes[q].terms.merchantId == r.merchantId
                  && db.quotes[q].terms.signedTokenHash == r.expectedSignedTokenHash;
      && (!ours ==> out == Rollback(QuoteUnavailable))
      && (forall s :: ours && s in db.settlements && db.settlements[s].payment.quoteId == q ==>
            out == if db.settlements[s].payment.txid == r.payment.txid
                      && db.settlements[s].payment.rawTxHash == r.payment.rawTxHash
                   then Commit(db, ReserveResult(false, Select(db, s))) else Rollback(PaymentReplayed))
      && (ours && (forall s :: s in db.settlements ==> db.settlements[s].payment.quoteId != q)
          && (db.quotes[q].status != Issued || db.quotes[q].terms.expiresAt < now) ==>
            out == Rollback(QuoteUnavailable))
  {
    var q := r.payment.quoteId;
    forall s, t | SettlementFor(db, q, s) && SettlementFor(db, q, t) ensures s == t {
      assert SamePayment(db.settlements[s].payment, db.settlements[t].payment);
    }
    forall s | s in db.settlements && db.settlements[s].payment.quoteId == q ensures SettlementFor(db, q, s) {
    }
  }

  /** A report is refused exactly when its settlement is unknown, or it would confirm one that is still active and an
      index already holds its receipt or delivery. */
  lemma ReportRefusedIff(db: Db, o: Observed)
    ensures var s := o.settlementId; ApplyReconciliationResult(db, o).Rollback? <==>
      || s !in db.settlements
      || (&& o.Settled? && db.settlements[s].status in {Validated, Broadcast, Pending}
          && (|| o.receipt.settlementId !in db.settlements || o.receipt.settlementId in db.receipts
              || s in db.deliveries
              || (exists k :: k in db.deliveries && db.deliveries[k].deliveryId == o.deliveryId)
              || (exists k :: k in db.receipts &&
                    (db.receipts[k].receiptId == o.receipt.receiptId
                     || db.receipts[k].payloadHash == o.receipt.payloadHash
                     || db.receipts[k].tokenHash == o.receipt.tokenHash))))
  {
  }

  /* ---------- what a worker is given ---------- */

  /** Neither ended, nor retried too early, nor held by another worker whose lease still runs. */
  predicate Ready(row: Settlement, at: Time) {
    && row.status in {Validated, Broadcast, Pending} && row.reconcileAfter <= at
    && match row.leaseUntil
       case None => true
       case Some(until) => until <= at
  }

  /** Sorts no later by (reconcile_after, created_at). */
  predicate NoLater(a: Settlement, b: Settlement) {
    if a.reconcileAfter == b.reconcileAfter then a.createdAt <= b.createdAt else a.reconcileAfter < b.reconcileAfter
  }

  /** A batch is some of the ready, unlocked rows: all of them if they fit, else exactly `limit`, none of which sorts
      after one left out. */
  lemma BatchIff(db: Db, limit: nat, at: Time, locked: set<SettlementId>, picked: set<SettlementId>)
    ensures IsBatch(db, limit, at, locked, picked) <==>
            && |picked| <= limit
            && (forall p :: p in picked ==> p in db.settlements && p !in locked && Ready(db.settlements[p], at))
            && (forall e :: e in db.settlements && e !in locked && Ready(db.settlements[e], at) && e !in picked ==>
                  |picked| == limit
                  && forall p :: p in picked ==> NoLater(db.settlements[p], db.settlements[e]))
  {
    var due := DueSet(db, at, locked);
    forall s ensures s in due <==> s in db.settlements && s !in locked && Ready(db.settlements[s], at) {
    }
  }

  /** A claim writes two columns of the picked rows: the lease, and one more attempt. */
  lemma ClaimWrites(db: Db, picked: set<SettlementId>, until: Time)
    ensures var next := ClaimSettlements(db, picked, until);
      && next == db.(settlements := next.settlements) && next.settlements.Keys == db.settlements.Keys
      && forall s :: s in db.settlements ==>
           var a, b := db.settlements[s], next.settlements[s];
           if s in picked then b.leaseUntil == Some(until) && b.claimCount == a.claimCount + 1
             && b == a.(leaseUntil := b.leaseUntil, claimCount := b.claimCount)
           else b == a
  {
  }

  /* ---------- deliveries ---------- */

  /** The merchant sees exactly the deliveries of its own quotes' receipted settlements. */
  predicate Theirs(db: Db, s: SettlementId, merchantId: string) {
    && s in db.settlements && s in db.receipts && s in db.deliveries
    && var q := db.settlements[s].payment.quoteId;
    q in db.quotes && db.quotes[q].terms.merchantId == merchantId
  }

  lemma DeliveryClaimed(db: Db, s: SettlementId, merchantId: string, at: Time)
    ensures var out := ClaimDelivery(db, s, merchantId, at);
      if !Theirs(db, s, merchantId) || db.deliveries[s].status == DeliveryFailed then out == Rollback(DeliveryNotFound)
      else if db.deliveries[s].status == DeliveryExpired then out == Rollback(DeliveryWindowExpired)
      else
        && out.Commit? && out.db == db.(deliveries := db.deliveries[s := out.value.delivery])
        && out.value == DeliveryRecord(s, out.value.delivery, db.receipts[s])
        && var a, b := db.deliveries[s], out.value.delivery;
        if a.status in {Delivering, Delivered} then b == a
        else if a.retryExpiresAt < at then b == a.(status := DeliveryExpired)
        else b == a.(status := Delivering, attemptCount := a.attemptCount + 1,
                     startedAt := if a.startedAt.Some? then a.startedAt else Some(at))
  {
    if Theirs(db, s, merchantId) {
      assert db.deliveries[s := db.deliveries[s]] == db.deliveries;
    }
  }

  lemma DeliveryCompleted(db: Db, s: SettlementId, merchantId: string, digest: Hash, at: Time)
    ensures var out := CompleteDelivery(db, s, merchantId, digest, at);
      if !Theirs(db, s, merchantId) then out == Rollback(DeliveryNotFound)
      else match db.deliveries[s].status
        case Delivering =>
          var done := Delivery(db.deliveries[s].deliveryId, db.deliveries[s].requestDigest, Delivered,
              db.deliveries[s].attemptCount, db.deliveries[s].startedAt, Some(at), Some(digest),
              db.deliveries[s].retryExpiresAt);
          out == Commit(db.(deliveries := db.deliveries[s := done]), DeliveryRecord(s, done, db.receipts[s]))
        case Delivered =>
          out == if db.deliveries[s].responseDigest == Some(digest)
                 then Commit(db, DeliveryRecord(s, db.deliveries[s], db.receipts[s]))
                     else Rollback(DeliveryDigestConflict)
        case _ => out == Rollback(DeliveryNotClaimed)
  {
  }
}
