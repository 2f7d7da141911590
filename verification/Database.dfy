/** The database object: tables as fields, statements in the order the transactions issue them. */
module Database {
  import opened Basics
  import opened Ledger
  import opened LedgerInvariants

  datatype Reply<+T> = Returned(value: T) | Thrown(error: StoreError)

  function ReplyOf<T>(o: Outcome<T>): Reply<T> {
    if o.Commit? then Returned(o.value) else Thrown(o.error)
  }

  /** RECONCILIATION_SELECT: the columns of a settlement and its quote that never change. */
  datatype Candidate = Candidate(settlementId: SettlementId, payment: Payment, terms: QuoteTerms)

  predicate Loadable(db: Db, s: SettlementId) {
    s in db.settlements && db.settlements[s].payment.quoteId in db.quotes
  }

  function CandidateOf(db: Db, s: SettlementId): Candidate
    requires Loadable(db, s)
  {
    Candidate(s, db.settlements[s].payment, db.quotes[db.settlements[s].payment.quoteId].terms)
  }

  /** Some due row is not preceded by any other. */
  lemma EarliestExists(rows: Settlements, due: set<SettlementId>)
    requires due != {} && due <= rows.Keys
    ensures exists s :: s in due && forall e :: e in due ==> !Before(rows[e], rows[s])
    decreases |due|
  {
    var s :| s in due;
    if due == {s} {
      assert forall e :: e in due ==> !Before(rows[e], rows[s]);
    } else {
      var rest := due - {s};
      EarliestExists(rows, rest);
      var r :| r in rest && forall e :: e in rest ==> !Before(rows[e], rows[r]);
      var first := if Before(rows[s], rows[r]) then s else r;
      assert first in due;
      forall e | e in due ensures !Before(rows[e], rows[first]) {
        if e in rest {
          assert !Before(rows[e], rows[r]);
        }
      }
    }
  }

  class PostgresDatabase {
    var quotes: map<QuoteId, Quote>
    var settlements: map<SettlementId, Settlement>
    var log: seq<Transition>
    var receipts: map<SettlementId, ReceiptRecord>
    var deliveries: map<SettlementId, Delivery>

    function Snapshot(): Db
      reads this
    {
      Db(quotes, settlements, log, receipts, deliveries)
    }

    /** The UNIQUE indexes on settlements. */
    ghost predicate Valid()
      reads this
    {
      PaymentsUnique(settlements)
    }

    constructor ()
      ensures Valid() && Snapshot() == EMPTY_DB
    {
      quotes, settlements, log, receipts, deliveries := map[], map[], [], map[], map[];
    }

    method Rollback(begun: Db)
      modifies this
      ensures Snapshot() == begun
    {
      quotes, settlements, log, receipts, deliveries :=
        begun.quotes, begun.settlements, begun.log, begun.receipts, begun.deliveries;
    }

    method InsertIssuedQuote(q: QuoteId, terms: QuoteTerms) returns (reply: Reply<()>)
      modifies this
      ensures var out := Ledger.InsertIssuedQuote(old(Snapshot()), q, terms);
        Snapshot() == out.After(old(Snapshot())) && reply == ReplyOf(out)
    {
      if !QuoteInsertable(Snapshot(), q, terms) {
        return Thrown(QuoteRejected);
      }
      quotes := quotes[q := Quote(terms, Issued)];
      reply := Returned(());
    }

    method ReserveSettlement(r: Reservation, now: Time) returns (reply: Reply<ReserveResult>)
      requires Valid()
      modifies this
      ensures Valid()
      ensures var out := Ledger.ReserveSettlement(old(Snapshot()), r, now);
        Snapshot() == out.After(old(Snapshot())) && reply == ReplyOf(out)
    {
      var q := r.payment.quoteId;
      if q !in quotes || quotes[q].terms.merchantId != r.merchantId
         || quotes[q].terms.signedTokenHash != r.expectedSignedTokenHash
      {
        return Thrown(QuoteUnavailable);
      }
      if s: SettlementId :| s in settlements && settlements[s].payment.quoteId == q {
        assert SettlementFor(Snapshot(), q, s);
        assert forall t :: SettlementFor(Snapshot(), q, t) ==>
            SamePayment(settlements[s].payment, settlements[t].payment);
        if settlements[s].payment.txid != r.payment.txid || settlements[s].payment.rawTxHash != r.payment.rawTxHash {
          return Thrown(PaymentReplayed);
        }
        return Returned(ReserveResult(false, Select(Snapshot(), s)));
      }
      if quotes[q].status != Issued || quotes[q].terms.expiresAt < now {
        return Thrown(QuoteUnavailable);
      }
      if TxidTaken(Snapshot(), r.payment.network, r.payment.txid) || r.settlementId in settlements {
        return Thrown(PaymentReplayed);
      }
      settlements := settlements[r.settlementId := NewSettlement(r.payment, now)];
      log := log + [Transition(r.settlementId, None, Validated, Some("payment_verified"), None)];
      quotes := quotes[q := quotes[q].(status := Reserved)];
      reply := Returned(ReserveResult(true, Select(Snapshot(), r.settlementId)));
    }

    method UpdateSettlementStatus(s: SettlementId, to: AttemptStatus, reason: Option<string>, attemptedAt: Time)
      returns (reply: Reply<SettlementRecord>)
      requires Valid()
      modifies this
      ensures Valid()
      ensures var out := Ledger.UpdateSettlementStatus(old(Snapshot()), s, to, reason, attemptedAt);
        Snapshot() == out.After(old(Snapshot())) && reply == ReplyOf(out)
    {
      if s !in settlements || settlements[s].status != Validated {
        return Thrown(TransitionNotApplied);
      }
      var begun := Snapshot();
      var row := settlements[s];
      settlements := settlements[s := row.(status := to, failureReason := reason, attemptedAt := Some(attemptedAt),
                       broadcastAt := if to == Broadcast then Some(attemptedAt) else row.broadcastAt)];
      if settlements[s].leaseUntil.Some? && !Active(settlements[s].status) {
        Rollback(begun);
        return Thrown(LeaseCheckViolated);
      }
      log := log + [Transition(s, Some(Validated), to, reason, None)];
      reply := Returned(Select(Snapshot(), s));
    }

    /** SELECT ... ORDER BY ... FOR UPDATE SKIP LOCKED LIMIT: rows locked elsewhere are skipped. */
    method SelectBatch(limit: nat, claimedAt: Time, locked: set<SettlementId>) returns (picked: set<SettlementId>)
      ensures IsBatch(Snapshot(), limit, claimedAt, locked, picked)
    {
      var due := DueSet(Snapshot(), claimedAt, locked);
      ghost var all := due;
      picked := {};
      while |picked| < limit && due != {}
        invariant all <= settlements.Keys && picked <= all && due == all - picked
        invariant |picked| <= limit
        invariant forall p, e :: p in picked && e in due ==> !Before(settlements[e], settlements[p])
        decreases |due|
      {
        EarliestExists(settlements, due);
        var s :| s in due && forall e :: e in due ==> !Before(settlements[e], settlements[s]);
        picked, due := picked + {s}, due - {s};
      }
    }

    method ClaimSettlements(limit: nat, claimedAt: Time, leaseUntil: Time, locked: set<SettlementId>)
      returns (picked: set<SettlementId>)
      requires Valid()
      modifies this
      ensures Valid()
      ensures IsBatch(old(Snapshot()), limit, claimedAt, locked, picked)
      ensures Snapshot() == Ledger.ClaimSettlements(old(Snapshot()), picked, leaseUntil)
    {
      picked := SelectBatch(limit, claimedAt, locked);
      settlements := map s | s in settlements ::
        if s in picked then Leased(settlements[s], leaseUntil) else settlements[s];
    }

    /** The second SELECT of a claim: one row per claimed settlement, in no particular order. */
    method LoadCandidates(ids: set<SettlementId>) returns (rows: seq<Candidate>)
      requires forall s :: s in ids ==> Loadable(Snapshot(), s)
      ensures |rows| == |ids|
      ensures forall i :: 0 <= i < |rows| ==>
          rows[i].settlementId in ids && rows[i] == CandidateOf(Snapshot(), rows[i].settlementId)
      ensures forall i, j :: 0 <= i < j < |rows| ==> rows[i].settlementId != rows[j].settlementId
    {
      rows := [];
      var rest := ids;
      while rest != {}
        invariant rest <= ids && |rows| + |rest| == |ids|
        invariant forall i :: 0 <= i < |rows| ==>
            rows[i].settlementId in ids - rest && rows[i] == CandidateOf(Snapshot(), rows[i].settlementId)
        invariant forall i, j :: 0 <= i < j < |rows| ==> rows[i].settlementId != rows[j].settlementId
        decreases |rest|
      {
        var s :| s in rest;
        rows := rows + [CandidateOf(Snapshot(), s)];
        rest := rest - {s};
      }
    }

    method ApplyReconciliationResult(o: Observed) returns (reply: Reply<SettlementRecord>)
      requires Valid()
      modifies this
      ensures Valid()
      ensures var out := Ledger.ApplyReconciliationResult(old(Snapshot()), o);
        Snapshot() == out.After(old(Snapshot())) && reply == ReplyOf(out)
    {
      hide NewDelivery, Select;
      var s := o.settlementId;
      if s !in settlements {
        return Thrown(SettlementMissing);
      }
      if !Active(settlements[s].status) {
        return Returned(Select(Snapshot(), s));
      }
      var begun := Snapshot();
      var row := settlements[s];
      match o {
        case StillPending(_, checkedAt, retryAt, reason) =>
          settlements := settlements[s := PendingRow(row, checkedAt, retryAt, reason)];
          if row.status != Pending || row.failureReason != Some(reason) {
            log := log + [Transition(s, Some(row.status), Pending, Some(reason), None)];
          }
        case Ended(_, checkedAt, status, reason) =>
          settlements := settlements[s := EndedRow(row, checkedAt, status, reason)];
          log := log + [Transition(s, Some(row.status), status, Some(reason), None)];
        case Settled(_, checkedAt, height, hash, confirmations, receipt, deliveryId, digest, retryExpiresAt) =>
          settlements := settlements[s := ConfirmedRow(row, checkedAt, height, hash)];
          if row.payment.quoteId in quotes {
            quotes := quotes[row.payment.quoteId := quotes[row.payment.quoteId].(status := Consumed)];
          }
          if !ReceiptInsertable(Snapshot(), receipt) {
            Rollback(begun);
            return Thrown(UniqueViolated);
          }
          receipts := receipts[receipt.settlementId := receipt];
          if !DeliveryInsertable(Snapshot(), s, deliveryId) {
            Rollback(begun);
            return Thrown(UniqueViolated);
          }
          deliveries := deliveries[s := NewDelivery(deliveryId, digest, retryExpiresAt)];
          log := log + [Transition(s, Some(row.status), Confirmed, Some("confirmation_depth_reached"),
                          Some(ConfirmationMetadata(height, hash, confirmations, receipt.receiptId)))];
      }
      reply := Returned(Select(Snapshot(), s));
    }

    method ClaimDelivery(s: SettlementId, merchantId: string, claimedAt: Time) returns (reply: Reply<DeliveryRecord>)
      modifies `deliveries
      ensures var out := Ledger.ClaimDelivery(old(Snapshot()), s, merchantId, claimedAt);
        Snapshot() == out.After(old(Snapshot())) && reply == ReplyOf(out)
    {
      if !DeliveryVisible(Snapshot(), s, merchantId) {
        return Thrown(DeliveryNotFound);
      }
      var d := deliveries[s];
      if d.status == DeliveryPending && d.retryExpiresAt < claimedAt {
        deliveries := deliveries[s := d.(status := DeliveryExpired)];
      } else if d.status == DeliveryPending {
        deliveries := deliveries[s := d.(status := Delivering, attemptCount := d.attemptCount + 1,
                                    startedAt := Coalesce(d.startedAt, claimedAt))];
      } else if d.status != Delivering && d.status != Delivered {
        return Thrown(if d.status == DeliveryExpired then DeliveryWindowExpired else DeliveryNotFound);
      }
      reply := Returned(DeliveryRecord(s, deliveries[s], receipts[s]));
    }

    method CompleteDelivery(s: SettlementId, merchantId: string, digest: Hash, completedAt: Time)
      returns (reply: Reply<DeliveryRecord>)
      modifies `deliveries
      ensures var out := Ledger.CompleteDelivery(old(Snapshot()), s, merchantId, digest, completedAt);
        Snapshot() == out.After(old(Snapshot())) && reply == ReplyOf(out)
    {
      if !DeliveryVisible(Snapshot(), s, merchantId) {
        return Thrown(DeliveryNotFound);
      }
      var d := deliveries[s];
      if d.status == Delivered {
        if d.responseDigest != Some(digest) {
          return Thrown(DeliveryDigestConflict);
        }
        return Returned(DeliveryRecord(s, d, receipts[s]));
      }
      if d.status != Delivering {
        return Thrown(DeliveryNotClaimed);
      }
      deliveries := deliveries[s := d.(status := Delivered, responseDigest := Some(digest),
          completedAt := Some(completedAt))];
      reply := Returned(DeliveryRecord(s, deliveries[s], receipts[s]));
    }
  }
}
