/**
 * The settlement ledger as a value: one field per SQL table, and one function per
 * transaction of PostgresDatabase. A transaction either commits a new ledger or rolls back.
 * Receipts and deliveries are indexed by their UNIQUE settlement_id column.
 */
module Ledger {
  import opened Basics

  type Time = nat
  type QuoteId = string
  type SettlementId = string

  const MAX_QUOTE_LIFETIME_MS: nat := 300000

  datatype QuoteStatus = Issued | Reserved | Consumed

  datatype QuoteTerms = QuoteTerms(
    merchantId: string,
    audience: string,
    requestMethod: string,
    canonicalUrl: string,
    bodyHash: string,
    network: string,
    assetId: string,
    amountAtomic: nat,
    payTo: string,
    fingerprint: string,
    signedTokenHash: string,
    issuedAt: Time,
    expiresAt: Time)

  datatype Quote = Quote(terms: QuoteTerms, status: QuoteStatus)

  datatype Status = Validated | Broadcast | Pending | Confirmed | Failed | Dropped

  type AttemptStatus = s: Status | s == Broadcast || s == Pending || s == Failed witness Broadcast
  type TerminalStatus = s: Status | s == Failed || s == Dropped witness Failed

  /** The columns of a settlement row that no statement ever updates. */
  datatype Payment = Payment(quoteId: QuoteId, network: string, txid: string, payer: string, rawTxHash: string)

  datatype Confirmation = Confirmation(at: Time, blockHeight: nat, blockHash: string)

  datatype Settlement = Settlement(
    payment: Payment,
    createdAt: Time,
    status: Status,
    failureReason: Option<string>,
    attemptedAt: Option<Time>,
    broadcastAt: Option<Time>,
    confirmation: Option<Confirmation>,
    lastCheckedAt: Option<Time>,
    reconcileAfter: Time,
    leaseUntil: Option<Time>,
    claimCount: nat)

  /** The signed statement of a confirmed payment. Signing and hashing are constructors: injective. */
  datatype SettlementReceipt = SettlementReceipt(
    receiptId: string,
    settlementId: SettlementId,
    quoteId: QuoteId,
    merchantId: string,
    network: string,
    asset: string,
    amount: nat,
    payTo: string,
    payer: string,
    txid: string,
    blockHeight: nat,
    blockHash: string,
    confirmations: nat,
    confirmedAt: Time)

  datatype SignedToken = SignedToken(keyId: string, merchantId: string, audience: string, receiptId: string,
    issuedAtSeconds: nat, receipt: SettlementReceipt)

  /** The body a resource server returns for one confirmed settlement; the two protocols describe the payment
      differently. */
  datatype CapabilityReport =
    | X402Report(network: string, settlementId: SettlementId, transaction: string, payer: string, receipt: SignedToken,
        facilitator: string)
    | MppReport(network: string, settlementId: SettlementId, transaction: string, payer: string, receipt: SignedToken,
        facilitator: string)

  datatype Hash =
    | PayloadHash(payload: SettlementReceipt)
    | TokenHash(token: SignedToken)
    | RequestHash(requestMethod: string, url: string, bodyHash: string)
    | ReportHash(report: CapabilityReport)

  datatype ReceiptRecord = ReceiptRecord(
    receiptId: string,
    settlementId: SettlementId,
    keyId: string,
    payloadHash: Hash,
    tokenHash: Hash,
    signedToken: SignedToken,
    issuedAt: Time)

  datatype DeliveryStatus = DeliveryPending | Delivering | Delivered | DeliveryFailed | DeliveryExpired

  datatype Delivery = Delivery(
    deliveryId: string,
    requestDigest: Hash,
    status: DeliveryStatus,
    attemptCount: nat,
    startedAt: Option<Time>,
    completedAt: Option<Time>,
    responseDigest: Option<Hash>,
    retryExpiresAt: Time)

  datatype ConfirmationMetadata = ConfirmationMetadata(blockHeight: nat, blockHash: string, confirmations: nat,
      receiptId: string)

  datatype Transition = Transition(
    settlementId: SettlementId,
    from: Option<Status>,
    to: Status,
    reason: Option<string>,
    metadata: Option<ConfirmationMetadata>)

  datatype Db = Db(
    quotes: map<QuoteId, Quote>,
    settlements: map<SettlementId, Settlement>,
    log: seq<Transition>,
    receipts: map<SettlementId, ReceiptRecord>,
    deliveries: map<SettlementId, Delivery>)

  const EMPTY_DB := Db(map[], map[], [], map[], map[])

  datatype StoreError =
    | QuoteRejected
    | QuoteUnavailable
    | PaymentReplayed
    | TransitionNotApplied
    | LeaseCheckViolated
    | SettlementMissing
    | UniqueViolated
    | DeliveryNotFound
    | DeliveryWindowExpired
    | DeliveryNotClaimed
    | DeliveryDigestConflict

  /** COMMIT with the new tables and the rows returned, or ROLLBACK leaving the tables alone. */
  datatype Outcome<+T> = Commit(db: Db, value: T) | Rollback(error: StoreError)
  {
    function After(before: Db): Db {
      if Commit? then db else before
    }
  }

  /** A settlement row joined with its receipt and delivery rows. */
  datatype SettlementRecord = SettlementRecord(
    settlementId: SettlementId,
    row: Settlement,
    receipt: Option<ReceiptRecord>,
    delivery: Option<Delivery>)

  datatype DeliveryRecord = DeliveryRecord(settlementId: SettlementId, delivery: Delivery, receipt: ReceiptRecord)

  datatype Reservation = Reservation(settlementId: SettlementId, merchantId: string, payment: Payment,
    expectedSignedTokenHash: string)

  datatype ReserveResult = ReserveResult(created: bool, settlement: SettlementRecord)

  datatype Observed =
    | StillPending(settlementId: SettlementId, checkedAt: Time, retryAt: Time, reason: string)
    | Ended(settlementId: SettlementId, checkedAt: Time, status: TerminalStatus, reason: string)
    | Settled(settlementId: SettlementId, checkedAt: Time, blockHeight: nat, blockHash: string, confirmations: nat,
        receipt: ReceiptRecord, deliveryId: string, requestDigest: Hash, deliveryRetryExpiresAt: Time)

  predicate Active(s: Status) {
    s == Validated || s == Broadcast || s == Pending
  }

  function Lookup<V>(m: map<SettlementId, V>, s: SettlementId): Option<V> {
    if s in m then Some(m[s]) else None
  }

  function Select(db: Db, s: SettlementId): SettlementRecord
    requires s in db.settlements
  {
    SettlementRecord(s, db.settlements[s], Lookup(db.receipts, s), Lookup(db.deliveries, s))
  }

  /* ---------- INSERT INTO quotes ---------- */

  predicate QuoteInsertable(db: Db, q: QuoteId, terms: QuoteTerms) {
    && q !in db.quotes
    && (forall k :: k in db.quotes ==> db.quotes[k].terms.fingerprint != terms.fingerprint)
    && (forall k :: k in db.quotes ==> db.quotes[k].terms.signedTokenHash != terms.signedTokenHash)
    && terms.amountAtomic > 0
    && terms.issuedAt < terms.expiresAt <= terms.issuedAt + MAX_QUOTE_LIFETIME_MS
  }

  function InsertIssuedQuote(db: Db, q: QuoteId, terms: QuoteTerms): Outcome<()> {
    if QuoteInsertable(db, q, terms) then
      Commit(db.(quotes := db.quotes[q := Quote(terms, Issued)]), ())
    else
      Rollback(QuoteRejected)
  }

  /* ---------- reserveSettlement ---------- */

  predicate SettlementFor(db: Db, q: QuoteId, s: SettlementId) {
    s in db.settlements && db.settlements[s].payment.quoteId == q
  }

  predicate TxidTaken(db: Db, network: string, txid: string) {
    exists s ::
        s in db.settlements && db.settlements[s].payment.network == network && db.settlements[s].payment.txid == txid
  }

  predicate QuoteLocked(db: Db, r: Reservation) {
    && r.payment.quoteId in db.quotes
    && db.quotes[r.payment.quoteId].terms.merchantId == r.merchantId
    && db.quotes[r.payment.quoteId].terms.signedTokenHash == r.expectedSignedTokenHash
  }

  function NewSettlement(payment: Payment, now: Time): Settlement {
    Settlement(payment, now, Validated, None, None, None, None, None, now, None, 0)
  }

  function InsertSettlement(db: Db, s: SettlementId, payment: Payment, now: Time): Db
    requires payment.quoteId in db.quotes
  {
    var q := payment.quoteId;
    db.(quotes := db.quotes[q := db.quotes[q].(status := Reserved)],
        settlements := db.settlements[s := NewSettlement(payment, now)],
        log := db.log + [Transition(s, None, Validated, Some("payment_verified"), None)])
  }

  ghost function ReserveSettlement(db: Db, r: Reservation, now: Time): Outcome<ReserveResult> {
    var q := r.payment.quoteId;
    if !QuoteLocked(db, r) then
      Rollback(QuoteUnavailable)
    else if exists s :: SettlementFor(db, q, s) then
      var s :| SettlementFor(db, q, s);
      var stored := db.settlements[s].payment;
      if stored.txid != r.payment.txid || stored.rawTxHash != r.payment.rawTxHash then
        Rollback(PaymentReplayed)
      else
        Commit(db, ReserveResult(false, Select(db, s)))
    else if db.quotes[q].status != Issued || db.quotes[q].terms.expiresAt < now then
      Rollback(QuoteUnavailable)
    else if TxidTaken(db, r.payment.network, r.payment.txid) || r.settlementId in db.settlements then
      Rollback(PaymentReplayed)
    else
      var next := InsertSettlement(db, r.settlementId, r.payment, now);
      Commit(next, ReserveResult(true, Select(next, r.settlementId)))
  }

  /* ---------- updateSettlementStatus ---------- */

  function UpdateSettlementStatus(db: Db, s: SettlementId, to: AttemptStatus, reason: Option<string>, attemptedAt: Time)
    : Outcome<SettlementRecord>
  {
    if s !in db.settlements || db.settlements[s].status != Validated then
      Rollback(TransitionNotApplied)
    else if to == Failed && db.settlements[s].leaseUntil.Some? then
      Rollback(LeaseCheckViolated)
    else
      var row := db.settlements[s];
      var next := row.(status := to,
                       failureReason := reason,
                       attemptedAt := Some(attemptedAt),
                       broadcastAt := if to == Broadcast then Some(attemptedAt) else row.broadcastAt);
      var updated := db.(settlements := db.settlements[s := next],
                         log := db.log + [Transition(s, Some(Validated), to, reason, None)]);
      Commit(updated, Select(updated, s))
  }

  /* ---------- claimSettlementsForReconciliation ---------- */

  /** Due for reconciliation at `at`: active, past its retry time, and not under a live lease. */
  predicate Due(row: Settlement, at: Time) {
    && Active(row.status)
    && row.reconcileAfter <= at
    && (row.leaseUntil.Some? ==> row.leaseUntil.value <= at)
  }

  function DueSet(db: Db, at: Time, locked: set<SettlementId>): set<SettlementId> {
    set s | s in db.settlements && s !in locked && Due(db.settlements[s], at)
  }

  /** ORDER BY reconcile_after, created_at. */
  predicate Before(a: Settlement, b: Settlement) {
    a.reconcileAfter < b.reconcileAfter || (a.reconcileAfter == b.reconcileAfter && a.createdAt < b.createdAt)
  }

  /** What ORDER BY ... SKIP LOCKED LIMIT may return; ties may fall either way. */
  ghost predicate IsBatch(db: Db, limit: nat, at: Time, locked: set<SettlementId>, picked: set<SettlementId>) {
    var due := DueSet(db, at, locked);
    && picked <= due
    && |picked| <= limit
    && (|picked| < limit ==> picked == due)
    && (forall p, e :: p in picked && e in due && e !in picked ==> !Before(db.settlements[e], db.settlements[p]))
  }

  function Leased(row: Settlement, until: Time): Settlement {
    row.(leaseUntil := Some(until), claimCount := row.claimCount + 1)
  }

  function ClaimSettlements(db: Db, picked: set<SettlementId>, leaseUntil: Time): Db {
    db.(settlements := map s | s in db.settlements ::
          if s in picked then Leased(db.settlements[s], leaseUntil) else db.settlements[s])
  }

  /* ---------- applyReconciliationResult ---------- */

  function PendingRow(row: Settlement, checkedAt: Time, retryAt: Time, reason: string): Settlement {
    row.(status := Pending,
         failureReason := Some(reason),
         attemptedAt := Coalesce(row.attemptedAt, checkedAt),
         lastCheckedAt := Some(checkedAt),
         reconcileAfter := retryAt,
         leaseUntil := None)
  }

  function EndedRow(row: Settlement, checkedAt: Time, status: TerminalStatus, reason: string): Settlement {
    row.(status := status,
         failureReason := Some(reason),
         attemptedAt := Coalesce(row.attemptedAt, checkedAt),
         lastCheckedAt := Some(checkedAt),
         leaseUntil := None)
  }

  function ConfirmedRow(row: Settlement, checkedAt: Time, blockHeight: nat, blockHash: string): Settlement {
    row.(status := Confirmed,
         failureReason := None,
         attemptedAt := Coalesce(row.attemptedAt, checkedAt),
         confirmation := Some(Confirmation(checkedAt, blockHeight, blockHash)),
         lastCheckedAt := Some(checkedAt),
         leaseUntil := None)
  }

  predicate ReceiptInsertable(db: Db, r: ReceiptRecord) {
    && r.settlementId in db.settlements
    && r.settlementId !in db.receipts
    && (forall k :: k in db.receipts ==>
          && db.receipts[k].receiptId != r.receiptId
          && db.receipts[k].payloadHash != r.payloadHash
          && db.receipts[k].tokenHash != r.tokenHash)
  }

  predicate DeliveryInsertable(db: Db, s: SettlementId, deliveryId: string) {
    && s !in db.deliveries
    && (forall k :: k in db.deliveries ==> db.deliveries[k].deliveryId != deliveryId)
  }

  function NewDelivery(deliveryId: string, requestDigest: Hash, retryExpiresAt: Time): Delivery {
    Delivery(deliveryId, requestDigest, DeliveryPending, 0, None, None, None, retryExpiresAt)
  }

  function AppliedPending(db: Db, o: Observed): Db
    requires o.StillPending? && o.settlementId in db.settlements
  {
    var s := o.settlementId;
    var row := db.settlements[s];
    db.(settlements := db.settlements[s := PendingRow(row, o.checkedAt, o.retryAt, o.reason)],
        log := if row.status != Pending || row.failureReason != Some(o.reason)
               then db.log + [Transition(s, Some(row.status), Pending, Some(o.reason), None)]
               else db.log)
  }

  function AppliedEnded(db: Db, o: Observed): Db
    requires o.Ended? && o.settlementId in db.settlements
  {
    var s := o.settlementId;
    var row := db.settlements[s];
    db.(settlements := db.settlements[s := EndedRow(row, o.checkedAt, o.status, o.reason)],
        log := db.log + [Transition(s, Some(row.status), o.status, Some(o.reason), None)])
  }

  function AppliedSettled(db: Db, o: Observed): Db
    requires o.Settled? && o.settlementId in db.settlements
  {
    var s := o.settlementId;
    var row := db.settlements[s];
    var q := row.payment.quoteId;
    Db(if q in db.quotes then db.quotes[q := db.quotes[q].(status := Consumed)] else db.quotes,
       db.settlements[s := ConfirmedRow(row, o.checkedAt, o.blockHeight, o.blockHash)],
       db.log + [Transition(s, Some(row.status), Confirmed, Some("confirmation_depth_reached"),
                   Some(ConfirmationMetadata(o.blockHeight, o.blockHash, o.confirmations, o.receipt.receiptId)))],
       db.receipts[o.receipt.settlementId := o.receipt],
       db.deliveries[s := NewDelivery(o.deliveryId, o.requestDigest, o.deliveryRetryExpiresAt)])
  }

  function ApplyReconciliationResult(db: Db, o: Observed): Outcome<SettlementRecord> {
    var s := o.settlementId;
    if s !in db.settlements then
      Rollback(SettlementMissing)
    else if !Active(db.settlements[s].status) then
      Commit(db, Select(db, s))
    else if o.Settled? && (!ReceiptInsertable(db, o.receipt) || !DeliveryInsertable(db, s, o.deliveryId)) then
      Rollback(UniqueViolated)
    else
      var next := match o
        case StillPending(_, _, _, _) => AppliedPending(db, o)
        case Ended(_, _, _, _) => AppliedEnded(db, o)
        case Settled(_, _, _, _, _, _, _, _, _) => AppliedSettled(db, o);
      Commit(next, Select(next, s))
  }

  /* ---------- claimDelivery and completeDelivery ---------- */

  /** DELIVERY_SELECT: inner joins with settlement, quote and receipt, restricted to one merchant. */
  predicate DeliveryVisible(db: Db, s: SettlementId, merchantId: string) {
    && s in db.deliveries
    && s in db.settlements
    && s in db.receipts
    && db.settlements[s].payment.quoteId in db.quotes
    && db.quotes[db.settlements[s].payment.quoteId].terms.merchantId == merchantId
  }

  function SetDelivery(db: Db, s: SettlementId, d: Delivery): Db {
    db.(deliveries := db.deliveries[s := d])
  }

  function ClaimDelivery(db: Db, s: SettlementId, merchantId: string, claimedAt: Time): Outcome<DeliveryRecord> {
    if !DeliveryVisible(db, s, merchantId) then
      Rollback(DeliveryNotFound)
    else
      var d := db.deliveries[s];
      if d.status == DeliveryPending then
        var next := if d.retryExpiresAt < claimedAt
                    then d.(status := DeliveryExpired)
                    else d.(status := Delivering, attemptCount := d.attemptCount + 1,
                            startedAt := Coalesce(d.startedAt, claimedAt));
        Commit(SetDelivery(db, s, next), DeliveryRecord(s, next, db.receipts[s]))
      else if d.status == Delivering || d.status == Delivered then
        Commit(db, DeliveryRecord(s, d, db.receipts[s]))
      else
        Rollback(if d.status == DeliveryExpired then DeliveryWindowExpired else DeliveryNotFound)
  }

  function CompleteDelivery(db: Db, s: SettlementId, merchantId: string, digest: Hash, completedAt: Time)
    : Outcome<DeliveryRecord>
  {
    if !DeliveryVisible(db, s, merchantId) then
      Rollback(DeliveryNotFound)
    else
      var d := db.deliveries[s];
      if d.status == Delivered then
        if d.responseDigest != Some(digest) then Rollback(DeliveryDigestConflict)
        else Commit(db, DeliveryRecord(s, d, db.receipts[s]))
      else if d.status != Delivering then
        Rollback(DeliveryNotClaimed)
      else
        var next := d.(status := Delivered, responseDigest := Some(digest), completedAt := Some(completedAt));
        Commit(SetDelivery(db, s, next), DeliveryRecord(s, next, db.receipts[s]))
  }

  /* ---------- histories of transactions ---------- */

  datatype Txn =
    | TxIssue(quoteId: QuoteId, terms: QuoteTerms)
    | TxReserve(reservation: Reservation, now: Time)
    | TxStatus(settlementId: SettlementId, to: AttemptStatus, reason: Option<string>, attemptedAt: Time)
    | TxClaim(limit: nat, claimedAt: Time, leaseUntil: Time, locked: set<SettlementId>, picked: set<SettlementId>)
    | TxApply(observed: Observed)
    | TxClaimDelivery(settlementId: SettlementId, merchantId: string, claimedAt: Time)
    | TxCompleteDelivery(settlementId: SettlementId, merchantId: string, digest: Hash, completedAt: Time)

  ghost function Exec(db: Db, t: Txn): Db {
    match t
    case TxIssue(q, terms) => InsertIssuedQuote(db, q, terms).After(db)
    case TxReserve(r, now) => ReserveSettlement(db, r, now).After(db)
    case TxStatus(s, to, reason, at) => UpdateSettlementStatus(db, s, to, reason, at).After(db)
    case TxClaim(limit, at, until, locked, picked) =>
      if IsBatch(db, limit, at, locked, picked) then ClaimSettlements(db, picked, until) else db
    case TxApply(o) => ApplyReconciliationResult(db, o).After(db)
    case TxClaimDelivery(s, m, at) => ClaimDelivery(db, s, m, at).After(db)
    case TxCompleteDelivery(s, m, digest, at) => CompleteDelivery(db, s, m, digest, at).After(db)
  }

  ghost function ExecAll(db: Db, ts: seq<Txn>): Db
    decreases |ts|
  {
    if ts == [] then db else ExecAll(Exec(db, ts[0]), ts[1..])
  }
}
