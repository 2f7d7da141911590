/** Checking a signed quote against its stored row, and settling one verified payment. */
module SettlementService {
  import opened Basics
  import opened Ledger
  import opened LedgerInvariants
  import opened LedgerTheorems
  import opened Database

  /** Claims of a quote token whose signature verified; times in seconds, as signed. */
  datatype VerifiedToken = VerifiedToken(
    merchantId: string,
    audience: string,
    quoteId: QuoteId,
    quoteMerchantId: string,
    requestMethod: string,
    url: string,
    bodySha256: string,
    network: string,
    asset: string,
    amount: nat,
    payTo: string,
    issuedAtSeconds: nat,
    expiresAtSeconds: nat)

  datatype Merchant = Merchant(merchantId: string, allowedAudiences: set<string>)

  datatype QuoteRefusal = InvalidSignedQuote | QuotePolicyMismatch | QuoteRecordMismatch | QuoteNotAvailable

  predicate QuoteMatchesStored(token: VerifiedToken, terms: QuoteTerms, signedTokenHash: string) {
    && terms.signedTokenHash == signedTokenHash
    && terms.audience == token.audience
    && terms.requestMethod == token.requestMethod
    && terms.canonicalUrl == token.url
    && terms.bodyHash == token.bodySha256
    && terms.network == token.network
    && terms.assetId == token.asset
    && terms.amountAtomic == token.amount
    && terms.payTo == token.payTo
    && terms.issuedAt == token.issuedAtSeconds * 1000
    && terms.expiresAt == token.expiresAtSeconds * 1000
  }

  /** None when the quote may be settled. `token` is None when its signature does not verify. */
  function ValidateQuote(db: Db, network: string, merchant: Merchant, token: Option<VerifiedToken>,
      signedTokenHash: string,
      allowReserved: bool, now: Time): Option<QuoteRefusal>
  {
    if token.None? || token.value.expiresAtSeconds <= now / 1000 then Some(InvalidSignedQuote)
    else
      var t := token.value;
      if t.merchantId != merchant.merchantId || t.quoteMerchantId != merchant.merchantId
         || t.audience !in merchant.allowedAudiences || t.network != network
      then Some(QuotePolicyMismatch)
      else if t.quoteId !in db.quotes || db.quotes[t.quoteId].terms.merchantId != merchant.merchantId
         || !QuoteMatchesStored(t, db.quotes[t.quoteId].terms, signedTokenHash)
      then Some(QuoteRecordMismatch)
      else
        var stored := db.quotes[t.quoteId];
        if (stored.status != Issued && !(allowReserved && stored.status == Reserved))
           || (stored.status == Issued && stored.terms.expiresAt < now)
        then Some(QuoteNotAvailable)
        else None
  }

  /** The stored row holds exactly what the token says, for this merchant and this token's hash. */
  predicate HoldsTokensTerms(db: Db, merchant: Merchant, t: VerifiedToken, hash: string) {
    t.quoteId in db.quotes && var stored := db.quotes[t.quoteId].terms;
    stored == QuoteTerms(merchant.merchantId, t.audience, t.requestMethod, t.url, t.bodySha256, t.network, t.asset,
        t.amount, t.payTo, stored.fingerprint, hash, 1000 * t.issuedAtSeconds, 1000 * t.expiresAtSeconds)
  }

  /** Who is refused, and as what. The stored row's own expiry never refuses a token that has not expired, since the two
      are the same moment; only a settled quote is not available. */
  lemma QuoteRefusedIff(db: Db, network: string, merchant: Merchant, token: Option<VerifiedToken>, hash: string,
      allowReserved: bool, now: Time)
    ensures var refusal := ValidateQuote(db, network, merchant, token, hash, allowReserved, now);
      if token.None? || 1000 * token.value.expiresAtSeconds <= now then refusal == Some(InvalidSignedQuote)
      else if {token.value.merchantId, token.value.quoteMerchantId} != {merchant.merchantId}
              || token.value.audience !in merchant.allowedAudiences || token.value.network != network
      then refusal == Some(QuotePolicyMismatch)
      else if !HoldsTokensTerms(db, merchant, token.value, hash) then refusal == Some(QuoteRecordMismatch)
      else match db.quotes[token.value.quoteId].status
        case Issued => refusal == None
        case Reserved => refusal == if allowReserved then None else Some(QuoteNotAvailable)
        case Consumed => refusal == Some(QuoteNotAvailable)
  {
    if token.Some? {
      assert token.value.expiresAtSeconds <= now / 1000 <==> 1000 * token.value.expiresAtSeconds <= now;
      SameForBoth(token.value.merchantId, token.value.quoteMerchantId, merchant.merchantId);
    }
  }

  lemma SameForBoth(a: string, b: string, m: string)
    ensures {a, b} == {m} <==> a == m && b == m
  {
    if {a, b} == {m} {
      assert a in {m} && b in {m};
    }
  }

  /** A quote that validated once can only be unavailable at reservation time because it is unsettled and expired;
      every other refusal is a replay of a different payment. */
  lemma ValidatedQuoteReserves(db: Db, network: string, merchant: Merchant, token: Option<VerifiedToken>, hash: string,
      now: Time,
      ts: seq<Txn>, r: Reservation, later: Time)
    requires ValidateQuote(db, network, merchant, token, hash, true, now) == None
    requires Inv(ExecAll(db, ts))
    requires r.payment.quoteId == token.value.quoteId && r.merchantId == merchant.merchantId
        && r.expectedSignedTokenHash == hash
    ensures var end, out := ExecAll(db, ts), ReserveSettlement(ExecAll(db, ts), r, later);
      && (out == Rollback(QuoteUnavailable) <==>
            !Owned(end.settlements, r.payment.quoteId) && db.quotes[r.payment.quoteId].terms.expiresAt < later)
      && (out.Rollback? && out.error != QuoteUnavailable ==> out.error == PaymentReplayed)
  {
    HistoryAdvances(db, ts);
    var end := ExecAll(db, ts);
    var q := r.payment.quoteId;
    assert QuoteLocked(end, r);
    QuoteStatusMeaning(end, q);
    if Owned(end.settlements, q) {
      var s :| OwnedBy(end.settlements, q, s);
      assert SettlementFor(end, q, s);
    } else {
      assert forall s :: !SettlementFor(end, q, s) by {
        forall s ensures !SettlementFor(end, q, s) {
          assert !OwnedBy(end.settlements, q, s);
        }
      }
    }
  }

  /** Submitting a payment for a quote that already has a settlement: the service answers with that settlement, writing
      nothing, exactly when the quote is still only reserved, its token still verifies, and the payment is the stored
      one. */
  lemma ResubmittedPaymentIsReplayed(db: Db, network: string, merchant: Merchant, token: VerifiedToken, hash: string,
      now: Time,
      r: Reservation, s: SettlementId)
    requires Inv(db) && OwnedBy(db.settlements, r.payment.quoteId, s)
    requires r.payment.quoteId == token.quoteId && r.merchantId == merchant.merchantId
        && r.expectedSignedTokenHash == hash
    requires token.merchantId == token.quoteMerchantId == merchant.merchantId
        && token.audience in merchant.allowedAudiences
    requires token.network == network
    requires db.quotes[token.quoteId].terms.merchantId == merchant.merchantId
    requires QuoteMatchesStored(token, db.quotes[token.quoteId].terms, hash)
    ensures ValidateQuote(db, network, merchant, Some(token), hash, true, now) == None
            && ReserveSettlement(db, r, now) == Commit(db, ReserveResult(false, Select(db, s)))
            <==> db.settlements[s].status != Confirmed
                 && now / 1000 < token.expiresAtSeconds
                 && db.settlements[s].payment.txid == r.payment.txid
                 && db.settlements[s].payment.rawTxHash == r.payment.rawTxHash
  {
    ResubmissionReturnsTheSameSettlement(db, r, s, now);
    SettlementMeaning(db, s);
    QuoteStatusMeaning(db, token.quoteId);
  }

  /* ---------- one settlement ---------- */

  datatype BroadcastResult = Accepted(txid: string) | Rejected(reason: string) | Ambiguous(reason: string)

  /** What the first broadcast attempt is recorded as. */
  function AttemptOf(payment: Payment, result: BroadcastResult): (AttemptStatus, Option<string>) {
    match result
    case Accepted(txid) =>
      if txid == payment.txid then (Broadcast, None) else (Pending, Some("broadcast_txid_mismatch"))
    case Rejected(reason) => (Failed, Some(reason))
    case Ambiguous(reason) => (Pending, Some(reason))
  }

  class Broadcaster {
    /** Every raw transaction ever posted, oldest first, and what the network answered to each. */
    var sent: seq<Payment>
    var answers: seq<BroadcastResult>

    constructor ()
      ensures sent == [] && answers == []
    {
      sent, answers := [], [];
    }

    /** Posts the bytes; the network may accept, reject or answer ambiguously. */
    method Post(payment: Payment) returns (result: BroadcastResult)
      modifies this
      ensures sent == old(sent) + [payment] && answers == old(answers) + [result]
    {
      sent := sent + [payment];
      var accepted: bool := *;
      var rejected: bool := *;
      var text: string := *;
      result := if accepted then Accepted(text) else if rejected then Rejected(text) else Ambiguous(text);
      answers := answers + [result];
    }
  }

  /** The row says what the network answered to its posting: broadcast when it accepted this very transaction, failed
      when it rejected it, and pending, so still active, after anything else. */
  ghost predicate RecordsAnswer(before: Settlement, after: Settlement, answer: BroadcastResult, attemptedAt: Time) {
    && (after.status == Broadcast <==> answer == Accepted(before.payment.txid))
    && (after.status == Failed <==> answer.Rejected?)
    && (after.status == Pending <==> answer.Ambiguous? || (answer.Accepted? && answer.txid != before.payment.txid))
    && after.failureReason == (match answer
         case Accepted(txid) => if txid == before.payment.txid then None else Some("broadcast_txid_mismatch")
         case Rejected(reason) => Some(reason)
         case Ambiguous(reason) => Some(reason))
    && after.attemptedAt == Some(attemptedAt)
    && after.broadcastAt == (if answer == Accepted(before.payment.txid) then Some(attemptedAt) else before.broadcastAt)
    && after == before.(status := after.status, failureReason := after.failureReason, attemptedAt := after.attemptedAt,
                        broadcastAt := after.broadcastAt)
  }

  /** Nothing but this row changed, and one log entry says how. */
  ghost predicate OneMove(before: Db, after: Db, s: SettlementId)
    requires s in before.settlements
  {
    && s in after.settlements && after.settlements == before.settlements[s := after.settlements[s]]
    && after.log == before.log + [Transition(s, Some(before.settlements[s].status), after.settlements[s].status,
         after.settlements[s].failureReason, None)]
    && after.quotes == before.quotes && after.receipts == before.receipts && after.deliveries == before.deliveries
  }

  /** Recording an answer commits unless a worker holds the row and the answer was a rejection. */
  lemma AnswerIsRecorded(db: Db, s: SettlementId, answer: BroadcastResult, attemptedAt: Time)
    requires s in db.settlements && db.settlements[s].status == Validated
    ensures var a := AttemptOf(db.settlements[s].payment, answer);
      var out := UpdateSettlementStatus(db, s, a.0, a.1, attemptedAt);
      && (out.Rollback? <==> answer.Rejected? && db.settlements[s].leaseUntil.Some?)
      && (out.Commit? ==>
            && OneMove(db, out.db, s) && out.value == Select(out.db, s)
            && RecordsAnswer(db.settlements[s], out.db.settlements[s], answer, attemptedAt))
  {
  }

  datatype SettleReply = SettleReturned(record: SettlementRecord, replayed: bool) | SettleThrown(error: StoreError)

  /** settleValidated with nothing running in between: the bytes are posted exactly when this call created the
      reservation, and then the row leaves `validated` for what the network answered to that one attempt. */
  method SettleValidated(db: PostgresDatabase, network: Broadcaster, r: Reservation, reservedAt: Time,
      attemptedAt: Time)
    returns (reply: SettleReply)
    requires db.Valid()
    modifies db, network
    ensures db.Valid()
    ensures var out := ReserveSettlement(old(db.Snapshot()), r, reservedAt);
      && (out.Rollback? ==> db.Snapshot() == old(db.Snapshot()) && reply == SettleThrown(out.error))
      && (out.Commit? && !out.value.created ==>
            db.Snapshot() == old(db.Snapshot()) && reply == SettleReturned(out.value.settlement, true))
      && (if out.Commit? && out.value.created then
            && network.sent == old(network.sent) + [r.payment]
            && |network.answers| == |old(network.answers)| + 1 && old(network.answers) <= network.answers
            && r.settlementId in out.db.settlements && OneMove(out.db, db.Snapshot(), r.settlementId)
            && RecordsAnswer(NewSettlement(r.payment, reservedAt), db.Snapshot().settlements[r.settlementId],
                 network.answers[|old(network.answers)|], attemptedAt)
            && reply == SettleReturned(Select(db.Snapshot(), r.settlementId), false)
          else network.sent == old(network.sent) && network.answers == old(network.answers))
  {
    var reserved := db.ReserveSettlement(r, reservedAt);
    if reserved.Thrown? {
      return SettleThrown(reserved.error);
    }
    if !reserved.value.created {
      return SettleReturned(reserved.value.settlement, true);
    }
    var result := network.Post(r.payment);
    AnswerIsRecorded(db.Snapshot(), r.settlementId, result, attemptedAt);
    hide RecordsAnswer, OneMove;
    var attempt := AttemptOf(r.payment, result);
    var updated := db.UpdateSettlementStatus(reserved.value.settlement.settlementId, attempt.0, attempt.1, attemptedAt);
    reply := SettleReturned(updated.value, false);
  }
}
