/** Chain observation, the result a worker reports for one candidate, and one batch of the worker. */
module Reconciliation {
  import opened Basics
  import opened Ledger
  import opened LedgerInvariants
  import opened LedgerTheorems
  import opened Database

  datatype Config = Config(
    minConfirmations: nat,
    intervalMs: nat,
    leaseMs: nat,
    batchSize: nat,
    deliveryRetryTtlSeconds: nat,
    keyId: string)

  /* ---------- reading the chain API ---------- */

  /** A decoded transaction body: absent fields failed their shape check. Status and hash are lower case. */
  datatype TxBody = TxBody(txId: string, status: string, blockHeight: Option<nat>, blockHash: Option<string>)

  datatype TxResponse = TxUnavailable | TxResponse(httpStatus: nat, body: Option<TxBody>)

  datatype InfoResponse = InfoUnavailable | InfoResponse(httpStatus: nat, tip: Option<nat>)

  datatype Observation =
    | ChainPending(reason: string)
    | ChainTerminal(status: TerminalStatus, reason: string)
    | ChainConfirmed(blockHeight: nat, blockHash: string, confirmations: nat)
    | ChainAmbiguous(reason: string)

  predicate IsHexDigit(c: char) {
    '0' <= c <= '9' || 'a' <= c <= 'f'
  }

  predicate IsTxid(txid: string) {
    && |txid| == 66 && txid[0] == '0' && txid[1] == 'x'
    && forall i :: 2 <= i < 66 ==> IsHexDigit(txid[i])
  }

  predicate StartsWith(s: string, prefix: string) {
    prefix <= s
  }

  function Slice128(s: string): string {
    if |s| <= 128 then s else s[..128]
  }

  function Decimal(n: nat): string {
    var digit := ['0' + (n % 10) as char];
    if n < 10 then digit else Decimal(n / 10) + digit
  }

  predicate HttpOk(status: nat) {
    200 <= status <= 299
  }

  function Observe(txid: string, tx: TxResponse, info: InfoResponse, minConfirmations: nat): Observation {
    if !IsTxid(txid) then ChainAmbiguous("invalid_stored_txid")
    else if tx.TxUnavailable? then ChainAmbiguous("transaction_api_unavailable")
    else if tx.httpStatus == 404 then ChainPending("transaction_not_found")
    else if !HttpOk(tx.httpStatus) then ChainAmbiguous("transaction_api_http_" + Decimal(tx.httpStatus))
    else if tx.body.None? then ChainAmbiguous("invalid_transaction_response")
    else if tx.body.value.txId != txid then ChainAmbiguous("transaction_id_mismatch")
    else
      var status := tx.body.value.status;
      if status == "pending" || status == "mempool" then ChainPending("transaction_pending")
      else if StartsWith(status, "abort") then ChainTerminal(Failed, Slice128(status))
      else if StartsWith(status, "drop") then ChainTerminal(Dropped, Slice128(status))
      else if status == "problematic_skipped" then ChainTerminal(Failed, status)
      else if status != "success" then ChainAmbiguous("unknown_transaction_status")
      else if tx.body.value.blockHeight.None? || tx.body.value.blockHash.None? then
        ChainAmbiguous("invalid_transaction_block")
      else
        ObserveDepth(tx.body.value.blockHeight.value, tx.body.value.blockHash.value, info, minConfirmations)
  }

  function ObserveDepth(height: nat, hash: string, info: InfoResponse, minConfirmations: nat): Observation {
    if info.InfoUnavailable? then ChainAmbiguous("chain_info_unavailable")
    else if !HttpOk(info.httpStatus) then ChainAmbiguous("chain_info_http_" + Decimal(info.httpStatus))
    else if info.tip.None? || info.tip.value < height then ChainAmbiguous("invalid_chain_tip")
    else
      var confirmations := info.tip.value - height + 1;
      if confirmations < minConfirmations then ChainPending("insufficient_confirmations")
      else ChainConfirmed(height, hash, confirmations)
  }

  /** A terminal verdict is read off a successful answer about this very transaction, never off a failed read. */
  lemma TerminalOnlyFromThisTransaction(txid: string, tx: TxResponse, info: InfoResponse, minConfirmations: nat)
    ensures var o := Observe(txid, tx, info, minConfirmations);
      o.ChainTerminal? || o.ChainConfirmed? ==>
        && tx.TxResponse? && HttpOk(tx.httpStatus) && tx.body.Some? && tx.body.value.txId == txid
        && tx.body.value.status != "pending" && tx.body.value.status != "mempool"
        && (o.ChainConfirmed? <==> tx.body.value.status == "success")
  {
    var o := Observe(txid, tx, info, minConfirmations);
    if (o.ChainTerminal? || o.ChainConfirmed?) && tx.body.value.status == "success" {
      assert "success"[0] == 's';
      assert !StartsWith("success", "abort") by { assert "abort"[0] == 'a'; }
      assert !StartsWith("success", "drop") by { assert "drop"[0] == 'd'; }
    }
  }

  /* ---------- what the answers say, field by field ---------- */

  /** 0x and 64 lower-case hexadecimal digits. */
  predicate WellFormedTxid(txid: string) {
    |txid| == 66 && txid[..2] == "0x" && forall i :: 2 <= i < 66 ==> '0' <= txid[i] <= '9' || 'a' <= txid[i] <= 'f'
  }

  predicate Successful(httpStatus: nat) {
    200 <= httpStatus < 300
  }

  /** A successful answer about this very transaction. */
  predicate AnswersAbout(txid: string, tx: TxResponse) {
    WellFormedTxid(txid) && tx.TxResponse? && Successful(tx.httpStatus) && tx.body.Some? && tx.body.value.txId == txid
  }

  predicate Aborted(status: string) {
    (|status| >= 5 && status[..5] == "abort") || status == "problematic_skipped"
  }

  predicate Discarded(status: string) {
    |status| >= 4 && status[..4] == "drop"
  }

  /** A success in a named block. */
  predicate Mined(body: TxBody) {
    body.status == "success" && body.blockHeight.Some? && body.blockHash.Some?
  }

  /** The tip is no lower than the block. */
  predicate TipKnown(info: InfoResponse, height: nat) {
    info.InfoResponse? && Successful(info.httpStatus) && info.tip.Some? && height <= info.tip.value
  }

  predicate DeepEnough(body: TxBody, info: InfoResponse, minConfirmations: nat) {
    && Mined(body) && TipKnown(info, body.blockHeight.value)
    && body.blockHeight.value + minConfirmations <= info.tip.value + 1
  }

  lemma SuccessIsNeither()
    ensures !Aborted("success") && !Discarded("success")
    ensures !StartsWith("success", "abort") && !StartsWith("success", "drop")
  {
    assert "success"[0] == 's' && "abort"[0] == 'a' && "drop"[0] == 'd' && "problematic_skipped"[0] == 'p';
    assert |"success"| == 7;
    assert "success"[..5][0] == 's' && "success"[..4][0] == 's';
  }

  lemma PrefixIs(status: string)
    ensures StartsWith(status, "abort") <==> |status| >= 5 && status[..5] == "abort"
    ensures StartsWith(status, "drop") <==> |status| >= 4 && status[..4] == "drop"
    ensures !(StartsWith(status, "abort") && StartsWith(status, "drop"))
    ensures status == "problematic_skipped" ==> !StartsWith(status, "abort") && !StartsWith(status, "drop")
    ensures status == "pending" || status == "mempool" ==> !Aborted(status) && !Discarded(status)
  {
    assert "abort"[0] == 'a' && "drop"[0] == 'd' && "problematic_skipped"[0] == 'p' && "pending"[0] == 'p'
        && "mempool"[0] == 'm';
    if |status| >= 5 && status[..5] == "abort" {
      assert status[0] == status[..5][0];
    }
    if |status| >= 4 && status[..4] == "drop" {
      assert status[0] == status[..4][0];
    }
    if status == "pending" {
      assert status != "problematic_skipped" by { assert |"problematic_skipped"| != |"pending"|; }
    }
    if status == "mempool" {
      assert status != "problematic_skipped" by { assert |"problematic_skipped"| != |"mempool"|; }
    }
  }

  /** Which verdict the answers give: terminal exactly when this transaction was aborted, skipped or dropped, confirmed
      exactly when it is in a block deep enough, and otherwise none. */
  lemma VerdictIff(txid: string, tx: TxResponse, info: InfoResponse, minConfirmations: nat)
    ensures var o := Observe(txid, tx, info, minConfirmations);
      && (o.ChainTerminal? && o.status == Failed <==> AnswersAbout(txid, tx) && Aborted(tx.body.value.status))
      && (o.ChainTerminal? && o.status == Dropped <==> AnswersAbout(txid, tx) && Discarded(tx.body.value.status))
      && (o.ChainTerminal? ==> o.reason == tx.body.value.status[..Min(128, |tx.body.value.status|)])
      && (o.ChainConfirmed? <==> AnswersAbout(txid, tx) && DeepEnough(tx.body.value, info, minConfirmations))
      && (o.ChainConfirmed? ==>
            && Some(o.blockHeight) == tx.body.value.blockHeight && Some(o.blockHash) == tx.body.value.blockHash
            && o.blockHeight + o.confirmations == info.tip.value + 1)
  {
    SuccessIsNeither();
    if AnswersAbout(txid, tx) {
      PrefixIs(tx.body.value.status);
    }
  }

  /** Why there is no verdict, one reason for each way to end without one. */
  lemma NoVerdictReasons(txid: string, tx: TxResponse, info: InfoResponse, minConfirmations: nat)
    ensures var o, named := Observe(txid, tx, info, minConfirmations), WellFormedTxid(txid);
      && (!named ==> o == ChainAmbiguous("invalid_stored_txid"))
      && (named && tx.TxUnavailable? ==> o == ChainAmbiguous("transaction_api_unavailable"))
      && (named && tx.TxResponse? ==>
            && (tx.httpStatus == 404 ==> o == ChainPending("transaction_not_found"))
            && (tx.httpStatus != 404 && !Successful(tx.httpStatus) ==>
               o == ChainAmbiguous("transaction_api_http_" + Decimal(tx.httpStatus)))
            && (Successful(tx.httpStatus) && tx.body.None? ==> o == ChainAmbiguous("invalid_transaction_response"))
            && (Successful(tx.httpStatus) && tx.body.Some? && tx.body.value.txId != txid ==>
               o == ChainAmbiguous("transaction_id_mismatch")))
    ensures AnswersAbout(txid, tx) ==>
              var o, body := Observe(txid, tx, info, minConfirmations), tx.body.value;
              && (body.status == "pending" || body.status == "mempool" ==> o == ChainPending("transaction_pending"))
              && (body.status == "success" && !Mined(body) ==> o == ChainAmbiguous("invalid_transaction_block"))
              && (Mined(body) && !TipKnown(info, body.blockHeight.value) ==>
                 o == ChainAmbiguous(if info.InfoUnavailable? then "chain_info_unavailable"
                                     else if !Successful(info.httpStatus)
                                         then "chain_info_http_" + Decimal(info.httpStatus)
                                     else "invalid_chain_tip"))
              && (Mined(body) && TipKnown(info, body.blockHeight.value) && !DeepEnough(body, info, minConfirmations) ==>
                 o == ChainPending("insufficient_confirmations"))
              && (body.status !in {"pending", "mempool", "success"} && !Aborted(body.status) && !Discarded(body.status)
                  ==> o == ChainAmbiguous("unknown_transaction_status"))
  {
    SuccessIsNeither();
    if AnswersAbout(txid, tx) {
      PrefixIs(tx.body.value.status);
    }
  }

  function DecimalValue(digits: string): nat
    requires forall i :: 0 <= i < |digits| ==> '0' <= digits[i] <= '9'
  {
    if digits == [] then 0
    else 10 * DecimalValue(digits[..|digits| - 1]) + (digits[|digits| - 1] as nat - '0' as nat)
  }

  /** Decimal digits read back as the number, without leading zeros. */
  lemma {:induction false} DecimalReadsBack(n: nat)
    ensures Decimal(n) != [] && forall i :: 0 <= i < |Decimal(n)| ==> '0' <= Decimal(n)[i] <= '9'
    ensures DecimalValue(Decimal(n)) == n && (n > 0 ==> Decimal(n)[0] != '0')
  {
    if n >= 10 {
      DecimalReadsBack(n / 10);
      assert Decimal(n)[..|Decimal(n)| - 1] == Decimal(n / 10);
    } else {
      assert Decimal(n)[..0] == [];
    }
  }

  /* ---------- what a worker writes ---------- */

  function RequestDigest(c: Candidate): Hash {
    RequestHash(c.terms.requestMethod, c.terms.canonicalUrl, c.terms.bodyHash)
  }

  function ReceiptFor(cfg: Config, c: Candidate, checkedAt: Time, height: nat, hash: string,
      confirmations: nat): ReceiptRecord
    requires |c.settlementId| >= 3
  {
    var receiptId := DeterministicId("nr", c.settlementId);
    var payload := SettlementReceipt(receiptId, c.settlementId, c.payment.quoteId, c.terms.merchantId,
        c.payment.network, c.terms.assetId, c.terms.amountAtomic, c.terms.payTo, c.payment.payer, c.payment.txid,
        height, hash, confirmations, checkedAt);
    var token := SignedToken(cfg.keyId, c.terms.merchantId, c.terms.audience, receiptId, checkedAt / 1000, payload);
    ReceiptRecord(receiptId, c.settlementId, cfg.keyId, PayloadHash(payload), TokenHash(token), token, checkedAt)
  }

  /** The result reconcileCandidate hands to the store for one observation. */
  function Report(cfg: Config, c: Candidate, checkedAt: Time, o: Observation): Observed
    requires |c.settlementId| >= 3
  {
    match o
    case ChainPending(reason) => StillPending(c.settlementId, checkedAt, checkedAt + cfg.intervalMs, reason)
    case ChainAmbiguous(reason) => StillPending(c.settlementId, checkedAt, checkedAt + cfg.intervalMs, reason)
    case ChainTerminal(status, reason) => Ended(c.settlementId, checkedAt, status, reason)
    case ChainConfirmed(height, hash, confirmations) =>
      Settled(c.settlementId, checkedAt, height, hash, confirmations,
        ReceiptFor(cfg, c, checkedAt, height, hash, confirmations),
        DeterministicId("nd", c.settlementId), RequestDigest(c), checkedAt + cfg.deliveryRetryTtlSeconds * 1000)
  }

  /* ---------- what the answers make of a settlement ---------- */

  /** How a settlement's row looks once these answers, read at `checkedAt`, have been applied to it. */
  ghost predicate RowFollows(before: Settlement, after: Settlement, cfg: Config, checkedAt: Time, tx: TxResponse,
      info: InfoResponse)
  {
    var about := AnswersAbout(before.payment.txid, tx);
    && (after.status == Failed <==> about && Aborted(tx.body.value.status))
    && (after.status == Dropped <==> about && Discarded(tx.body.value.status))
    && (after.status == Confirmed <==> about && DeepEnough(tx.body.value, info, cfg.minConfirmations))
    && (after.status == Failed || after.status == Dropped ==>
          after.failureReason == Some(tx.body.value.status[..Min(128, |tx.body.value.status|)]))
    && (after.status == Confirmed ==>
          && after.failureReason.None?
          && after.confirmation == Some(Confirmation(checkedAt, tx.body.value.blockHeight.value,
             tx.body.value.blockHash.value)))
    && (after.status !in {Failed, Dropped, Confirmed} ==>
          after.status == Pending && after.failureReason.Some? && after.reconcileAfter == checkedAt + cfg.intervalMs)
    && (after.status != Confirmed ==> after.confirmation == before.confirmation)
    && (after.status != Pending ==> after.reconcileAfter == before.reconcileAfter)
    && after.attemptedAt == (if before.attemptedAt.Some? then before.attemptedAt else Some(checkedAt))
    && after.lastCheckedAt == Some(checkedAt) && after.leaseUntil.None?
    && after.payment == before.payment && after.createdAt == before.createdAt
    && after.broadcastAt == before.broadcastAt && after.claimCount == before.claimCount
  }

  /** The receipt states the payment, the quote's terms, the block and the reading, and is signed for the quote's
      audience. */
  ghost predicate ReceiptReads(r: ReceiptRecord, cfg: Config, s: SettlementId, payment: Payment, terms: QuoteTerms,
      checkedAt: Time, block: Confirmation, confirmations: nat)
    requires |s| >= 3
  {
    var p := r.signedToken.receipt;
    && r.settlementId == p.settlementId == s
    && r.receiptId == p.receiptId == r.signedToken.receiptId == "nr_" + s[3..]
    && r.keyId == r.signedToken.keyId == cfg.keyId
    && r.payloadHash == PayloadHash(p) && r.tokenHash == TokenHash(r.signedToken)
    && r.issuedAt == p.confirmedAt == checkedAt && r.signedToken.issuedAtSeconds == checkedAt / 1000
    && r.signedToken.merchantId == p.merchantId == terms.merchantId && r.signedToken.audience == terms.audience
    && p.quoteId == payment.quoteId && p.network == payment.network && p.txid == payment.txid
    && p.payer == payment.payer
    && p.asset == terms.assetId && p.amount == terms.amountAtomic && p.payTo == terms.payTo
    && p.blockHeight == block.blockHeight && p.blockHash == block.blockHash && p.confirmations == confirmations
  }

  /** A confirmation consumes the quote, and adds this settlement's receipt and one pending delivery; anything else
      leaves the three tables alone. */
  ghost predicate OutcomeFollows(before: Db, after: Db, cfg: Config, s: SettlementId, checkedAt: Time,
      info: InfoResponse)
    requires s in before.settlements && s in after.settlements && |s| >= 3
  {
    var payment, row := before.settlements[s].payment, after.settlements[s];
    if row.status == Confirmed then
      && payment.quoteId in before.quotes && row.confirmation.Some? && info.InfoResponse? && info.tip.Some?
      && row.confirmation.value.blockHeight <= info.tip.value
      && var terms := before.quotes[payment.quoteId].terms;
      && after.quotes == before.quotes[payment.quoteId := Quote(terms, Consumed)]
      && s in after.receipts && after.receipts == before.receipts[s := after.receipts[s]]
      && ReceiptReads(after.receipts[s], cfg, s, payment, terms, checkedAt, row.confirmation.value,
           info.tip.value + 1 - row.confirmation.value.blockHeight)
      && after.deliveries == before.deliveries[s := Delivery("nd_" + s[3..],
           RequestHash(terms.requestMethod, terms.canonicalUrl, terms.bodyHash), DeliveryPending, 0, None, None, None,
           checkedAt + 1000 * cfg.deliveryRetryTtlSeconds)]
    else
      after.quotes == before.quotes && after.receipts == before.receipts && after.deliveries == before.deliveries
  }

  /** The one log entry a change leaves; an observation that changes neither status nor reason leaves none. */
  ghost predicate EntryFollows(before: Db, after: Db, s: SettlementId, info: InfoResponse)
    requires s in before.settlements && s in after.settlements && |s| >= 3
  {
    var a, b := before.settlements[s], after.settlements[s];
    if b.status == Confirmed then
      && b.confirmation.Some? && info.InfoResponse? && info.tip.Some?
      && b.confirmation.value.blockHeight <= info.tip.value
      && var height, hash := b.confirmation.value.blockHeight, b.confirmation.value.blockHash;
      after.log == before.log + [Transition(s, Some(a.status), Confirmed, Some("confirmation_depth_reached"),
          Some(ConfirmationMetadata(height, hash, info.tip.value + 1 - height, "nr_" + s[3..])))]
    else if b.status == a.status && b.failureReason == a.failureReason then after.log == before.log
    else after.log == before.log + [Transition(s, Some(a.status), b.status, b.failureReason, None)]
  }

  /** From the chain's answers to the tables, for every settlement that has not ended; one that has stays as it is. */
  ghost predicate DecidedBy(before: Db, after: Db, cfg: Config, s: SettlementId, checkedAt: Time, tx: TxResponse,
      info: InfoResponse)
    requires s in before.settlements && |s| >= 3
  {
    if before.settlements[s].status in {Confirmed, Failed, Dropped} then after == before
    else
      && s in after.settlements && after.settlements == before.settlements[s := after.settlements[s]]
      && RowFollows(before.settlements[s], after.settlements[s], cfg, checkedAt, tx, info)
      && OutcomeFollows(before, after, cfg, s, checkedAt, info) && EntryFollows(before, after, s, info)
  }

  /** What a candidate says is still what the ledger says, however long ago it was read. */
  ghost predicate CandidateTrue(db: Db, c: Candidate) {
    Loadable(db, c.settlementId) && c == CandidateOf(db, c.settlementId)
  }

  lemma CandidateStaysTrue(db: Db, next: Db, c: Candidate)
    requires Advances(db, next) && CandidateTrue(db, c)
    ensures CandidateTrue(next, c)
  {
  }

  /** Whatever was observed and however stale the candidate, the report is a well-formed input of the store. */
  lemma ReportsAreWellFormed(db: Db, cfg: Config, c: Candidate, checkedAt: Time, o: Observation)
    requires Inv(db) && CandidateTrue(db, c)
    ensures IsSettlementId(c.settlementId)
    ensures WellFormed(db, TxApply(Report(cfg, c, checkedAt, o)))
    ensures Report(cfg, c, checkedAt, o).settlementId == c.settlementId
  {
  }

  /** A well-formed report about a known settlement always commits. */
  lemma ReportsCommit(db: Db, cfg: Config, c: Candidate, checkedAt: Time, o: Observation)
    requires Inv(db) && CandidateTrue(db, c)
    ensures IsSettlementId(c.settlementId)
    ensures ApplyReconciliationResult(db, Report(cfg, c, checkedAt, o)).Commit?
  {
    ReportsAreWellFormed(db, cfg, c, checkedAt, o);
    var r := Report(cfg, c, checkedAt, o);
    if r.Settled? {
      ConfirmationNeverRollsBack(db, r);
    }
  }

  lemma ReportApplied(db: Db, cfg: Config, c: Candidate, checkedAt: Time, o: Observation)
    requires Inv(db) && CandidateTrue(db, c) && Active(db.settlements[c.settlementId].status)
    ensures IsSettlementId(c.settlementId)
    ensures var r := Report(cfg, c, checkedAt, o);
      Exec(db, TxApply(r)) == match r
        case StillPending(_, _, _, _) => AppliedPending(db, r)
        case Ended(_, _, _, _) => AppliedEnded(db, r)
        case Settled(_, _, _, _, _, _, _, _, _) => AppliedSettled(db, r)
  {
    hide Inv, AppliedPending, AppliedEnded, AppliedSettled, Report, CandidateTrue;
    ReportsAreWellFormed(db, cfg, c, checkedAt, o);
    ReportsCommit(db, cfg, c, checkedAt, o);
  }

  lemma EndedIsSame(db: Db, cfg: Config, c: Candidate, checkedAt: Time, o: Observation)
    requires Inv(db) && CandidateTrue(db, c) && !Active(db.settlements[c.settlementId].status)
    ensures IsSettlementId(c.settlementId) && Exec(db, TxApply(Report(cfg, c, checkedAt, o))) == db
  {
    ReportsAreWellFormed(db, cfg, c, checkedAt, o);
  }

  lemma IdsSpelled(s: SettlementId)
    requires |s| >= 3
    ensures DeterministicId("nr", s) == "nr_" + s[3..] && DeterministicId("nd", s) == "nd_" + s[3..]
  {
    assert "nr" + "_" == "nr_" && "nd" + "_" == "nd_";
  }

  /** The receipt, the delivery and the consumed quote of a confirming report. */
  lemma ConfirmingReport(db: Db, cfg: Config, c: Candidate, checkedAt: Time, info: InfoResponse, o: Observation)
    requires CandidateTrue(db, c) && |c.settlementId| >= 3 && o.ChainConfirmed? && info.InfoResponse? && info.tip.Some?
    requires o.blockHeight <= info.tip.value && o.blockHeight + o.confirmations == info.tip.value + 1
    ensures OutcomeFollows(db, AppliedSettled(db, Report(cfg, c, checkedAt, o)), cfg, c.settlementId, checkedAt, info)
  {
    IdsSpelled(c.settlementId);
    hide DeterministicId;
  }

  lemma NothingPaid(before: Db, after: Db, cfg: Config, s: SettlementId, checkedAt: Time, info: InfoResponse)
    requires s in before.settlements && s in after.settlements && |s| >= 3 && after.settlements[s].status != Confirmed
    requires after.quotes == before.quotes && after.receipts == before.receipts && after.deliveries == before.deliveries
    ensures OutcomeFollows(before, after, cfg, s, checkedAt, info)
  {
  }

  lemma ReportedOutcome(db: Db, cfg: Config, c: Candidate, checkedAt: Time, tx: TxResponse, info: InfoResponse)
    requires Inv(db) && CandidateTrue(db, c) && Active(db.settlements[c.settlementId].status)
    ensures IsSettlementId(c.settlementId)
    ensures var o := Observe(c.payment.txid, tx, info, cfg.minConfirmations);
      var next := Exec(db, TxApply(Report(cfg, c, checkedAt, o)));
      c.settlementId in next.settlements && OutcomeFollows(db, next, cfg, c.settlementId, checkedAt, info)
  {
    var o := Observe(c.payment.txid, tx, info, cfg.minConfirmations);
    VerdictIff(c.payment.txid, tx, info, cfg.minConfirmations);
    ReportApplied(db, cfg, c, checkedAt, o);
    hide Observe, Inv, AnswersAbout, Aborted, Discarded, Exec, OutcomeFollows;
    if o.ChainConfirmed? {
      ConfirmingReport(db, cfg, c, checkedAt, info, o);
    } else {
      NothingPaid(db, Exec(db, TxApply(Report(cfg, c, checkedAt, o))), cfg, c.settlementId, checkedAt, info);
    }
  }

  function AppliedRow(row: Settlement, r: Observed): Settlement {
    match r
    case StillPending(_, checkedAt, retryAt, reason) => PendingRow(row, checkedAt, retryAt, reason)
    case Ended(_, checkedAt, status, reason) => EndedRow(row, checkedAt, status, reason)
    case Settled(_, checkedAt, height, hash, _, _, _, _, _) => ConfirmedRow(row, checkedAt, height, hash)
  }

  lemma RowOfReport(db: Db, cfg: Config, c: Candidate, checkedAt: Time, o: Observation)
    requires Inv(db) && CandidateTrue(db, c) && Active(db.settlements[c.settlementId].status)
    ensures IsSettlementId(c.settlementId)
    ensures var r, s := Report(cfg, c, checkedAt, o), c.settlementId;
      Exec(db, TxApply(r)).settlements == db.settlements[s := AppliedRow(db.settlements[s], r)]
  {
    ReportApplied(db, cfg, c, checkedAt, o);
    hide Inv, Exec, ReceiptFor, PendingRow, EndedRow, ConfirmedRow;
  }

  lemma RowOfAnswers(before: Settlement, cfg: Config, c: Candidate, checkedAt: Time, tx: TxResponse, info: InfoResponse)
    requires before.payment == c.payment && |c.settlementId| >= 3
    ensures var r := Report(cfg, c, checkedAt, Observe(c.payment.txid, tx, info, cfg.minConfirmations));
      RowFollows(before, AppliedRow(before, r), cfg, checkedAt, tx, info)
  {
    VerdictIff(c.payment.txid, tx, info, cfg.minConfirmations);
    hide Observe, AnswersAbout, Aborted, Discarded, ReceiptFor;
  }

  lemma ReportedRow(db: Db, cfg: Config, c: Candidate, checkedAt: Time, tx: TxResponse, info: InfoResponse)
    requires Inv(db) && CandidateTrue(db, c) && Active(db.settlements[c.settlementId].status)
    ensures IsSettlementId(c.settlementId)
    ensures var o, s := Observe(c.payment.txid, tx, info, cfg.minConfirmations), c.settlementId;
      var next := Exec(db, TxApply(Report(cfg, c, checkedAt, o)));
      && s in next.settlements && next.settlements == db.settlements[s := next.settlements[s]]
      && RowFollows(db.settlements[s], next.settlements[s], cfg, checkedAt, tx, info)
  {
    hide Observe, Inv, Exec, Report, AppliedRow, RowFollows;
    RowOfReport(db, cfg, c, checkedAt, Observe(c.payment.txid, tx, info, cfg.minConfirmations));
    RowOfAnswers(db.settlements[c.settlementId], cfg, c, checkedAt, tx, info);
  }

  lemma ReportedEntry(db: Db, cfg: Config, c: Candidate, checkedAt: Time, tx: TxResponse, info: InfoResponse)
    requires Inv(db) && CandidateTrue(db, c) && Active(db.settlements[c.settlementId].status)
    ensures IsSettlementId(c.settlementId)
    ensures var o := Observe(c.payment.txid, tx, info, cfg.minConfirmations);
      var next := Exec(db, TxApply(Report(cfg, c, checkedAt, o)));
      c.settlementId in next.settlements && EntryFollows(db, next, c.settlementId, info)
  {
    var o := Observe(c.payment.txid, tx, info, cfg.minConfirmations);
    VerdictIff(c.payment.txid, tx, info, cfg.minConfirmations);
    ReportApplied(db, cfg, c, checkedAt, o);
    IdsSpelled(c.settlementId);
    hide Observe, Inv, AnswersAbout, Aborted, Discarded, Exec, EntryFollows, DeterministicId;
    EntryOfReport(db, cfg, c, checkedAt, info, o);
  }

  lemma EntryOfReport(db: Db, cfg: Config, c: Candidate, checkedAt: Time, info: InfoResponse, o: Observation)
    requires CandidateTrue(db, c) && |c.settlementId| >= 3 && Active(db.settlements[c.settlementId].status)
    requires o.ChainConfirmed? ==>
               && info.InfoResponse? && info.tip.Some? && o.blockHeight <= info.tip.value
               && o.blockHeight + o.confirmations == info.tip.value + 1
    ensures var r := Report(cfg, c, checkedAt, o);
      EntryFollows(db, match r
          case StillPending(_, _, _, _) => AppliedPending(db, r)
          case Ended(_, _, _, _) => AppliedEnded(db, r)
          case Settled(_, _, _, _, _, _, _, _, _) => AppliedSettled(db, r), c.settlementId, info)
  {
    IdsSpelled(c.settlementId);
    hide DeterministicId;
  }

  /** Whatever the chain answers, and however stale the candidate, applying the observation makes of the settlement what
      the answers say. */
  lemma AnswersDecideOutcome(db: Db, cfg: Config, c: Candidate, checkedAt: Time, tx: TxResponse, info: InfoResponse)
    requires Inv(db) && CandidateTrue(db, c)
    ensures IsSettlementId(c.settlementId)
    ensures var o := Observe(c.payment.txid, tx, info, cfg.minConfirmations);
      DecidedBy(db, Exec(db, TxApply(Report(cfg, c, checkedAt, o))), cfg, c.settlementId, checkedAt, tx, info)
  {
    var o := Observe(c.payment.txid, tx, info, cfg.minConfirmations);
    hide Observe, Inv, Exec, Report, RowFollows, OutcomeFollows, EntryFollows;
    if Active(db.settlements[c.settlementId].status) {
      ReportedRow(db, cfg, c, checkedAt, tx, info);
      ReportedEntry(db, cfg, c, checkedAt, tx, info);
      ReportedOutcome(db, cfg, c, checkedAt, tx, info);
    } else {
      EndedIsSame(db, cfg, c, checkedAt, o);
    }
  }

  lemma {:induction false} ExecAllAppend(db: Db, ts: seq<Txn>, t: Txn)
    ensures ExecAll(db, ts + [t]) == Exec(ExecAll(db, ts), t)
    decreases |ts|
  {
    if ts == [] {
      assert [] + [t] == [t];
      assert ExecAll(db, [t]) == ExecAll(Exec(db, t), []);
    } else {
      assert (ts + [t])[1..] == ts[1..] + [t];
      ExecAllAppend(Exec(db, ts[0]), ts[1..], t);
    }
  }

  /* ---------- one batch ---------- */

  datatype Counts = Counts(claimed: nat, confirmed: nat, pending: nat, terminal: nat, errors: nat)

  function Bump(c: Counts, status: Status): Counts {
    if status == Confirmed then c.(confirmed := c.confirmed + 1)
    else if status == Failed || status == Dropped then c.(terminal := c.terminal + 1)
    else c.(pending := c.pending + 1)
  }

  /** Outcomes of a sequence of applies: the status each one left its settlement in. */
  ghost function Tally(db: Db, applies: seq<Txn>): Counts {
    if applies == [] then Counts(0, 0, 0, 0, 0)
    else Bump(Tally(db, applies[..|applies| - 1]), StatusOf(ExecAll(db, applies), applies[|applies| - 1]))
  }

  ghost function StatusOf(after: Db, t: Txn): Status {
    if t.TxApply? && t.observed.settlementId in after.settlements
    then after.settlements[t.observed.settlementId].status else Pending
  }

  /** The settlement a history's entry reports on. */
  ghost predicate Reports(t: Txn, s: SettlementId) {
    t.TxApply? && t.observed.settlementId == s
  }

  /** The history's entry reports what some answers of the chain say about this candidate. */
  ghost predicate ReportsAnswers(t: Txn, cfg: Config, c: Candidate) {
    |c.settlementId| >= 3 && exists checkedAt, tx, info ::
      t == TxApply(Report(cfg, c, checkedAt, Observe(c.payment.txid, tx, info, cfg.minConfirmations)))
  }

  ghost predicate ReportsOnOne(t: Txn, cfg: Config, rows: seq<Candidate>, n: nat)
    requires n <= |rows|
  {
    exists i :: 0 <= i < n && Reports(t, rows[i].settlementId) && ReportsAnswers(t, cfg, rows[i])
  }

  /** Each entry reports what some answers say about one of the first n candidates, no two about the same. */
  ghost predicate ReportsOn(applies: seq<Txn>, cfg: Config, rows: seq<Candidate>, n: nat)
    requires n <= |rows|
  {
    && (forall k :: 0 <= k < |applies| ==> applies[k].TxApply? && ReportsOnOne(applies[k], cfg, rows, n))
    && (forall j, k :: 0 <= j < k < |applies| ==>
          applies[j].observed.settlementId != applies[k].observed.settlementId)
  }

  lemma ReportsNext(applies: seq<Txn>, cfg: Config, rows: seq<Candidate>, n: nat, t: Txn)
    requires n < |rows| && ReportsOn(applies, cfg, rows, n)
    requires forall i, j :: 0 <= i < j < |rows| ==> rows[i].settlementId != rows[j].settlementId
    ensures ReportsOn(applies, cfg, rows, n + 1)
    ensures Reports(t, rows[n].settlementId) && ReportsAnswers(t, cfg, rows[n]) ==>
        ReportsOn(applies + [t], cfg, rows, n + 1)
  {
    hide ReportsAnswers;
    forall k | 0 <= k < |applies|
      ensures ReportsOnOne(applies[k], cfg, rows, n + 1)
      ensures applies[k].observed.settlementId != rows[n].settlementId
    {
      var i :| 0 <= i < n && Reports(applies[k], rows[i].settlementId) && ReportsAnswers(applies[k], cfg, rows[i]);
    }
  }

  /** One candidate: the chain is asked about its transaction, and the store applies what the answers say. */
  method ReconcileCandidate(db: PostgresDatabase, cfg: Config, c: Candidate, checkedAt: Time, tx: TxResponse,
      info: InfoResponse)
    returns (status: Status, ghost t: Txn)
    requires db.Valid() && Inv(db.Snapshot()) && CandidateTrue(db.Snapshot(), c)
    modifies db
    ensures db.Valid() && Inv(db.Snapshot())
    ensures IsSettlementId(c.settlementId) && Reports(t, c.settlementId) && ReportsAnswers(t, cfg, c)
    ensures t == TxApply(Report(cfg, c, checkedAt, Observe(c.payment.txid, tx, info, cfg.minConfirmations)))
    ensures db.Snapshot() == Exec(old(db.Snapshot()), t) && Advances(old(db.Snapshot()), db.Snapshot())
    ensures c.settlementId in db.Snapshot().settlements && status == db.Snapshot().settlements[c.settlementId].status
    ensures DecidedBy(old(db.Snapshot()), db.Snapshot(), cfg, c.settlementId, checkedAt, tx, info)
  {
    hide Inv, Advances, Observe, DecidedBy;
    ghost var before := db.Snapshot();
    var o := Observe(c.payment.txid, tx, info, cfg.minConfirmations);
    ReportsAreWellFormed(before, cfg, c, checkedAt, o);
    ReportsCommit(before, cfg, c, checkedAt, o);
    AnswersDecideOutcome(before, cfg, c, checkedAt, tx, info);
    var report := Report(cfg, c, checkedAt, o);
    t := TxApply(report);
    ExecKeepsInv(before, t);
    ExecAdvances(before, t);
    var reply := db.ApplyReconciliationResult(report);
    status := reply.value.row.status;
  }

  lemma NothingYet(db: Db, cfg: Config, rows: seq<Candidate>)
    ensures ReportsOn([], cfg, rows, 0)
    ensures ExecAll(db, []) == db && Tally(db, []) == Counts(0, 0, 0, 0, 0)
  {
  }

  lemma TallyNext(start: Db, applies: seq<Txn>, t: Txn, after: Db, s: SettlementId)
    requires after == Exec(ExecAll(start, applies), t) && Reports(t, s) && s in after.settlements
    ensures ExecAll(start, applies + [t]) == after
    ensures Tally(start, applies + [t]) == Bump(Tally(start, applies), after.settlements[s].status)
  {
    hide Exec;
    ExecAllAppend(start, applies, t);
    assert (applies + [t])[..|applies|] == applies;
  }

  /** The loop over loaded candidates. Chain answers, clock readings and thrown observations are arbitrary. */
  method ReconcileAll(db: PostgresDatabase, cfg: Config, rows: seq<Candidate>)
      returns (counts: Counts, ghost applies: seq<Txn>)
    requires db.Valid() && Inv(db.Snapshot())
    requires forall i :: 0 <= i < |rows| ==> CandidateTrue(db.Snapshot(), rows[i])
    requires forall i, j :: 0 <= i < j < |rows| ==> rows[i].settlementId != rows[j].settlementId
    modifies db
    ensures db.Valid() && Inv(db.Snapshot())
    ensures db.Snapshot() == ExecAll(old(db.Snapshot()), applies)
    ensures counts.claimed == |rows| == counts.confirmed + counts.pending + counts.terminal + counts.errors
    ensures |applies| == |rows| - counts.errors
    ensures counts == Tally(old(db.Snapshot()), applies).(claimed := |rows|, errors := counts.errors)
    ensures ReportsOn(applies, cfg, rows, |rows|)
  {
    hide Inv, PaymentsUnique, Advances, Exec, ExecAll, Tally, StatusOf, ReportsOn, ReportsAnswers, Report, Observe,
        DecidedBy, CandidateTrue, IsSettlementId;
    NothingYet(db.Snapshot(), cfg, rows);
    ghost var start := db.Snapshot();
    applies := [];
    counts := Counts(|rows|, 0, 0, 0, 0);
    var i := 0;
    while i < |rows|
      invariant 0 <= i <= |rows|
      invariant db.Valid() && Inv(db.Snapshot())
      invariant counts.claimed == |rows| && counts.confirmed + counts.pending + counts.terminal + counts.errors == i
      invariant forall j :: i <= j < |rows| ==> CandidateTrue(db.Snapshot(), rows[j])
      invariant db.Snapshot() == ExecAll(start, applies)
      invariant |applies| == i - counts.errors
      invariant counts == Tally(start, applies).(claimed := |rows|, errors := counts.errors)
      invariant ReportsOn(applies, cfg, rows, i)
    {
      var thrown: bool := *;
      if thrown {
        counts := counts.(errors := counts.errors + 1);
        ReportsNext(applies, cfg, rows, i, TxClaim(0, 0, 0, {}, {}));
      } else {
        var checkedAt: Time := *;
        var tx: TxResponse := *;
        var info: InfoResponse := *;
        ghost var before := db.Snapshot();
        var status, t := ReconcileCandidate(db, cfg, rows[i], checkedAt, tx, info);
        TallyNext(start, applies, t, db.Snapshot(), rows[i].settlementId);
        ReportsNext(applies, cfg, rows, i, t);
        applies := applies + [t];
        counts := Bump(counts, status);
        forall j | i + 1 <= j < |rows| ensures CandidateTrue(db.Snapshot(), rows[j]) {
          CandidateStaysTrue(before, db.Snapshot(), rows[j]);
        }
      }
      i := i + 1;
    }
  }

  lemma AllLoadable(db: Db)
    requires Inv(db)
    ensures forall s :: s in db.settlements ==> Loadable(db, s)
  {
  }

  lemma PickedAreKnown(db: Db, limit: nat, at: Time, locked: set<SettlementId>, picked: set<SettlementId>, until: Time)
    requires Inv(db) && IsBatch(db, limit, at, locked, picked)
    ensures var next := ClaimSettlements(db, picked, until);
      Inv(next) && forall s :: s in picked ==> Loadable(next, s)
  {
    ClaimKeepsInv(db, limit, at, until, locked, picked);
    AllLoadable(ClaimSettlements(db, picked, until));
    assert forall s :: s in picked ==> s in DueSet(db, at, locked);
    hide Inv;
  }

  /** One batch is a history of one claim and one apply per candidate that was observed. It never meets a store
      error, and every claimed settlement is counted exactly once. */
  method RunOnce(db: PostgresDatabase, cfg: Config, claimedAt: Time, locked: set<SettlementId>)
    returns (counts: Counts, ghost claim: Txn, ghost applies: seq<Txn>)
    requires db.Valid() && Inv(db.Snapshot())
    modifies db
    ensures db.Valid() && Inv(db.Snapshot())
    ensures counts.claimed == counts.confirmed + counts.pending + counts.terminal + counts.errors <= cfg.batchSize
    ensures claim.TxClaim? && |claim.picked| == counts.claimed && claim.leaseUntil == claimedAt + cfg.leaseMs
    ensures IsBatch(old(db.Snapshot()), cfg.batchSize, claimedAt, locked, claim.picked)
    ensures db.Snapshot() == ExecAll(Exec(old(db.Snapshot()), claim), applies)
    ensures |applies| == counts.claimed - counts.errors
    ensures counts == Tally(Exec(old(db.Snapshot()), claim), applies).(claimed := |claim.picked|,
        errors := counts.errors)
    ensures forall k :: 0 <= k < |applies| ==> applies[k].TxApply? && applies[k].observed.settlementId in claim.picked
    ensures var claimed := Exec(old(db.Snapshot()), claim); forall k :: 0 <= k < |applies| ==>
        var s := applies[k].observed.settlementId;
        Loadable(claimed, s) && ReportsAnswers(applies[k], cfg, CandidateOf(claimed, s))
    ensures forall j, k :: 0 <= j < k < |applies| ==>
              applies[j].observed.settlementId != applies[k].observed.settlementId
  {
    hide Inv, PaymentsUnique, Advances, Report, ReportsAnswers, Observe, ExecAll, Tally, DueSet, ClaimSettlements;
    ghost var start := db.Snapshot();
    var picked := db.ClaimSettlements(cfg.batchSize, claimedAt, claimedAt + cfg.leaseMs, locked);
    claim := TxClaim(cfg.batchSize, claimedAt, claimedAt + cfg.leaseMs, locked, picked);
    PickedAreKnown(start, cfg.batchSize, claimedAt, locked, picked, claimedAt + cfg.leaseMs);
    ghost var claimed := db.Snapshot();
    var rows := db.LoadCandidates(picked);
    counts, applies := ReconcileAll(db, cfg, rows);
    forall k | 0 <= k < |applies|
      ensures applies[k].observed.settlementId in picked
      ensures ReportsAnswers(applies[k], cfg, CandidateOf(claimed, applies[k].observed.settlementId))
    {
      var i :| 0 <= i < |rows| && Reports(applies[k], rows[i].settlementId) && ReportsAnswers(applies[k], cfg, rows[i]);
    }
  }
}
