/**
 * The whole payment system as one event machine: settle callers, reconciliation workers and resource servers around one
 * ledger and one chain. Each SQL transaction is one event; a process may stop at any await, for good (a crash event) or
 * for as long as the schedule likes. Every choice the outside world makes is part of the event.
 */
module Services {
  import opened Basics
  import opened Ledger
  import opened LedgerInvariants
  import opened Database
  import opened Reconciliation
  import opened Chain
  import opened SettlementService

  /** A resource service, told apart by its protocol and the facilitator it was configured with. */
  datatype Service = X402Service(facilitatorOrigin: string) | MppService(facilitatorOrigin: string)

  datatype Setup = Setup(worker: Reconciliation.Config, network: string, services: set<Service>, reorgDepth: nat)

  datatype SettlePc =
    | Reserving(reservation: Reservation)
    | Broadcasting(settlementId: SettlementId, payment: Payment)
    | Recording(settlementId: SettlementId, payment: Payment, result: BroadcastResult, attemptedAt: Time)
    | SettleFinished

  datatype WorkerPc =
    | Claiming(claimedAt: Time)
    | Loading(ids: set<SettlementId>)
    | Looping(rest: seq<Candidate>)
    | Observing(rest: seq<Candidate>, candidate: Candidate, checkedAt: Time)
    | Applying(rest: seq<Candidate>, report: Observed)

  datatype DeliverPc =
    | ClaimingDelivery(service: Service, record: SettlementRecord, merchantId: string)
    | Completing(service: Service, settlementId: SettlementId, merchantId: string, body: CapabilityReport)
    | Served(service: Service, settlementId: SettlementId, body: CapabilityReport)
    | Refused(service: Service, settlementId: SettlementId, error: StoreError)

  datatype Sent = Sent(settlementId: SettlementId, payment: Payment)

  datatype Sys = Sys(
    db: Db,
    now: Time,
    chain: Blocks,
    settlers: map<nat, SettlePc>,
    sent: seq<Sent>,
    workers: map<nat, WorkerPc>,
    deliverers: map<nat, DeliverPc>)

  datatype Event =
    | Tick(elapsed: nat)
    | ChainMoves(next: Blocks)
    | QuoteIssued(quoteId: QuoteId, terms: QuoteTerms)
    | SettleBegin(c: nat, merchant: Merchant, token: VerifiedToken, tokenHash: string, payment: Payment,
        settlementId: SettlementId)
    | SettleReserve(c: nat)
    | SettleBroadcast(c: nat, result: BroadcastResult)
    | SettleRecord(c: nat)
    | SettleCrash(c: nat)
    | WorkerBegin(w: nat)
    | WorkerClaim(w: nat, locked: set<SettlementId>, picked: set<SettlementId>)
    | WorkerLoad(w: nat, rows: seq<Candidate>)
    | WorkerCheck(w: nat)
    | WorkerObserve(w: nat, tx: TxResponse, info: InfoResponse)
    | WorkerApply(w: nat)
    | WorkerThrow(w: nat)
    | WorkerCrash(w: nat)
    | DeliverBegin(d: nat, service: Service, settlementId: SettlementId, merchantId: string)
    | DeliverClaim(d: nat)
    | DeliverComplete(d: nat)
    | DeliverCrash(d: nat)

  function Initial(chain: Blocks): Sys {
    Sys(EMPTY_DB, 0, chain, map[], [], map[], map[])
  }

  function ReportFor(service: Service, s: SettlementId, payment: Payment, token: SignedToken): CapabilityReport {
    match service
    case X402Service(origin) => X402Report(payment.network, s, payment.txid, payment.payer, token, origin)
    case MppService(origin) => MppReport(payment.network, s, payment.txid, payment.payer, token, origin)
  }

  ghost predicate Enabled(cfg: Setup, s: Sys, e: Event) {
    match e
    case Tick(_) => true
    case ChainMoves(next) => Reorganised(s.chain, next, cfg.reorgDepth)
    case QuoteIssued(_, _) => true
    case SettleBegin(c, merchant, token, hash, payment, sid) =>
      && c !in s.settlers
      && ValidateQuote(s.db, cfg.network, merchant, Some(token), hash, true, s.now) == None
      && payment.quoteId == token.quoteId
      && IsSettlementId(sid)
    case SettleReserve(c) => c in s.settlers && s.settlers[c].Reserving?
    case SettleBroadcast(c, _) => c in s.settlers && s.settlers[c].Broadcasting?
    case SettleRecord(c) => c in s.settlers && s.settlers[c].Recording?
    case SettleCrash(c) => c in s.settlers
    case WorkerBegin(w) => w in s.workers ==> s.workers[w] == Looping([])
    case WorkerClaim(w, locked, picked) =>
      w in s.workers && s.workers[w].Claiming? && IsBatch(s.db, cfg.worker.batchSize, s.workers[w].claimedAt, locked,
          picked)
    case WorkerLoad(w, rows) =>
      w in s.workers && s.workers[w].Loading?
      && (forall i :: 0 <= i < |rows| ==> rows[i].settlementId in s.workers[w].ids && CandidateTrue(s.db, rows[i]))
      && (forall sid :: sid in s.workers[w].ids ==> exists i :: 0 <= i < |rows| && rows[i].settlementId == sid)
      && (forall i, j :: 0 <= i < j < |rows| ==> rows[i].settlementId != rows[j].settlementId)
    case WorkerCheck(w) => w in s.workers && s.workers[w].Looping? && s.workers[w].rest != []
    case WorkerObserve(w, tx, info) =>
      w in s.workers && s.workers[w].Observing? && |s.workers[w].candidate.settlementId| >= 3
      && HonestTx(s.chain, s.workers[w].candidate.payment.txid, tx) && HonestInfo(s.chain, info)
    case WorkerApply(w) => w in s.workers && s.workers[w].Applying?
    case WorkerThrow(w) => w in s.workers && s.workers[w].Observing?
    case WorkerCrash(w) => w in s.workers
    case DeliverBegin(d, service, sid, m) =>
      && d !in s.deliverers && service in cfg.services
      && sid in s.db.settlements
      && s.db.settlements[sid].payment.quoteId in s.db.quotes
      && s.db.quotes[s.db.settlements[sid].payment.quoteId].terms.merchantId == m
      && s.db.settlements[sid].status == Confirmed && sid in s.db.receipts
    case DeliverClaim(d) => d in s.deliverers && s.deliverers[d].ClaimingDelivery?
    case DeliverComplete(d) => d in s.deliverers && s.deliverers[d].Completing?
    case DeliverCrash(d) => d in s.deliverers
  }

  /** The transaction an enabled event runs, if it runs one. */
  ghost function TxnOf(cfg: Setup, s: Sys, e: Event): Option<Txn>
    requires Enabled(cfg, s, e)
  {
    match e
    case QuoteIssued(q, terms) => Some(TxIssue(q, terms))
    case SettleReserve(c) => Some(TxReserve(s.settlers[c].reservation, s.now))
    case SettleRecord(c) =>
      var pc := s.settlers[c];
      var a := AttemptOf(pc.payment, pc.result);
      Some(TxStatus(pc.settlementId, a.0, a.1, pc.attemptedAt))
    case WorkerClaim(w, locked, picked) =>
      var at := s.workers[w].claimedAt;
      Some(TxClaim(cfg.worker.batchSize, at, at + cfg.worker.leaseMs, locked, picked))
    case WorkerApply(w) => Some(TxApply(s.workers[w].report))
    case DeliverClaim(d) =>
      Some(TxClaimDelivery(s.deliverers[d].record.settlementId, s.deliverers[d].merchantId, s.now))
    case DeliverComplete(d) =>
      var pc := s.deliverers[d];
      Some(TxCompleteDelivery(pc.settlementId, pc.merchantId, ReportHash(pc.body), s.now))
    case _ => None
  }

  ghost function NextDb(cfg: Setup, s: Sys, e: Event): Db
    requires Enabled(cfg, s, e)
  {
    if TxnOf(cfg, s, e).Some? then Exec(s.db, TxnOf(cfg, s, e).value) else s.db
  }

  ghost function NextSettler(s: Sys, e: Event): (SettlePc, seq<Sent>)
    requires e.SettleReserve? || e.SettleBroadcast? || e.SettleRecord?
    requires e.c in s.settlers
    requires e.SettleReserve? ==> s.settlers[e.c].Reserving?
    requires e.SettleBroadcast? ==> s.settlers[e.c].Broadcasting?
  {
    match e
    case SettleReserve(c) =>
      var out := ReserveSettlement(s.db, s.settlers[c].reservation, s.now);
      (if out.Commit? && out.value.created
       then Broadcasting(out.value.settlement.settlementId, s.settlers[c].reservation.payment)
       else SettleFinished, s.sent)
    case SettleBroadcast(c, result) =>
      var pc := s.settlers[c];
      (Recording(pc.settlementId, pc.payment, result, s.now), s.sent + [Sent(pc.settlementId, pc.payment)])
    case SettleRecord(c) => (SettleFinished, s.sent)
  }

  ghost function NextDeliverer(s: Sys, e: Event): DeliverPc
    requires e.DeliverClaim? || e.DeliverComplete?
    requires e.d in s.deliverers
    requires e.DeliverClaim? ==> s.deliverers[e.d].ClaimingDelivery?
    requires e.DeliverComplete? ==> s.deliverers[e.d].Completing?
  {
    var pc := s.deliverers[e.d];
    if e.DeliverClaim? then
      var sid := pc.record.settlementId;
      var out := ClaimDelivery(s.db, sid, pc.merchantId, s.now);
      if out.Rollback? then Refused(pc.service, sid, out.error)
      else if out.value.delivery.status == DeliveryExpired then Refused(pc.service, sid, DeliveryWindowExpired)
      else Completing(pc.service, sid, pc.merchantId,
                      ReportFor(pc.service, sid, pc.record.row.payment, out.value.receipt.signedToken))
    else
      var out := CompleteDelivery(s.db, pc.settlementId, pc.merchantId, ReportHash(pc.body), s.now);
      if out.Rollback? then Refused(pc.service, pc.settlementId, out.error)
          else Served(pc.service, pc.settlementId, pc.body)
  }

  /** The effect of an event; an event that is not enabled has none. */
  ghost function Step(cfg: Setup, s: Sys, e: Event): Sys {
    if !Enabled(cfg, s, e) then s
    else
      var db := NextDb(cfg, s, e);
      match e
      case Tick(elapsed) => s.(now := s.now + elapsed)
      case ChainMoves(next) => s.(chain := next)
      case QuoteIssued(_, _) => s.(db := db)
      case SettleBegin(c, merchant, _, hash, payment, sid) =>
        s.(settlers := s.settlers[c := Reserving(Reservation(sid, merchant.merchantId, payment, hash))])
      case SettleReserve(c) => s.(db := db, settlers := s.settlers[c := NextSettler(s, e).0])
      case SettleBroadcast(c, _) => s.(settlers := s.settlers[c := NextSettler(s, e).0], sent := NextSettler(s, e).1)
      case SettleRecord(c) => s.(db := db, settlers := s.settlers[c := SettleFinished])
      case SettleCrash(c) => s.(settlers := s.settlers - {c})
      case WorkerBegin(w) => s.(workers := s.workers[w := Claiming(s.now)])
      case WorkerClaim(w, _, picked) => s.(db := db, workers := s.workers[w := Loading(picked)])
      case WorkerLoad(w, rows) => s.(workers := s.workers[w := Looping(rows)])
      case WorkerCheck(w) =>
        var rest := s.workers[w].rest;
        s.(workers := s.workers[w := Observing(rest[1..], rest[0], s.now)])
      case WorkerObserve(w, tx, info) =>
        var pc := s.workers[w];
        var o := Observe(pc.candidate.payment.txid, tx, info, cfg.worker.minConfirmations);
        s.(workers := s.workers[w := Applying(pc.rest, Report(cfg.worker, pc.candidate, pc.checkedAt, o))])
      case WorkerApply(w) => s.(db := db, workers := s.workers[w := Looping(s.workers[w].rest)])
      case WorkerThrow(w) => s.(workers := s.workers[w := Looping(s.workers[w].rest)])
      case WorkerCrash(w) => s.(workers := s.workers - {w})
      case DeliverBegin(d, service, sid, m) => s.(deliverers := s.deliverers[d := ClaimingDelivery(service,
          Select(s.db, sid), m)])
      case DeliverClaim(d) => s.(db := db, deliverers := s.deliverers[d := NextDeliverer(s, e)])
      case DeliverComplete(d) => s.(db := db, deliverers := s.deliverers[d := NextDeliverer(s, e)])
      case DeliverCrash(d) => s.(deliverers := s.deliverers - {d})
  }

  ghost function Run(cfg: Setup, s: Sys, es: seq<Event>): Sys
    decreases |es|
  {
    if es == [] then s else Run(cfg, Step(cfg, s, es[0]), es[1..])
  }
}
