/** What every event of the payment system keeps, and what that means for whole runs. */
module ServiceInvariants {
  import opened Basics
  import opened Ledger
  import opened LedgerInvariants
  import opened LedgerLog
  import opened LedgerTheorems
  import opened Database
  import opened Reconciliation
  import opened Chain
  import opened Services

  /* ---------- settle callers and what they have posted ---------- */

  /** The posting `x` belongs to a committed settlement with that payment. */
  predicate SentReserved(rows: Settlements, x: Sent) {
    x.settlementId in rows && rows[x.settlementId].payment == x.payment
  }

  ghost predicate SentOnce(sent: seq<Sent>) {
    forall i, j :: 0 <= i < |sent| && 0 <= j < |sent| && sent[i].settlementId == sent[j].settlementId ==> i == j
  }

  ghost predicate NotSent(sent: seq<Sent>, s: SettlementId) {
    forall i :: 0 <= i < |sent| ==> sent[i].settlementId != s
  }

  predicate SettlerOk(rows: Settlements, pc: SettlePc) {
    match pc
    case Reserving(r) => IsSettlementId(r.settlementId)
    case Broadcasting(s, p) => s in rows && rows[s].payment == p
    case _ => true
  }

  predicate SameReservation(a: SettlePc, b: SettlePc) {
    a.Broadcasting? && b.Broadcasting? && a.settlementId == b.settlementId
  }

  ghost predicate SettlersOk(rows: Settlements, settlers: map<nat, SettlePc>, sent: seq<Sent>) {
    && (forall c :: c in settlers ==> SettlerOk(rows, settlers[c]))
    && (forall c :: c in settlers && settlers[c].Broadcasting? ==> NotSent(sent, settlers[c].settlementId))
    && (forall c, d :: c in settlers && d in settlers && SameReservation(settlers[c], settlers[d]) ==> c == d)
  }

  ghost predicate PostingsOk(rows: Settlements, sent: seq<Sent>) {
    SentOnce(sent) && forall i :: 0 <= i < |sent| ==> SentReserved(rows, sent[i])
  }

  /* ---------- workers ---------- */

  /** The required confirmations exceed what one reorganisation may replace. */
  predicate Deep(cfg: Setup) {
    Max(cfg.worker.minConfirmations, 1) > cfg.reorgDepth
  }

  predicate Final(cfg: Setup, chain: Blocks, height: nat, hash: string) {
    Deep(cfg) ==> Buried(chain, height, hash, cfg.reorgDepth)
  }

  lemma FinalStays(cfg: Setup, c: Blocks, d: Blocks, height: nat, hash: string)
    requires Reorganised(c, d, cfg.reorgDepth) && Final(cfg, c, height, hash)
    ensures Final(cfg, d, height, hash)
  {
    if Deep(cfg) {
      BuriedStays(c, d, height, hash, cfg.reorgDepth);
    }
  }

  /** The report was built for a settlement of this ledger, and a confirmation names a block beyond reorganisation. */
  ghost predicate ReportOk(db: Db, chain: Blocks, cfg: Setup, o: Observed) {
    o.Settled? ==>
      && o.settlementId in db.settlements
      && SettledWellFormed(db, o)
      && Final(cfg, chain, o.blockHeight, o.blockHash)
  }

  ghost predicate AllTrue(db: Db, rows: seq<Candidate>) {
    forall i :: 0 <= i < |rows| ==> CandidateTrue(db, rows[i])
  }

  ghost predicate WorkerOk(db: Db, chain: Blocks, cfg: Setup, pc: WorkerPc) {
    match pc
    case Claiming(_) => true
    case Loading(ids) => ids <= db.settlements.Keys
    case Looping(rest) => AllTrue(db, rest)
    case Observing(rest, c, _) => AllTrue(db, rest) && CandidateTrue(db, c)
    case Applying(rest, o) => AllTrue(db, rest) && ReportOk(db, chain, cfg, o)
  }

  ghost predicate WorkersOk(db: Db, chain: Blocks, cfg: Setup, workers: map<nat, WorkerPc>) {
    forall w :: w in workers ==> WorkerOk(db, chain, cfg, workers[w])
  }

  ghost predicate ReceiptsCanonical(receipts: Receipts, chain: Blocks, cfg: Setup) {
    forall s :: s in receipts ==>
      Final(cfg, chain, receipts[s].signedToken.receipt.blockHeight, receipts[s].signedToken.receipt.blockHash)
  }

  /* ---------- resource servers ---------- */

  /** The one body a resource service can serve for a settlement. */
  function BodyOf(service: Service, db: Db, s: SettlementId): CapabilityReport
    requires s in db.settlements && s in db.receipts
  {
    ReportFor(service, s, db.settlements[s].payment, db.receipts[s].signedToken)
  }

  /** The body states this settlement's payment and receipt, in the service's protocol and under its name. */
  predicate StatesPayment(body: CapabilityReport, service: Service, db: Db, s: SettlementId) {
    && s in db.settlements && s in db.receipts
    && var payment := db.settlements[s].payment;
    && body.settlementId == s && body.network == payment.network
    && body.transaction == payment.txid && body.payer == payment.payer
    && body.receipt == db.receipts[s].signedToken
    && (body.X402Report? <==> service.X402Service?) && body.facilitator == service.facilitatorOrigin
  }

  predicate Paid(db: Db, s: SettlementId) {
    s in db.settlements && s in db.receipts && s in db.deliveries
  }

  predicate Started(db: Db, s: SettlementId) {
    s in db.deliveries && (db.deliveries[s].status == Delivering || db.deliveries[s].status == Delivered)
  }

  /** The stored digest is that of this service's body. */
  predicate ServedBy(db: Db, s: SettlementId, service: Service) {
    Paid(db, s) && db.deliveries[s].responseDigest == Some(ReportHash(BodyOf(service, db, s)))
  }

  ghost predicate DelivererOk(cfg: Setup, db: Db, pc: DeliverPc) {
    pc.service in cfg.services &&
    match pc
    case ClaimingDelivery(_, record, m) =>
      && Paid(db, record.settlementId)
      && record.row.payment == db.settlements[record.settlementId].payment
      && DeliveryVisible(db, record.settlementId, m)
    case Completing(service, s, m, body) =>
      Paid(db, s) && body == BodyOf(service, db, s) && Started(db, s) && DeliveryVisible(db, s, m)
    case Served(service, s, body) =>
      ServedBy(db, s, service) && body == BodyOf(service, db, s) && db.deliveries[s].status == Delivered
    case Refused(service, s, error) =>
      && Paid(db, s)
      && (if error == DeliveryDigestConflict then db.deliveries[s].status == Delivered && !ServedBy(db, s, service)
          else error == DeliveryWindowExpired && db.deliveries[s].status == DeliveryExpired)
  }

  ghost predicate DeliverersOk(cfg: Setup, db: Db, deliverers: map<nat, DeliverPc>) {
    forall d :: d in deliverers ==> DelivererOk(cfg, db, deliverers[d])
  }

  ghost predicate DigestsOk(cfg: Setup, db: Db) {
    forall s :: s in db.deliveries && db.deliveries[s].status == Delivered ==>
      exists service :: service in cfg.services && ServedBy(db, s, service)
  }

  /* ---------- the invariant ---------- */

  ghost predicate SysInv(cfg: Setup, s: Sys) {
    && Inv(s.db)
    && LogInv(s.db.settlements, s.db.log)
    && PostingsOk(s.db.settlements, s.sent)
    && SettlersOk(s.db.settlements, s.settlers, s.sent)
    && WorkersOk(s.db, s.chain, cfg, s.workers)
    && ReceiptsCanonical(s.db.receipts, s.chain, cfg)
    && DeliverersOk(cfg, s.db, s.deliverers)
    && DigestsOk(cfg, s.db)
  }

  lemma InitialOk(cfg: Setup, chain: Blocks)
    ensures SysInv(cfg, Initial(chain))
  {
    EmptyInv();
    EmptyLog();
  }

  /* ---------- stability: whatever advances the ledger keeps what processes know ---------- */

  lemma PostingsStay(a: Settlements, b: Settlements, sent: seq<Sent>)
    requires RowsAdvance(a, b) && PostingsOk(a, sent)
    ensures PostingsOk(b, sent)
  {
  }

  lemma SettlersStay(a: Settlements, b: Settlements, settlers: map<nat, SettlePc>, sent: seq<Sent>)
    requires RowsAdvance(a, b) && SettlersOk(a, settlers, sent)
    ensures SettlersOk(b, settlers, sent)
  {
  }

  lemma AllStayTrue(a: Db, b: Db, rows: seq<Candidate>)
    requires Advances(a, b) && AllTrue(a, rows)
    ensures AllTrue(b, rows)
  {
    forall i | 0 <= i < |rows| ensures CandidateTrue(b, rows[i]) {
      CandidateStaysTrue(a, b, rows[i]);
    }
  }

  lemma ReportStays(a: Db, b: Db, c: Blocks, d: Blocks, cfg: Setup, o: Observed)
    requires Advances(a, b) && Reorganised(c, d, cfg.reorgDepth) && ReportOk(a, c, cfg, o)
    ensures ReportOk(b, d, cfg, o)
  {
    if o.Settled? {
      WellFormedStays(a, b, o);
      FinalStays(cfg, c, d, o.blockHeight, o.blockHash);
    }
  }

  lemma WorkerStays(a: Db, b: Db, c: Blocks, d: Blocks, cfg: Setup, pc: WorkerPc)
    requires Advances(a, b) && Reorganised(c, d, cfg.reorgDepth) && WorkerOk(a, c, cfg, pc)
    ensures WorkerOk(b, d, cfg, pc)
  {
    hide CandidateTrue, ReportOk, AllTrue;
    match pc
    case Claiming(_) =>
    case Loading(ids) =>
    case Looping(rest) => AllStayTrue(a, b, rest);
    case Observing(rest, x, _) => AllStayTrue(a, b, rest); CandidateStaysTrue(a, b, x);
    case Applying(rest, o) => AllStayTrue(a, b, rest); ReportStays(a, b, c, d, cfg, o);
  }

  lemma WorkersStay(a: Db, b: Db, c: Blocks, d: Blocks, cfg: Setup, workers: map<nat, WorkerPc>)
    requires Advances(a, b) && Reorganised(c, d, cfg.reorgDepth) && WorkersOk(a, c, cfg, workers)
    ensures WorkersOk(b, d, cfg, workers)
  {
    forall w | w in workers ensures WorkerOk(b, d, cfg, workers[w]) {
      WorkerStays(a, b, c, d, cfg, workers[w]);
    }
  }

  lemma CanonicalStays(receipts: Receipts, c: Blocks, d: Blocks, cfg: Setup)
    requires Reorganised(c, d, cfg.reorgDepth) && ReceiptsCanonical(receipts, c, cfg)
    ensures ReceiptsCanonical(receipts, d, cfg)
  {
  }

  lemma DelivererStays(cfg: Setup, a: Db, b: Db, pc: DeliverPc)
    requires Advances(a, b) && DeliveriesOk(a.deliveries) && DeliveriesOk(b.deliveries) && DelivererOk(cfg, a, pc)
    requires forall s :: Started(a, s) ==> Started(b, s)
    ensures DelivererOk(cfg, b, pc)
  {
  }

  lemma StartedStays(db: Db, t: Txn, s: SettlementId)
    requires Started(db, s)
    ensures Started(Exec(db, t), s)
  {
  }

  /* ---------- one event ---------- */

  lemma TxnsAreWellFormed(cfg: Setup, s: Sys, e: Event)
    requires SysInv(cfg, s) && Enabled(cfg, s, e) && TxnOf(cfg, s, e).Some?
    ensures WellFormed(s.db, TxnOf(cfg, s, e).value)
  {
    hide Inv, LogInv, ReceiptsCanonical, DigestsOk, DeliverersOk, PostingsOk;
    match e
    case SettleReserve(c) => assert SettlerOk(s.db.settlements, s.settlers[c]);
    case WorkerApply(w) => assert WorkerOk(s.db, s.chain, cfg, s.workers[w]);
    case _ =>
  }

  lemma ReorganisedReflexive(c: Blocks, cfg: Setup)
    ensures Reorganised(c, c, cfg.reorgDepth)
  {
  }

  /** What an event does to the ledger, the chain and the clock. */
  lemma StepOutside(cfg: Setup, s: Sys, e: Event)
    ensures var n := Step(cfg, s, e);
      && n.db == (if Enabled(cfg, s, e) && TxnOf(cfg, s, e).Some? then Exec(s.db, TxnOf(cfg, s, e).value) else s.db)
      && (n.chain == s.chain || Reorganised(s.chain, n.chain, cfg.reorgDepth))
      && s.now <= n.now
  {
    hide Exec, Reorganised, Report, Observe, NextSettler, NextDeliverer;
  }

  /** An event changes the ledger by one well-formed transaction or not at all, and the chain within its bound. */
  lemma EventMovesForward(cfg: Setup, s: Sys, e: Event)
    requires SysInv(cfg, s)
    ensures var n := Step(cfg, s, e);
      && Inv(n.db) && LogInv(n.db.settlements, n.db.log)
      && Advances(s.db, n.db)
      && Reorganised(s.chain, n.chain, cfg.reorgDepth)
      && (n.db == s.db || (Enabled(cfg, s, e) && TxnOf(cfg, s, e).Some? && n.db == Exec(s.db, TxnOf(cfg, s, e).value)))
      && s.now <= n.now
  {
    hide Inv, LogInv, Advances, Exec, WellFormed, SettlersOk, WorkersOk, DeliverersOk, DigestsOk, ReceiptsCanonical,
        PostingsOk, Step, Enabled, TxnOf, Reorganised;
    StepOutside(cfg, s, e);
    UnchangedAdvances(s.db);
    ReorganisedReflexive(s.chain, cfg);
    if Enabled(cfg, s, e) && TxnOf(cfg, s, e).Some? {
      var t := TxnOf(cfg, s, e).value;
      TxnsAreWellFormed(cfg, s, e);
      ExecKeepsInv(s.db, t);
      ExecKeepsLog(s.db, t);
      ExecAdvances(s.db, t);
    }
  }

  lemma FreshReservation(rows: Settlements, next: Settlements, settlers: map<nat, SettlePc>, sent: seq<Sent>, c: nat,
      sid: SettlementId, p: Payment)
    requires SettlersOk(rows, settlers, sent) && PostingsOk(rows, sent)
    requires sid !in rows && RowsAdvance(rows, next) && sid in next && next[sid].payment == p
    ensures SettlersOk(next, settlers[c := Broadcasting(sid, p)], sent)
  {
    SettlersStay(rows, next, settlers, sent);
    forall i | 0 <= i < |sent| ensures sent[i].settlementId != sid {
      assert SentReserved(rows, sent[i]);
    }
    forall d | d in settlers && settlers[d].Broadcasting? ensures settlers[d].settlementId != sid {
      assert SettlerOk(rows, settlers[d]);
    }
  }

  lemma PostedOnce(rows: Settlements, settlers: map<nat, SettlePc>, sent: seq<Sent>, c: nat, next: SettlePc)
    requires SettlersOk(rows, settlers, sent) && PostingsOk(rows, sent)
    requires c in settlers && settlers[c].Broadcasting? && next.Recording?
    ensures var x := Sent(settlers[c].settlementId, settlers[c].payment);
      SettlersOk(rows, settlers[c := next], sent + [x]) && PostingsOk(rows, sent + [x])
  {
    var x := Sent(settlers[c].settlementId, settlers[c].payment);
    assert SettlerOk(rows, settlers[c]);
    var settlers' := settlers[c := next];
    forall d | d in settlers' && settlers'[d].Broadcasting? ensures NotSent(sent + [x], settlers'[d].settlementId) {
      assert NotSent(sent, settlers[d].settlementId);
      assert !SameReservation(settlers[c], settlers[d]);
    }
  }

  lemma SettlerMoves(rows: Settlements, settlers: map<nat, SettlePc>, sent: seq<Sent>, c: nat, next: SettlePc)
    requires SettlersOk(rows, settlers, sent) && SettlerOk(rows, next) && !next.Broadcasting?
    ensures SettlersOk(rows, settlers[c := next], sent)
  {
  }

  lemma SettlersKept(cfg: Setup, s: Sys, e: Event)
    requires SysInv(cfg, s)
    ensures var n := Step(cfg, s, e);
        SettlersOk(n.db.settlements, n.settlers, n.sent) && PostingsOk(n.db.settlements, n.sent)
  {
    hide Inv, LogInv, WorkersOk, DeliverersOk, DigestsOk, ReceiptsCanonical, SettlersOk, PostingsOk, ReserveSettlement;
    EventMovesForward(cfg, s, e);
    var n := Step(cfg, s, e);
    assert RowsAdvance(s.db.settlements, n.db.settlements);
    PostingsStay(s.db.settlements, n.db.settlements, s.sent);
    SettlersStay(s.db.settlements, n.db.settlements, s.settlers, s.sent);
    if Enabled(cfg, s, e) {
      match e
      case SettleBegin(c, merchant, _, hash, payment, sid) =>
        SettlerMoves(s.db.settlements, s.settlers, s.sent, c, n.settlers[c]);
      case SettleReserve(c) => SettleReserveKept(cfg, s, c);
      case SettleBroadcast(c, result) => PostedOnce(s.db.settlements, s.settlers, s.sent, c, n.settlers[c]);
      case SettleRecord(c) => SettlerMoves(n.db.settlements, s.settlers, s.sent, c, n.settlers[c]);
      case SettleCrash(c) => SettlerLeaves(s.db.settlements, s.settlers, s.sent, c);
      case _ =>
    }
  }

  lemma SettlerLeaves(rows: Settlements, settlers: map<nat, SettlePc>, sent: seq<Sent>, c: nat)
    requires SettlersOk(rows, settlers, sent)
    ensures SettlersOk(rows, settlers - {c}, sent)
  {
  }

  lemma SettleReserveKept(cfg: Setup, s: Sys, c: nat)
    requires SysInv(cfg, s) && Enabled(cfg, s, SettleReserve(c))
    requires RowsAdvance(s.db.settlements, Step(cfg, s, SettleReserve(c)).db.settlements)
    ensures var n := Step(cfg, s, SettleReserve(c)); SettlersOk(n.db.settlements, n.settlers, n.sent)
  {
    hide Inv, LogInv, WorkersOk, DeliverersOk, DigestsOk, ReceiptsCanonical, SettlersOk, PostingsOk;
    var r := s.settlers[c].reservation;
    var out := ReserveSettlement(s.db, r, s.now);
    var n := Step(cfg, s, SettleReserve(c));
    if out.Commit? && out.value.created {
      assert r.settlementId !in s.db.settlements && out.db == InsertSettlement(s.db, r.settlementId, r.payment, s.now);
      FreshReservation(s.db.settlements, n.db.settlements, s.settlers, s.sent, c, r.settlementId, r.payment);
    } else {
      SettlersStay(s.db.settlements, n.db.settlements, s.settlers, s.sent);
      SettlerMoves(n.db.settlements, s.settlers, s.sent, c, SettleFinished);
    }
  }

  lemma WorkerMoves(db: Db, chain: Blocks, cfg: Setup, workers: map<nat, WorkerPc>, w: nat, pc: WorkerPc)
    requires WorkersOk(db, chain, cfg, workers) && WorkerOk(db, chain, cfg, pc)
    ensures WorkersOk(db, chain, cfg, workers[w := pc])
  {
  }

  /** A confirmation that was observed honestly at sufficient cfg is reported about a block beyond reorganisation. */
  lemma HonestReportOk(cfg: Setup, db: Db, chain: Blocks, c: Candidate, checkedAt: Time, tx: TxResponse,
      info: InfoResponse)
    requires Inv(db) && CandidateTrue(db, c)
    requires HonestTx(chain, c.payment.txid, tx) && HonestInfo(chain, info)
    ensures IsSettlementId(c.settlementId)
    ensures ReportOk(db, chain, cfg,
              Report(cfg.worker, c, checkedAt, Observe(c.payment.txid, tx, info, cfg.worker.minConfirmations)))
  {
    hide Observe, Inv;
    var o := Observe(c.payment.txid, tx, info, cfg.worker.minConfirmations);
    ReportsAreWellFormed(db, cfg.worker, c, checkedAt, o);
    if Deep(cfg) {
      ConfirmedIsBuried(chain, c.payment.txid, tx, info, cfg.worker.minConfirmations, cfg.reorgDepth);
    }
  }

  lemma RestIsTrue(db: Db, rows: seq<Candidate>)
    requires AllTrue(db, rows) && rows != []
    ensures CandidateTrue(db, rows[0]) && AllTrue(db, rows[1..])
  {
  }

  /** What a worker knows after its own event, given what it knew before. */
  lemma WorkerPcKept(cfg: Setup, s: Sys, e: Event, w: nat)
    requires SysInv(cfg, s)
    requires Enabled(cfg, s, e)
    requires e == WorkerBegin(w) || e == WorkerCheck(w) || e == WorkerApply(w) || e == WorkerThrow(w)
          || (e.WorkerClaim? && e.w == w) || (e.WorkerLoad? && e.w == w) || (e.WorkerObserve? && e.w == w)
    requires w in s.workers ==> WorkerOk(Step(cfg, s, e).db, s.chain, cfg, s.workers[w])
    ensures w in Step(cfg, s, e).workers
    ensures WorkerOk(Step(cfg, s, e).db, s.chain, cfg, Step(cfg, s, e).workers[w])
  {
    hide Inv, LogInv, SettlersOk, DeliverersOk, DigestsOk, ReceiptsCanonical, PostingsOk, WorkersOk, CandidateTrue,
        ReportOk, AllTrue,
      Observe, Exec;
    match e
    case WorkerCheck(_) => RestIsTrue(s.db, s.workers[w].rest);
    case WorkerLoad(_, rows) => assert AllTrue(s.db, rows) by { LoadedAreTrue(cfg, s, w, rows); }
    case WorkerClaim(_, locked, picked) => PickedAreRows(cfg, s, w, locked, picked);
    case WorkerObserve(_, tx, info) =>
      HonestReportOk(cfg, s.db, s.chain, s.workers[w].candidate, s.workers[w].checkedAt, tx, info);
    case _ =>
  }

  lemma LoadedAreTrue(cfg: Setup, s: Sys, w: nat, rows: seq<Candidate>)
    requires Enabled(cfg, s, WorkerLoad(w, rows))
    ensures AllTrue(s.db, rows)
  {
  }

  lemma PickedAreRows(cfg: Setup, s: Sys, w: nat, locked: set<SettlementId>, picked: set<SettlementId>)
    requires Enabled(cfg, s, WorkerClaim(w, locked, picked))
    ensures picked <= Step(cfg, s, WorkerClaim(w, locked, picked)).db.settlements.Keys
  {
    assert forall x :: x in picked ==> x in DueSet(s.db, s.workers[w].claimedAt, locked);
  }

  predicate IsWorkerEvent(e: Event) {
    e.WorkerBegin? || e.WorkerClaim? || e.WorkerLoad? || e.WorkerCheck? || e.WorkerObserve? || e.WorkerApply?
        || e.WorkerThrow?
  }

  lemma WorkersKept(cfg: Setup, s: Sys, e: Event)
    requires SysInv(cfg, s)
    ensures var n := Step(cfg, s, e); WorkersOk(n.db, n.chain, cfg, n.workers)
  {
    hide Inv, LogInv, SettlersOk, DeliverersOk, DigestsOk, ReceiptsCanonical, PostingsOk, WorkerOk, Exec, Advances,
        Enabled, Observe, Report;
    EventMovesForward(cfg, s, e);
    var n := Step(cfg, s, e);
    WorkersStay(s.db, n.db, s.chain, n.chain, cfg, s.workers);
    if Enabled(cfg, s, e) && IsWorkerEvent(e) {
      ReorganisedReflexive(s.chain, cfg);
      WorkersStay(s.db, n.db, s.chain, s.chain, cfg, s.workers);
      WorkerPcKept(cfg, s, e, e.w);
      WorkerMoves(n.db, n.chain, cfg, s.workers, e.w, n.workers[e.w]);
    }
  }

  lemma CanonicalGrows(a: Receipts, b: Receipts, chain: Blocks, cfg: Setup, s: SettlementId)
    requires ReceiptsCanonical(a, chain, cfg)
    requires s in b && b == a[s := b[s]]
    requires Final(cfg, chain, b[s].signedToken.receipt.blockHeight, b[s].signedToken.receipt.blockHash)
    ensures ReceiptsCanonical(b, chain, cfg)
  {
  }

  lemma AppliedReceipts(db: Db, o: Observed)
    ensures var next := ApplyReconciliationResult(db, o).After(db);
      next.receipts == db.receipts
      || (o.Settled? && o.settlementId in db.settlements
         && next.receipts == db.receipts[o.receipt.settlementId := o.receipt])
  {
  }

  lemma OtherTxnsKeepReceipts(db: Db, t: Txn)
    requires !t.TxApply?
    ensures Exec(db, t).receipts == db.receipts
  {
  }

  lemma ApplyKeepsCanonical(db: Db, chain: Blocks, cfg: Setup, o: Observed)
    requires ReceiptsCanonical(db.receipts, chain, cfg) && ReportOk(db, chain, cfg, o)
    ensures ReceiptsCanonical(Exec(db, TxApply(o)).receipts, chain, cfg)
  {
    hide ApplyReconciliationResult;
    AppliedReceipts(db, o);
    var next := ApplyReconciliationResult(db, o).After(db);
    if next.receipts != db.receipts {
      CanonicalGrows(db.receipts, next.receipts, chain, cfg, o.receipt.settlementId);
    }
  }

  lemma TxnKeepsChain(cfg: Setup, s: Sys, e: Event)
    requires Enabled(cfg, s, e) && TxnOf(cfg, s, e).Some?
    ensures Step(cfg, s, e).chain == s.chain && Step(cfg, s, e).db == Exec(s.db, TxnOf(cfg, s, e).value)
  {
    hide Exec, NextSettler, NextDeliverer, Observe, Report;
  }

  lemma ReceiptsKept(cfg: Setup, s: Sys, e: Event)
    requires SysInv(cfg, s)
    ensures var n := Step(cfg, s, e); ReceiptsCanonical(n.db.receipts, n.chain, cfg)
  {
    hide Inv, LogInv, SettlersOk, DeliverersOk, DigestsOk, PostingsOk, ReceiptsCanonical, Advances, Exec, ReportOk,
        Reorganised, AllTrue, Step;
    EventMovesForward(cfg, s, e);
    var n := Step(cfg, s, e);
    CanonicalStays(s.db.receipts, s.chain, n.chain, cfg);
    if Enabled(cfg, s, e) && TxnOf(cfg, s, e).Some? {
      TxnKeepsChain(cfg, s, e);
      var t := TxnOf(cfg, s, e).value;
      if t.TxApply? {
        assert WorkerOk(s.db, s.chain, cfg, s.workers[e.w]);
        ApplyKeepsCanonical(s.db, s.chain, cfg, t.observed);
      } else {
        OtherTxnsKeepReceipts(s.db, t);
      }
    }
  }

  /* ---------- deliveries ---------- */

  lemma DeliverersStay(cfg: Setup, a: Db, b: Db, deliverers: map<nat, DeliverPc>)
    requires Advances(a, b) && DeliveriesOk(a.deliveries) && DeliveriesOk(b.deliveries)
        && DeliverersOk(cfg, a, deliverers)
    requires forall s :: Started(a, s) ==> Started(b, s)
    ensures DeliverersOk(cfg, b, deliverers)
  {
    hide Advances, DeliveriesOk, DelivererOk;
    forall d | d in deliverers ensures DelivererOk(cfg, b, deliverers[d]) {
      DelivererStays(cfg, a, b, deliverers[d]);
    }
  }

  lemma ConfirmedIsPaid(db: Db, s: SettlementId)
    requires Inv(db) && s in db.settlements && db.settlements[s].status == Confirmed
    ensures Paid(db, s)
  {
    SettlementMeaning(db, s);
  }

  lemma ClaimStarts(service: Service, db: Db, s: SettlementId, m: string, at: Time)
    requires DeliveriesOk(db.deliveries) && Paid(db, s) && DeliveryVisible(db, s, m)
    ensures var out, next := ClaimDelivery(db, s, m, at), ClaimDelivery(db, s, m, at).After(db);
      && Paid(next, s) && DeliveryVisible(next, s, m) && BodyOf(service, next, s) == BodyOf(service, db, s)
      && (out.Rollback? ==> out.error == DeliveryWindowExpired && next.deliveries[s].status == DeliveryExpired)
      && (out.Commit? ==>
            && out.value.receipt == db.receipts[s]
            && next.deliveries[s].status == out.value.delivery.status
            && (out.value.delivery.status == DeliveryExpired || Started(next, s)))
  {
    assert DeliveryOk(db.deliveries[s]);
  }

  /** A started delivery is completed with this service's body, unless another body was stored before. */
  lemma CompleteServes(service: Service, db: Db, s: SettlementId, m: string, at: Time)
    requires Paid(db, s) && DeliveryVisible(db, s, m) && Started(db, s)
    ensures var body := BodyOf(service, db, s);
      var out, next := CompleteDelivery(db, s, m, ReportHash(body), at),
          CompleteDelivery(db, s, m, ReportHash(body), at).After(db);
      && Paid(next, s) && BodyOf(service, next, s) == body && next.deliveries[s].status == Delivered
      && (out.Commit? <==> db.deliveries[s].status == Delivering || ServedBy(db, s, service))
      && (if out.Commit? then ServedBy(next, s, service) else next == db && out.error == DeliveryDigestConflict)
  {
  }

  lemma DeliverBeginKept(cfg: Setup, s: Sys, e: Event)
    requires Inv(s.db) && Enabled(cfg, s, e) && e.DeliverBegin?
    ensures e.d in Step(cfg, s, e).deliverers && DelivererOk(cfg, Step(cfg, s, e).db, Step(cfg, s, e).deliverers[e.d])
  {
    hide Inv;
    ConfirmedIsPaid(s.db, e.settlementId);
  }

  lemma DeliverStep(cfg: Setup, s: Sys, e: Event)
    requires Enabled(cfg, s, e) && (e.DeliverClaim? || e.DeliverComplete?)
    ensures e.d in s.deliverers && (if e.DeliverClaim? then s.deliverers[e.d].ClaimingDelivery?
        else s.deliverers[e.d].Completing?)
    ensures TxnOf(cfg, s, e).Some?
    ensures Step(cfg, s, e).db == Exec(s.db, TxnOf(cfg, s, e).value)
    ensures Step(cfg, s, e).deliverers == s.deliverers[e.d := NextDeliverer(s, e)]
  {
    hide Exec, NextDeliverer;
  }

  lemma DeliverClaimKept(cfg: Setup, s: Sys, e: Event)
    requires DeliveriesOk(s.db.deliveries) && DeliverersOk(cfg, s.db, s.deliverers) && Enabled(cfg, s, e)
        && e.DeliverClaim?
    ensures e.d in Step(cfg, s, e).deliverers && DelivererOk(cfg, Step(cfg, s, e).db, Step(cfg, s, e).deliverers[e.d])
  {
    hide DeliveriesOk, ClaimDelivery, Step, Enabled;
    DeliverStep(cfg, s, e);
    assert DelivererOk(cfg, s.db, s.deliverers[e.d]);
    ClaimStarts(s.deliverers[e.d].service, s.db, s.deliverers[e.d].record.settlementId, s.deliverers[e.d].merchantId,
        s.now);
  }

  lemma DeliverCompleteKept(cfg: Setup, s: Sys, e: Event)
    requires DeliverersOk(cfg, s.db, s.deliverers) && Enabled(cfg, s, e) && e.DeliverComplete?
    ensures e.d in Step(cfg, s, e).deliverers && DelivererOk(cfg, Step(cfg, s, e).db, Step(cfg, s, e).deliverers[e.d])
  {
    hide CompleteDelivery, Step, Enabled;
    DeliverStep(cfg, s, e);
    assert DelivererOk(cfg, s.db, s.deliverers[e.d]);
    CompleteServes(s.deliverers[e.d].service, s.db, s.deliverers[e.d].settlementId, s.deliverers[e.d].merchantId,
        s.now);
  }

  lemma DelivererMoves(cfg: Setup, db: Db, deliverers: map<nat, DeliverPc>, d: nat, pc: DeliverPc)
    requires DeliverersOk(cfg, db, deliverers) && DelivererOk(cfg, db, pc)
    ensures DeliverersOk(cfg, db, deliverers[d := pc])
  {
  }

  predicate IsDeliverEvent(e: Event) {
    e.DeliverBegin? || e.DeliverClaim? || e.DeliverComplete?
  }

  lemma DeliverersFrame(cfg: Setup, s: Sys, e: Event)
    ensures var n := Step(cfg, s, e);
      if Enabled(cfg, s, e) && IsDeliverEvent(e) then e.d in n.deliverers
          && n.deliverers == s.deliverers[e.d := n.deliverers[e.d]]
      else forall d :: d in n.deliverers ==> d in s.deliverers && n.deliverers[d] == s.deliverers[d]
  {
    hide Enabled, TxnOf, NextDb, NextSettler, NextDeliverer;
  }

  lemma DelivererPcKept(cfg: Setup, s: Sys, e: Event)
    requires SysInv(cfg, s) && Enabled(cfg, s, e) && IsDeliverEvent(e)
    ensures e.d in Step(cfg, s, e).deliverers && DelivererOk(cfg, Step(cfg, s, e).db, Step(cfg, s, e).deliverers[e.d])
  {
    hide LogInv, SettlersOk, WorkersOk, PostingsOk, ReceiptsCanonical, RowsOk, QuotesTaken, QuotesOwned, PaymentsUnique,
        ReceiptsTrue,
      IdsDerived, OutcomesCoupled, DigestsOk, DeliveriesOk, DeliverersOk, DelivererOk, Step, Enabled;
    match e
    case DeliverBegin(_, _, _, _) => DeliverBeginKept(cfg, s, e);
    case DeliverClaim(_) => DeliverClaimKept(cfg, s, e);
    case DeliverComplete(_) => DeliverCompleteKept(cfg, s, e);
  }

  lemma StartsKept(cfg: Setup, s: Sys, e: Event)
    requires SysInv(cfg, s)
    ensures forall x :: Started(s.db, x) ==> Started(Step(cfg, s, e).db, x)
  {
    EventMovesForward(cfg, s, e);
    hide SysInv, Step, Exec, Advances, Started, Enabled;
    forall x | Started(s.db, x) ensures Started(Step(cfg, s, e).db, x) {
      if Step(cfg, s, e).db != s.db {
        StartedStays(s.db, TxnOf(cfg, s, e).value, x);
      }
    }
  }

  lemma DeliverersKept(cfg: Setup, s: Sys, e: Event)
    requires SysInv(cfg, s)
    ensures var n := Step(cfg, s, e); DeliverersOk(cfg, n.db, n.deliverers)
  {
    EventMovesForward(cfg, s, e);
    StartsKept(cfg, s, e);
    DeliverersFrame(cfg, s, e);
    hide LogInv, SettlersOk, WorkersOk, PostingsOk, ReceiptsCanonical, RowsOk, QuotesTaken, QuotesOwned, PaymentsUnique,
        ReceiptsTrue,
      IdsDerived, DigestsOk, Exec, Advances, DelivererOk, DeliveriesOk, OutcomesCoupled, Enabled, Step, Started;
    var n := Step(cfg, s, e);
    DeliverersStay(cfg, s.db, n.db, s.deliverers);
    if Enabled(cfg, s, e) && IsDeliverEvent(e) {
      DelivererPcKept(cfg, s, e);
      DelivererMoves(cfg, n.db, s.deliverers, e.d, n.deliverers[e.d]);
    }
  }

  /** Only a completion makes a delivery delivered. */
  lemma DeliveredOnlyByCompletion(db: Db, t: Txn, s: SettlementId)
    requires s in Exec(db, t).deliveries && Exec(db, t).deliveries[s].status == Delivered
    ensures (s in db.deliveries && db.deliveries[s].status == Delivered)
        || (t.TxCompleteDelivery? && t.settlementId == s)
  {
  }

  lemma CompletionIsOurs(cfg: Setup, s: Sys, e: Event)
    requires SysInv(cfg, s) && Enabled(cfg, s, e) && TxnOf(cfg, s, e).Some?
        && TxnOf(cfg, s, e).value.TxCompleteDelivery?
    ensures var t := TxnOf(cfg, s, e).value;
      && Paid(s.db, t.settlementId) && DeliveryVisible(s.db, t.settlementId, t.merchantId)
         && Started(s.db, t.settlementId)
      && exists service :: service in cfg.services && t.digest == ReportHash(BodyOf(service, s.db, t.settlementId))
  {
    hide Inv, LogInv, SettlersOk, WorkersOk, PostingsOk, ReceiptsCanonical, DigestsOk;
    assert DelivererOk(cfg, s.db, s.deliverers[e.d]);
  }

  /** The completion was issued by one of these resource services for a delivery it claimed. */
  ghost predicate OurCompletion(cfg: Setup, db: Db, t: Txn) {
    t.TxCompleteDelivery? ==>
      && Paid(db, t.settlementId) && DeliveryVisible(db, t.settlementId, t.merchantId) && Started(db, t.settlementId)
      && exists service :: service in cfg.services && t.digest == ReportHash(BodyOf(service, db, t.settlementId))
  }

  lemma TxnKeepsDigests(cfg: Setup, db: Db, t: Txn)
    requires DigestsOk(cfg, db) && Advances(db, Exec(db, t)) && OurCompletion(cfg, db, t)
    ensures DigestsOk(cfg, Exec(db, t))
  {
    hide Exec;
    var n := Exec(db, t);
    forall x | x in n.deliveries && n.deliveries[x].status == Delivered
      ensures exists service :: service in cfg.services && ServedBy(n, x, service)
    {
      if x in db.deliveries && db.deliveries[x].status == Delivered {
        var service :| service in cfg.services && ServedBy(db, x, service);
        assert ServedBy(n, x, service);
      } else {
        DeliveredOnlyByCompletion(db, t, x);
        CompletionDigest(cfg, db, t);
      }
    }
  }

  lemma DigestsKept(cfg: Setup, s: Sys, e: Event)
    requires SysInv(cfg, s)
    ensures DigestsOk(cfg, Step(cfg, s, e).db)
  {
    EventMovesForward(cfg, s, e);
    hide Inv, LogInv, SettlersOk, WorkersOk, PostingsOk, ReceiptsCanonical, DeliverersOk, Exec, Step, Enabled,
        DigestsOk, Advances;
    if Step(cfg, s, e).db != s.db {
      if TxnOf(cfg, s, e).value.TxCompleteDelivery? {
        CompletionIsOurs(cfg, s, e);
      }
      TxnKeepsDigests(cfg, s.db, TxnOf(cfg, s, e).value);
    }
  }

  lemma CompletionDigest(cfg: Setup, db: Db, t: Txn)
    requires OurCompletion(cfg, db, t) && t.TxCompleteDelivery?
    requires !(t.settlementId in db.deliveries && db.deliveries[t.settlementId].status == Delivered)
    ensures exists service :: service in cfg.services && ServedBy(Exec(db, t), t.settlementId, service)
  {
    var service :| service in cfg.services && t.digest == ReportHash(BodyOf(service, db, t.settlementId));
    CompleteServes(service, db, t.settlementId, t.merchantId, t.completedAt);
  }

  /* ---------- whole runs ---------- */

  lemma StepKeepsSysInv(cfg: Setup, s: Sys, e: Event)
    requires SysInv(cfg, s)
    ensures SysInv(cfg, Step(cfg, s, e))
  {
    EventMovesForward(cfg, s, e);
    SettlersKept(cfg, s, e);
    WorkersKept(cfg, s, e);
    ReceiptsKept(cfg, s, e);
    DeliverersKept(cfg, s, e);
    DigestsKept(cfg, s, e);
    hide Inv, LogInv, SettlersOk, WorkersOk, PostingsOk, ReceiptsCanonical, DeliverersOk, DigestsOk, Step, Advances;
  }

  lemma {:induction false} RunKeepsSysInv(cfg: Setup, s: Sys, es: seq<Event>)
    requires SysInv(cfg, s)
    ensures SysInv(cfg, Run(cfg, s, es))
    decreases |es|
  {
    hide SysInv, Step;
    if es != [] {
      StepKeepsSysInv(cfg, s, es[0]);
      RunKeepsSysInv(cfg, Step(cfg, s, es[0]), es[1..]);
    }
  }
}
