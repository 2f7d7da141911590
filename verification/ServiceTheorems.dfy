/** Safety of the payment system over every run: any number of callers, workers and servers, any crashes, any
    schedule. */
module ServiceTheorems {
  import opened Basics
  import opened Totals
  import opened Ledger
  import opened LedgerInvariants
  import opened LedgerLog
  import opened LedgerTheorems
  import opened Chain
  import opened Services
  import opened ServiceInvariants

  ghost predicate Reachable(cfg: Setup, s: Sys) {
    exists chain, es :: s == Run(cfg, Initial(chain), es)
  }

  lemma ReachableOk(cfg: Setup, s: Sys)
    requires Reachable(cfg, s)
    ensures SysInv(cfg, s)
  {
    hide SysInv, Run;
    var chain, es :| s == Run(cfg, Initial(chain), es);
    InitialOk(cfg, chain);
    RunKeepsSysInv(cfg, Initial(chain), es);
  }

  lemma {:induction false} RunAdvances(cfg: Setup, s: Sys, es: seq<Event>)
    requires SysInv(cfg, s)
    ensures Advances(s.db, Run(cfg, s, es).db) && s.now <= Run(cfg, s, es).now
    decreases |es|
  {
    hide SysInv, Step, Advances;
    if es == [] {
      UnchangedAdvances(s.db);
    } else {
      var n := Step(cfg, s, es[0]);
      EventMovesForward(cfg, s, es[0]);
      StepKeepsSysInv(cfg, s, es[0]);
      RunAdvances(cfg, n, es[1..]);
      AdvancesTransitive(s.db, n.db, Run(cfg, s, es).db);
    }
  }

  /* ---------- at most one broadcast ---------- */

  /** In every run, a quote and a transaction are each posted to the network at most once. */
  lemma AtMostOneBroadcast(cfg: Setup, s: Sys, i: nat, j: nat)
    requires Reachable(cfg, s) && i < |s.sent| && j < |s.sent|
    requires s.sent[i].payment.quoteId == s.sent[j].payment.quoteId
          || (s.sent[i].payment.network == s.sent[j].payment.network
             && s.sent[i].payment.txid == s.sent[j].payment.txid)
    ensures i == j
  {
    ReachableOk(cfg, s);
    hide LogInv, WorkersOk, ReceiptsCanonical, DeliverersOk, DigestsOk, SettlersOk, QuotesTaken, QuotesOwned,
        ReceiptsTrue, IdsDerived, RowsOk;
    assert SentReserved(s.db.settlements, s.sent[i]) && SentReserved(s.db.settlements, s.sent[j]);
    assert SamePayment(s.sent[i].payment, s.sent[j].payment);
  }

  /** A posting is only ever made for a reservation that had committed before, by an event that writes nothing. */
  lemma BroadcastFollowsReservation(cfg: Setup, s: Sys, e: Event)
    requires Reachable(cfg, s) && Step(cfg, s, e).sent != s.sent
    ensures var n := Step(cfg, s, e);
      && n.db == s.db
      && |n.sent| == |s.sent| + 1 && s.sent <= n.sent
      && SentReserved(s.db.settlements, n.sent[|s.sent|])
      && History(s.db.log, n.sent[|s.sent|].settlementId) != []
      && History(s.db.log, n.sent[|s.sent|].settlementId)[0].to == Validated
  {
    ReachableOk(cfg, s);
    hide Inv, WorkersOk, ReceiptsCanonical, DeliverersOk, DigestsOk, PostingsOk, History, Replay;
    assert e.SettleBroadcast? && Enabled(cfg, s, e);
    assert SettlerOk(s.db.settlements, s.settlers[e.c]);
    assert RowReplayed(s.db.settlements[s.settlers[e.c].settlementId], History(s.db.log, s.settlers[e.c].settlementId));
  }

  lemma PostedIsReserved(cfg: Setup, s: Sys, x: Sent)
    requires Reachable(cfg, s) && x in s.sent
    ensures SentReserved(s.db.settlements, x)
  {
    ReachableOk(cfg, s);
    hide Inv, LogInv, WorkersOk, ReceiptsCanonical, DeliverersOk, DigestsOk, SettlersOk;
    var i :| 0 <= i < |s.sent| && s.sent[i] == x;
    assert SentReserved(s.db.settlements, s.sent[i]);
  }

  /** Whoever submits a payment whose quote or transaction was posted before never gets to post again. */
  lemma PostedPaymentsAreNeverCreatedAgain(cfg: Setup, s: Sys, x: Sent, r: Reservation)
    requires Reachable(cfg, s) && x in s.sent && SamePayment(x.payment, r.payment)
    ensures var out := ReserveSettlement(s.db, r, s.now); out.Commit? ==> !out.value.created && out.db == s.db
  {
    PostedIsReserved(cfg, s, x);
    hide Reachable;
    if x.payment.quoteId == r.payment.quoteId {
      assert SettlementFor(s.db, r.payment.quoteId, x.settlementId);
    } else {
      assert TxidTaken(s.db, r.payment.network, r.payment.txid);
    }
  }

  /* ---------- receipts are canonical for good ---------- */

  /** With more confirmations required than a reorganisation can replace, the block named by every receipt is canonical
      in every reachable state, however long the worker stalled between observing and applying. */
  lemma ReceiptsStayCanonical(cfg: Setup, s: Sys, x: SettlementId)
    requires Reachable(cfg, s) && Deep(cfg) && x in s.db.receipts
    ensures var p := s.db.receipts[x].signedToken.receipt;
      && Canonical(s.chain, p.blockHeight, p.blockHash)
      && x in s.db.settlements
      && s.db.settlements[x].confirmation.Some?
      && s.db.settlements[x].confirmation.value.blockHeight == p.blockHeight
      && s.db.settlements[x].confirmation.value.blockHash == p.blockHash
  {
    ReachableOk(cfg, s);
    hide LogInv, WorkersOk, DeliverersOk, DigestsOk, SettlersOk, PostingsOk, QuotesTaken, QuotesOwned, PaymentsUnique,
        IdsDerived;
    assert ReceiptTrue(s.db.quotes, s.db.settlements[x], x, s.db.receipts[x]);
  }

  /* ---------- every run keeps the books ---------- */

  /** Rows replay the log, quotes couple with settlements, and receipted amounts equal consumed amounts, in every
      run. */
  lemma BooksBalanceInEveryRun(cfg: Setup, s: Sys, merchant: string, asset: string)
    requires Reachable(cfg, s)
    ensures Inv(s.db) && LogInv(s.db.settlements, s.db.log)
    ensures Total(ReceiptedAmounts(s.db, merchant, asset)) == Total(ConsumedAmounts(s.db, merchant, asset))
  {
    ReachableOk(cfg, s);
    hide Inv, LogInv;
    ReceiptsConserveQuotes(s.db, merchant, asset);
  }

  /* ---------- deliveries ---------- */

  lemma ServersOk(cfg: Setup, s: Sys, d: nat)
    requires Reachable(cfg, s) && d in s.deliverers
    ensures DelivererOk(cfg, s.db, s.deliverers[d]) && DigestsOk(cfg, s.db)
  {
    hide Inv, LogInv, WorkersOk, ReceiptsCanonical, DigestsOk, SettlersOk, PostingsOk, DelivererOk;
    ReachableOk(cfg, s);
  }

  lemma SameBody(cfg: Setup, db: Db, a: DeliverPc, b: DeliverPc)
    requires DelivererOk(cfg, db, a) && DelivererOk(cfg, db, b) && a.Served? && b.Served?
        && a.settlementId == b.settlementId
    ensures a.body == b.body && a.service == b.service
    ensures a.settlementId in db.deliveries && db.deliveries[a.settlementId].status == Delivered
    ensures db.deliveries[a.settlementId].responseDigest == Some(ReportHash(a.body))
    ensures StatesPayment(a.body, a.service, db, a.settlementId)
  {
  }

  /** Any two servings of one settlement return the same body, which states its payment and receipt and whose digest is
      the stored one, whichever services made them. */
  lemma DeliveryIsConfluent(cfg: Setup, s: Sys, c: nat, d: nat)
    requires Reachable(cfg, s) && c in s.deliverers && d in s.deliverers
    requires s.deliverers[c].Served? && s.deliverers[d].Served?
        && s.deliverers[c].settlementId == s.deliverers[d].settlementId
    ensures s.deliverers[c].body == s.deliverers[d].body && s.deliverers[c].service == s.deliverers[d].service
    ensures var x := s.deliverers[c].settlementId;
      && x in s.db.deliveries && s.db.deliveries[x].status == Delivered
      && s.db.deliveries[x].responseDigest == Some(ReportHash(s.deliverers[c].body))
      && StatesPayment(s.deliverers[c].body, s.deliverers[c].service, s.db, x)
  {
    hide Reachable, DelivererOk, DigestsOk;
    ServersOk(cfg, s, c);
    ServersOk(cfg, s, d);
    SameBody(cfg, s.db, s.deliverers[c], s.deliverers[d]);
  }

  /** All resource services over this ledger serve the same bodies. */
  ghost predicate OneService(cfg: Setup) {
    forall a, b :: a in cfg.services && b in cfg.services ==> a == b
  }

  /** A server is refused only for an expired window, or because another service's body was stored first. */
  lemma RefusalsAreExplained(cfg: Setup, s: Sys, d: nat)
    requires Reachable(cfg, s) && d in s.deliverers && s.deliverers[d].Refused?
    ensures var x, pc := s.deliverers[d].settlementId, s.deliverers[d];
      && x in s.db.deliveries
      && if pc.error == DeliveryDigestConflict
         then exists other :: other in cfg.services && other != pc.service && ServedBy(s.db, x, other)
         else pc.error == DeliveryWindowExpired && s.db.deliveries[x].status == DeliveryExpired
  {
    hide Reachable;
    ServersOk(cfg, s, d);
  }

  /** With one service the only refusal a server of a confirmed settlement ever meets is an expired window. */
  lemma DeliveryNeverConflicts(cfg: Setup, s: Sys, d: nat)
    requires Reachable(cfg, s) && OneService(cfg) && d in s.deliverers && s.deliverers[d].Refused?
    ensures s.deliverers[d].error == DeliveryWindowExpired
    ensures s.deliverers[d].settlementId in s.db.deliveries
    ensures s.db.deliveries[s.deliverers[d].settlementId].status == DeliveryExpired
  {
    hide Reachable;
    RefusalsAreExplained(cfg, s, d);
    ServersOk(cfg, s, d);
  }

  lemma DeliveriesAreAttemptedOnce(cfg: Setup, s: Sys, x: SettlementId)
    requires Reachable(cfg, s) && x in s.db.deliveries
    ensures s.db.deliveries[x].attemptCount <= 1
    ensures s.db.deliveries[x].attemptCount == 1 <==> Started(s.db, x)
    ensures s.db.deliveries[x].responseDigest.Some? <==> s.db.deliveries[x].status == Delivered
  {
    ReachableOk(cfg, s);
    hide LogInv, WorkersOk, ReceiptsCanonical, DigestsOk, SettlersOk, PostingsOk, DeliverersOk;
    assert DeliveryOk(s.db.deliveries[x]);
  }

  /** Delivered stays delivered under the same digest, and expired is never delivered, in every continuation of a
      run. */
  lemma DeliveryOutcomesArePermanent(cfg: Setup, s: Sys, es: seq<Event>, x: SettlementId)
    requires Reachable(cfg, s) && x in s.db.deliveries
    requires s.db.deliveries[x].status == Delivered || s.db.deliveries[x].status == DeliveryExpired
    ensures x in Run(cfg, s, es).db.deliveries && Run(cfg, s, es).db.deliveries[x] == s.db.deliveries[x]
  {
    ReachableOk(cfg, s);
    RunAdvances(cfg, s, es);
    hide SysInv, Run;
  }
}
