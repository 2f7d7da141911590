/** The answers a caller gets who keeps retrieving a settlement: pending ones, and then one for good. */
module Retrieval {
  import opened Ledger
  import opened LedgerInvariants
  import opened LedgerLog
  import opened LedgerTheorems
  import opened Services
  import opened ServiceInvariants
  import opened ServiceTheorems
  import opened Deliveries
  import ServiceWitnesses

  datatype Answer =
    | Answered(body: CapabilityReport)
    | NotServed(error: StoreError)
    | SettlementFailed(code: string)
    | AwaitingOutcome(status: Status)

  /** retrieve, undisturbed: the settlement's status decides, and a confirmed one is claimed and completed. */
  function Retrieve(service: Service, db: Db, x: SettlementId, m: string, at: Time): (Db, Answer)
    requires x in db.settlements
  {
    var row := db.settlements[x];
    match row.status
    case Confirmed =>
      var claim := ClaimDelivery(db, x, m, at);
      if claim.Rollback? then (db, NotServed(claim.error))
      else if claim.value.delivery.status == DeliveryExpired then (claim.db, NotServed(DeliveryWindowExpired))
      else
        var body := ReportFor(service, x, row.payment, claim.value.receipt.signedToken);
        var done := CompleteDelivery(claim.db, x, m, ReportHash(body), at);
        if done.Commit? then (done.db, Answered(body)) else (claim.db, NotServed(done.error))
    case Failed | Dropped =>
      (db, SettlementFailed(if row.failureReason.Some? then row.failureReason.value else "settlement_failed"))
    case _ => (db, AwaitingOutcome(row.status))
  }

  predicate MerchantIs(db: Db, x: SettlementId, m: string) {
    && x in db.settlements && db.settlements[x].payment.quoteId in db.quotes
    && db.quotes[db.settlements[x].payment.quoteId].terms.merchantId == m
  }

  lemma ConfirmedIsPaidTo(db: Db, x: SettlementId, m: string)
    requires Inv(db) && MerchantIs(db, x, m) && db.settlements[x].status == Confirmed
    ensures PaidTo(db, x, m) && Paid(db, x) && DeliveryOk(db.deliveries[x])
  {
    ConfirmedIsPaid(db, x);
  }

  /** A paid settlement is answered with this service's body exactly while its delivery can be claimed and no other body
      is stored. */
  lemma PaidAnswer(service: Service, db: Db, x: SettlementId, m: string, at: Time)
    requires PaidTo(db, x, m) && DeliveryOk(db.deliveries[x])
    ensures var r := Retrieve(service, db, x, m, at);
      && (if !Claimable(db, x, at) then r.1 == NotServed(DeliveryWindowExpired)
          else if db.deliveries[x].status == Delivered && !ServedBy(db, x, service)
              then r.1 == NotServed(DeliveryDigestConflict)
          else r.1 == Answered(BodyOf(service, db, x)))
      && (r.1.Answered? ==> Started(r.0, x) && ServedBy(r.0, x, service) && StatesPayment(r.1.body, service, db, x))
  {
    if Claimable(db, x, at) {
      ClaimInTime(db, x, m, at);
      var next := ClaimDelivery(db, x, m, at).db;
      hide ClaimDelivery;
      CompleteServes(service, next, x, m, at);
      hide CompleteDelivery;
    }
  }

  /** Before it is confirmed a settlement is only read: a failure is answered with the reason on its row, anything still
      active with its status. */
  lemma OthersAreOnlyRead(service: Service, db: Db, x: SettlementId, m: string, at: Time)
    requires x in db.settlements && db.settlements[x].status != Confirmed
    ensures var row := db.settlements[x];
      Retrieve(service, db, x, m, at) ==
      (db, if row.status == Failed || row.status == Dropped
           then SettlementFailed(match row.failureReason case Some(reason) => reason case None => "settlement_failed")
           else AwaitingOutcome(row.status))
  {
  }

  /** Whatever the ledger holds, an answer states the payment of the very settlement that was asked for. */
  lemma AnswersStateThePayment(service: Service, db: Db, x: SettlementId, m: string, at: Time)
    requires x in db.settlements
    ensures var r := Retrieve(service, db, x, m, at);
      r.1.Answered? ==> db.settlements[x].status == Confirmed && StatesPayment(r.1.body, service, db, x)
  {
    hide CompleteDelivery;
  }

  /** What a server ends with that answers this. */
  function Answering(service: Service, x: SettlementId, a: Answer): DeliverPc
    requires a.Answered? || a.NotServed?
  {
    match a
    case Answered(body) => Served(service, x, body)
    case NotServed(error) => Refused(service, x, error)
  }

  lemma NothingToComplete(cfg: Setup, s: Sys, d: nat)
    requires d in s.deliverers && s.deliverers[d].Refused?
    ensures Step(cfg, s, DeliverComplete(d)) == s
  {
  }

  /** One retrieval is its server's three events, taken without interruption. */
  lemma RetrievalIsThreeEvents(cfg: Setup, s: Sys, d: nat, service: Service, x: SettlementId, m: string)
    requires service in cfg.services && d !in s.deliverers && PaidTo(s.db, x, m)
    ensures var r, t := Retrieve(service, s.db, x, m, s.now),
                        Run(cfg, s, [DeliverBegin(d, service, x, m), DeliverClaim(d), DeliverComplete(d)]);
      && (r.1.Answered? || r.1.NotServed?)
      && t == s.(db := r.0, deliverers := s.deliverers[d := Answering(service, x, r.1)])
  {
    hide Run, Step, ClaimDelivery, CompleteDelivery;
    ThreeEvents(cfg, s, DeliverBegin(d, service, x, m), DeliverClaim(d), DeliverComplete(d));
    var s1 := Begun(cfg, s, d, service, x, m);
    ClaimIs(cfg, s1, d);
    var s2 := Step(cfg, s1, DeliverClaim(d));
    if s2.deliverers[d].Completing? {
      CompleteIs(cfg, s2, d);
    } else {
      NothingToComplete(cfg, s2, d);
    }
  }

  lemma ClaimIs(cfg: Setup, s: Sys, d: nat)
    requires d in s.deliverers && s.deliverers[d].ClaimingDelivery?
    ensures var pc := s.deliverers[d];
      Step(cfg, s, DeliverClaim(d)) ==
      s.(db := ClaimDelivery(s.db, pc.record.settlementId, pc.merchantId, s.now).After(s.db),
         deliverers := s.deliverers[d := NextDeliverer(s, DeliverClaim(d))])
  {
    hide ClaimDelivery;
  }

  lemma CompleteIs(cfg: Setup, s: Sys, d: nat)
    requires d in s.deliverers && s.deliverers[d].Completing?
    ensures var pc := s.deliverers[d];
      Step(cfg, s, DeliverComplete(d)) ==
      s.(db := CompleteDelivery(s.db, pc.settlementId, pc.merchantId, ReportHash(pc.body), s.now).After(s.db),
         deliverers := s.deliverers[d := NextDeliverer(s, DeliverComplete(d))])
  {
    hide CompleteDelivery;
  }

  /* ---------- expiry comes only after the window ---------- */

  /** A delivery that is marked expired is past its window. */
  ghost predicate ExpiredLate(s: Sys) {
    forall x :: x in s.db.deliveries && s.db.deliveries[x].status == DeliveryExpired ==>
        s.db.deliveries[x].retryExpiresAt < s.now
  }

  /** What one transaction can do to a delivery's state. */
  lemma DeliveryTxn(db: Db, t: Txn, x: SettlementId)
    requires x in Exec(db, t).deliveries
    ensures Exec(db, t).deliveries[x].status == DeliveryExpired ==>
              && x in db.deliveries && db.deliveries[x].retryExpiresAt == Exec(db, t).deliveries[x].retryExpiresAt
              && (db.deliveries[x].status == DeliveryExpired
                 || (t.TxClaimDelivery? && db.deliveries[x].retryExpiresAt < t.claimedAt))
    ensures Started(Exec(db, t), x) && x in db.deliveries && !Started(db, x) ==>
              t.TxClaimDelivery? && t.claimedAt <= db.deliveries[x].retryExpiresAt
  {
  }

  lemma ClaimedNow(cfg: Setup, s: Sys, e: Event)
    requires Enabled(cfg, s, e) && TxnOf(cfg, s, e).Some? && TxnOf(cfg, s, e).value.TxClaimDelivery?
    ensures TxnOf(cfg, s, e).value.claimedAt == s.now
  {
    hide Enabled;
  }

  lemma DeliveryEvent(cfg: Setup, s: Sys, e: Event, x: SettlementId)
    requires SysInv(cfg, s) && x in Step(cfg, s, e).db.deliveries
    ensures var n := Step(cfg, s, e); s.now <= n.now
    ensures var d := Step(cfg, s, e).db.deliveries[x];
      d.status == DeliveryExpired ==>
        && x in s.db.deliveries && s.db.deliveries[x].retryExpiresAt == d.retryExpiresAt
        && (s.db.deliveries[x].status == DeliveryExpired || d.retryExpiresAt < s.now)
    ensures Started(Step(cfg, s, e).db, x) && x in s.db.deliveries && !Started(s.db, x) ==>
              s.now <= s.db.deliveries[x].retryExpiresAt
  {
    hide SysInv, Inv, LogInv, Exec, Step, Enabled, TxnOf, Advances, Started;
    EventMovesForward(cfg, s, e);
    if Step(cfg, s, e).db != s.db {
      DeliveryTxn(s.db, TxnOf(cfg, s, e).value, x);
      if TxnOf(cfg, s, e).value.TxClaimDelivery? {
        ClaimedNow(cfg, s, e);
      }
    }
  }

  lemma {:induction false} RunKeepsExpiredLate(cfg: Setup, s: Sys, es: seq<Event>)
    requires SysInv(cfg, s) && ExpiredLate(s)
    ensures ExpiredLate(Run(cfg, s, es))
    decreases |es|
  {
    hide SysInv, Step;
    if es != [] {
      var n := Step(cfg, s, es[0]);
      StepKeepsSysInv(cfg, s, es[0]);
      forall x | x in n.db.deliveries && n.db.deliveries[x].status
          == DeliveryExpired ensures n.db.deliveries[x].retryExpiresAt < n.now {
        DeliveryEvent(cfg, s, es[0], x);
      }
      RunKeepsExpiredLate(cfg, n, es[1..]);
    }
  }

  lemma ReachableExpiredLate(cfg: Setup, s: Sys)
    requires Reachable(cfg, s)
    ensures ExpiredLate(s)
  {
    hide Run, SysInv;
    var chain, es :| s == Run(cfg, Initial(chain), es);
    InitialOk(cfg, chain);
    RunKeepsExpiredLate(cfg, Initial(chain), es);
  }

  /** A delivery not started within its window never starts. */
  predicate Lapsed(s: Sys, x: SettlementId) {
    x in s.db.deliveries && !Started(s.db, x) && s.db.deliveries[x].retryExpiresAt < s.now
  }

  lemma {:induction false} LapsedStays(cfg: Setup, s: Sys, es: seq<Event>, x: SettlementId)
    requires SysInv(cfg, s) && Lapsed(s, x)
    ensures Lapsed(Run(cfg, s, es), x)
    decreases |es|
  {
    hide SysInv, Step, Inv, LogInv, Started;
    if es != [] {
      var n := Step(cfg, s, es[0]);
      StepKeepsSysInv(cfg, s, es[0]);
      EventMovesForward(cfg, s, es[0]);
      DeliveryEvent(cfg, s, es[0], x);
      LapsedStays(cfg, n, es[1..], x);
    }
  }

  lemma {:induction false} StartedForGood(cfg: Setup, s: Sys, es: seq<Event>, x: SettlementId)
    requires SysInv(cfg, s) && Started(s.db, x)
    ensures Started(Run(cfg, s, es).db, x)
    decreases |es|
  {
    hide SysInv, Step, Started;
    if es != [] {
      StepKeepsSysInv(cfg, s, es[0]);
      StartsKept(cfg, s, es[0]);
      StartedForGood(cfg, Step(cfg, s, es[0]), es[1..], x);
    }
  }

  /* ---------- the answers ---------- */

  lemma StoredIsOurs(cfg: Setup, s: Sys, x: SettlementId, service: Service)
    requires SysInv(cfg, s) && OneService(cfg) && service in cfg.services
    requires x in s.db.deliveries && s.db.deliveries[x].status == Delivered
    ensures ServedBy(s.db, x, service)
  {
    hide Inv, LogInv, WorkersOk, ReceiptsCanonical, SettlersOk, PostingsOk, DeliverersOk;
    assert DigestsOk(cfg, s.db);
  }

  /** With one service: a confirmed settlement is answered with its report exactly if its delivery was started, or its
      window is still open; otherwise it has expired. The answer that delivers states the settlement's payment and
      receipt, and starts the delivery. */
  lemma RetrievalDecided(cfg: Setup, s: Sys, x: SettlementId, m: string, service: Service)
    requires Reachable(cfg, s) && OneService(cfg) && service in cfg.services && MerchantIs(s.db, x, m)
    ensures s.db.settlements[x].status == Confirmed ==>
              var r := Retrieve(service, s.db, x, m, s.now);
              && Paid(s.db, x)
              && r.1 == (if Started(s.db, x) || s.now <= s.db.deliveries[x].retryExpiresAt
                 then Answered(BodyOf(service, s.db, x))
                         else NotServed(DeliveryWindowExpired))
              && (r.1.Answered? ==> Started(r.0, x) && StatesPayment(r.1.body, service, s.db, x))
  {
    hide SysInv, Reachable, Inv, OneService;
    ReachableOk(cfg, s);
    ReachableExpiredLate(cfg, s);
    InvOf(cfg, s);
    if s.db.settlements[x].status == Confirmed {
      ConfirmedIsPaidTo(s.db, x, m);
      PaidAnswer(service, s.db, x, m, s.now);
      hide Retrieve;
      if s.db.deliveries[x].status == Delivered {
        StoredIsOurs(cfg, s, x, service);
      }
    }
  }

  lemma MerchantStays(a: Db, b: Db, x: SettlementId, m: string)
    requires Advances(a, b) && MerchantIs(a, x, m)
    ensures MerchantIs(b, x, m)
    ensures !Active(a.settlements[x].status) ==> b.settlements[x] == a.settlements[x]
    ensures x in a.receipts ==> x in b.receipts && b.receipts[x] == a.receipts[x]
    ensures x in a.deliveries ==> x in b.deliveries && b.deliveries[x].retryExpiresAt == a.deliveries[x].retryExpiresAt
  {
  }

  /** Over any run: a failure and an expired delivery are final, and so is a delivered report; an answer that would
      deliver can only turn into an expiry, if nobody retrieves before the window closes. */
  lemma AnswersAreFinal(cfg: Setup, s: Sys, es: seq<Event>, x: SettlementId, m: string, service: Service)
    requires Reachable(cfg, s) && OneService(cfg) && service in cfg.services && MerchantIs(s.db, x, m)
    ensures var t := Run(cfg, s, es);
      && MerchantIs(t.db, x, m)
      && var a, b := Retrieve(service, s.db, x, m, s.now).1, Retrieve(service, t.db, x, m, t.now).1;
      && (a.SettlementFailed? || a.NotServed? ==> b == a)
      && (a.NotServed? ==> a.error == DeliveryWindowExpired)
      && (Started(s.db, x) ==> a.Answered? && b == a)
      && (a.Answered? ==> b == a || (b == NotServed(DeliveryWindowExpired) && Lapsed(t, x)))
  {
    hide SysInv, Reachable, Inv, OneService, Run, Advances, Retrieve, Started;
    var t := Run(cfg, s, es);
    ReachableOk(cfg, s);
    RunAdvances(cfg, s, es);
    ServiceWitnesses.ReachesOn(cfg, s, es);
    MerchantStays(s.db, t.db, x, m);
    RetrievalDecided(cfg, s, x, m, service);
    RetrievalDecided(cfg, t, x, m, service);
    StatusAnswer(service, s.db, t.db, x, m, s.now, t.now);
    StartedIsConfirmed(cfg, s, x);
    if s.db.settlements[x].status == Confirmed {
      if Started(s.db, x) {
        StartedForGood(cfg, s, es, x);
      } else if s.db.deliveries[x].retryExpiresAt < s.now {
        LapsedStays(cfg, s, es, x);
      }
    }
  }

  lemma StartedIsConfirmed(cfg: Setup, s: Sys, x: SettlementId)
    requires SysInv(cfg, s) && x in s.db.settlements
    ensures Started(s.db, x) ==> s.db.settlements[x].status == Confirmed
  {
    hide Inv;
    InvOf(cfg, s);
    SettlementMeaning(s.db, x);
  }

  lemma StatusAnswer(service: Service, db: Db, next: Db, x: SettlementId, m: string, at: Time, later: Time)
    requires x in db.settlements && x in next.settlements
    requires !Active(db.settlements[x].status) ==> next.settlements[x] == db.settlements[x]
    ensures db.settlements[x].status != Confirmed ==>
              var a, b := Retrieve(service, db, x, m, at).1, Retrieve(service, next, x, m, later).1;
              !a.Answered? && !a.NotServed? && (a.SettlementFailed? ==> b == a)
    ensures db.settlements[x].status == Confirmed ==> !Retrieve(service, db, x, m, at).1.SettlementFailed?
  {
  }
}
