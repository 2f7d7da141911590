/** When resource services over one ledger conflict, and a run in which they do. */
module Deliveries {
  import opened Ledger
  import opened LedgerInvariants
  import opened Services
  import opened ServiceInvariants
  import opened ServiceTheorems
  import opened ServiceWitnesses

  /* ---------- services that conflict ---------- */

  /** Some server was refused because another body had been stored. */
  ghost predicate Conflicted(s: Sys) {
    exists d :: d in s.deliverers && s.deliverers[d].Refused? && s.deliverers[d].error == DeliveryDigestConflict
  }

  /** The confirmed settlement's delivery was started, or can be now. */
  predicate Claimable(db: Db, x: SettlementId, at: Time) {
    Started(db, x) || (x in db.deliveries && db.deliveries[x].status == DeliveryPending
        && at <= db.deliveries[x].retryExpiresAt)
  }

  predicate PaidTo(db: Db, x: SettlementId, m: string) {
    x in db.settlements && db.settlements[x].status == Confirmed && DeliveryVisible(db, x, m)
  }

  lemma BodiesDiffer(a: Service, b: Service, db: Db, x: SettlementId)
    requires x in db.settlements && x in db.receipts
    ensures BodyOf(a, db, x) == BodyOf(b, db, x) <==> a == b
  {
  }

  lemma {:induction false} FreshNumber(taken: set<nat>) returns (d: nat)
    ensures d !in taken && forall k :: k in taken ==> k < d
    decreases |taken|
  {
    if taken == {} {
      d := 0;
    } else {
      var k :| k in taken;
      var e := FreshNumber(taken - {k});
      d := if k < e then e else k + 1;
      assert forall j :: j in taken ==> j == k || j in taken - {k};
    }
  }

  /** One server serving the settlement from beginning to end. */
  lemma Serves(cfg: Setup, s: Sys, d: nat, service: Service, x: SettlementId, m: string) returns (t: Sys)
    requires Inv(s.db) && service in cfg.services && d !in s.deliverers && PaidTo(s.db, x, m)
        && Claimable(s.db, x, s.now)
    ensures t == Run(cfg, s, [DeliverBegin(d, service, x, m), DeliverClaim(d), DeliverComplete(d)])
    ensures PaidTo(t.db, x, m) && t.db.deliveries[x].status == Delivered && t.now == s.now
    ensures d in t.deliverers && t.deliverers.Keys == s.deliverers.Keys + {d}
    ensures forall other :: other in cfg.services && ServedBy(s.db, x, other) ==> ServedBy(t.db, x, other)
    ensures if ServedBy(t.db, x, service) then t.deliverers[d] == Served(service, x, BodyOf(service, t.db, x))
            else t.deliverers[d] == Refused(service, x, DeliveryDigestConflict)
  {
    var e1, e2, e3 := DeliverBegin(d, service, x, m), DeliverClaim(d), DeliverComplete(d);
    hide Run, Step, Inv;
    var s1 := Begun(cfg, s, d, service, x, m);
    var s2 := Claimed(cfg, s1, s, d, service, x, m);
    t := Completed(cfg, s2, d, service, x, m);
    StillServed(cfg, s, s2, t, x);
    ThreeEvents(cfg, s, e1, e2, e3);
  }

  lemma ThreeEvents(cfg: Setup, s: Sys, a: Event, b: Event, c: Event)
    ensures Run(cfg, s, [a, b, c]) == Step(cfg, Step(cfg, Step(cfg, s, a), b), c)
  {
    hide Step, Run;
    assert [a, b, c] == [a] + ([b] + [c]);
    RunsOn(cfg, s, [a], [b] + [c]);
    OneEvent(cfg, s, a);
    RunsOn(cfg, Step(cfg, s, a), [b], [c]);
    OneEvent(cfg, Step(cfg, s, a), b);
    OneEvent(cfg, Step(cfg, Step(cfg, s, a), b), c);
  }

  lemma Begun(cfg: Setup, s: Sys, d: nat, service: Service, x: SettlementId, m: string) returns (t: Sys)
    requires service in cfg.services && d !in s.deliverers && PaidTo(s.db, x, m)
    ensures t == Step(cfg, s, DeliverBegin(d, service, x, m))
    ensures t == s.(deliverers := s.deliverers[d := ClaimingDelivery(service, Select(s.db, x), m)])
  {
    t := Step(cfg, s, DeliverBegin(d, service, x, m));
  }

  lemma Claimed(cfg: Setup, s: Sys, before: Sys, d: nat, service: Service, x: SettlementId, m: string) returns (t: Sys)
    requires PaidTo(before.db, x, m) && Claimable(before.db, x, before.now)
    requires s == before.(deliverers := before.deliverers[d := ClaimingDelivery(service, Select(before.db, x), m)])
    ensures t == Step(cfg, s, DeliverClaim(d)) && t.now == s.now
    ensures PaidTo(t.db, x, m) && Started(t.db, x)
    ensures t.db.settlements == s.db.settlements && t.db.receipts == s.db.receipts
    ensures t.db.deliveries[x].responseDigest == s.db.deliveries[x].responseDigest
    ensures s.db.deliveries[x].status == Delivered ==> t.db == s.db
    ensures t.deliverers == before.deliverers[d := Completing(service, x, m, BodyOf(service, t.db, x))]
  {
    t := Step(cfg, s, DeliverClaim(d));
    assert Enabled(cfg, s, DeliverClaim(d));
    ClaimInTime(s.db, x, m, s.now);
    hide ClaimDelivery;
  }

  lemma ClaimInTime(db: Db, x: SettlementId, m: string, at: Time)
    requires PaidTo(db, x, m) && Claimable(db, x, at)
    ensures var out := ClaimDelivery(db, x, m, at);
      && out.Commit? && out.value.receipt == db.receipts[x] && out.value.delivery.status != DeliveryExpired
      && PaidTo(out.db, x, m) && Started(out.db, x)
      && out.db.settlements == db.settlements && out.db.receipts == db.receipts
      && out.db.deliveries[x].responseDigest == db.deliveries[x].responseDigest
      && (db.deliveries[x].status == Delivered ==> out.db == db)
  {
  }

  lemma Completed(cfg: Setup, s: Sys, d: nat, service: Service, x: SettlementId, m: string) returns (t: Sys)
    requires PaidTo(s.db, x, m) && Started(s.db, x)
    requires d in s.deliverers && s.deliverers[d] == Completing(service, x, m, BodyOf(service, s.db, x))
    ensures t == Step(cfg, s, DeliverComplete(d)) && t.now == s.now
    ensures PaidTo(t.db, x, m) && t.db.deliveries[x].status == Delivered
    ensures t.db.settlements == s.db.settlements && t.db.receipts == s.db.receipts
    ensures s.db.deliveries[x].status == Delivered ==> t.db == s.db
    ensures t.deliverers.Keys == s.deliverers.Keys
    ensures if ServedBy(t.db, x, service) then t.deliverers[d] == Served(service, x, BodyOf(service, t.db, x))
            else t.deliverers[d] == Refused(service, x, DeliveryDigestConflict)
  {
    hide Step, CompleteDelivery;
    t := Step(cfg, s, DeliverComplete(d));
    assert Enabled(cfg, s, DeliverComplete(d));
    DeliverStep(cfg, s, DeliverComplete(d));
    StepTime(cfg, s, DeliverComplete(d));
    CompleteServes(service, s.db, x, m, s.now);
    CompleteKeeps(s.db, x, m, ReportHash(BodyOf(service, s.db, x)), s.now);
  }

  lemma StepTime(cfg: Setup, s: Sys, e: Event)
    requires !e.Tick?
    ensures Step(cfg, s, e).now == s.now
  {
    hide Enabled, NextDb, NextSettler, NextDeliverer;
  }

  lemma CompleteKeeps(db: Db, x: SettlementId, m: string, digest: Hash, at: Time)
    requires PaidTo(db, x, m)
    ensures var next := CompleteDelivery(db, x, m, digest, at).After(db);
      PaidTo(next, x, m) && next.settlements == db.settlements && next.receipts == db.receipts
      && (db.deliveries[x].status == Delivered ==> next == db)
  {
  }

  lemma StillServed(cfg: Setup, s: Sys, t: Sys, u: Sys, x: SettlementId)
    requires Inv(s.db) && Paid(s.db, x) && Paid(t.db, x) && Paid(u.db, x)
    requires t.db.settlements == s.db.settlements && t.db.receipts == s.db.receipts
    requires u.db.settlements == s.db.settlements && u.db.receipts == s.db.receipts
    requires t.db.deliveries[x].responseDigest == s.db.deliveries[x].responseDigest && Started(t.db, x)
    requires t.db.deliveries[x].status == Delivered ==> u.db == t.db
    requires s.db.deliveries[x].status == Delivered ==> t.db.deliveries[x].status == Delivered
    ensures forall other :: other in cfg.services && ServedBy(s.db, x, other) ==> ServedBy(u.db, x, other)
  {
    assert DeliveryOk(s.db.deliveries[x]);
  }

  /** Two servings by different services: the second is refused, unless the first already was. */
  lemma SecondServiceConflicts(cfg: Setup, s: Sys, a: Service, b: Service, x: SettlementId, m: string)
      returns (es: seq<Event>)
    requires SysInv(cfg, s) && a in cfg.services && b in cfg.services && a != b
    requires PaidTo(s.db, x, m) && Claimable(s.db, x, s.now)
    ensures Conflicted(Run(cfg, s, es))
  {
    hide SysInv, Run, Conflicted;
    InvOf(cfg, s);
    var d := FreshNumber(s.deliverers.Keys);
    es := [DeliverBegin(d, a, x, m), DeliverClaim(d), DeliverComplete(d)];
    var t := Serves(cfg, s, d, a, x, m);
    if ServedBy(t.db, x, a) {
      RunKeepsSysInv(cfg, s, es);
      InvOf(cfg, t);
      var e := FreshNumber(t.deliverers.Keys);
      var u := Serves(cfg, t, e, b, x, m);
      BodiesDiffer(a, b, u.db, x);
      IsConflicted(u, e);
      RunsOn(cfg, s, es, [DeliverBegin(e, b, x, m), DeliverClaim(e), DeliverComplete(e)]);
      es := es + [DeliverBegin(e, b, x, m), DeliverClaim(e), DeliverComplete(e)];
    } else {
      IsConflicted(t, d);
    }
  }

  lemma IsConflicted(s: Sys, d: nat)
    requires d in s.deliverers && s.deliverers[d].Refused? && s.deliverers[d].error == DeliveryDigestConflict
    ensures Conflicted(s)
  {
  }

  lemma InvOf(cfg: Setup, s: Sys)
    requires SysInv(cfg, s)
    ensures Inv(s.db)
  {
    hide Inv;
  }

  /** From any state with a confirmed settlement that can still be delivered, some run ends in a conflict exactly when
      two services serve different bodies. */
  lemma ConflictAheadIff(cfg: Setup, s: Sys, x: SettlementId, m: string)
    requires Reachable(cfg, s) && PaidTo(s.db, x, m) && Claimable(s.db, x, s.now)
    ensures (exists es :: Conflicted(Run(cfg, s, es))) <==> !OneService(cfg)
  {
    hide Reachable, Run, Conflicted, SysInv;
    ReachableOk(cfg, s);
    if OneService(cfg) {
      forall es ensures !Conflicted(Run(cfg, s, es)) {
        ReachesOn(cfg, s, es);
        NoConflict(cfg, Run(cfg, s, es));
      }
    } else {
      var a, b :| a in cfg.services && b in cfg.services && a != b;
      var es := SecondServiceConflicts(cfg, s, a, b, x, m);
    }
  }

  lemma NoConflict(cfg: Setup, s: Sys)
    requires Reachable(cfg, s) && OneService(cfg)
    ensures !Conflicted(s)
  {
    hide Reachable, OneService;
    forall d | d in s.deliverers && s.deliverers[d].Refused? ensures s.deliverers[d].error != DeliveryDigestConflict {
      DeliveryNeverConflicts(cfg, s, d);
    }
  }

  /** Over all runs from the empty ledger: a digest conflict can happen exactly when the deployed services differ. */
  lemma ConflictsIffServicesDiffer(cfg: Setup)
    requires cfg.worker.batchSize >= 1
    ensures (exists s :: Reachable(cfg, s) && Conflicted(s)) <==> !OneService(cfg)
  {
    hide Reachable, Run, Conflicted;
    if OneService(cfg) {
      forall s | Reachable(cfg, s) ensures !Conflicted(s) {
        NoConflict(cfg, s);
      }
    } else {
      var s := OpenDeliveryReachable(cfg);
      ConflictAheadIff(cfg, s, SID, "m");
      var es :| Conflicted(Run(cfg, s, es));
      ReachesOn(cfg, s, es);
    }
  }

  /** One x402 and one MPP service over the same ledger do conflict. */
  lemma TwoProtocolsConflict(cfg: Setup, x402: string, mpp: string) returns (s: Sys)
    requires cfg.worker.batchSize >= 1 && X402Service(x402) in cfg.services && MppService(mpp) in cfg.services
    ensures Reachable(cfg, s) && Conflicted(s)
  {
    hide Reachable, Conflicted;
    assert X402Service(x402) != MppService(mpp);
    ConflictsIffServicesDiffer(cfg);
    s :| Reachable(cfg, s) && Conflicted(s);
  }
}
