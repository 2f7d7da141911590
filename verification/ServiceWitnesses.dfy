/** A complete payment: a run of the service machine from the empty ledger to a confirmed settlement with an open
    delivery. */
module ServiceWitnesses {
  import opened Basics
  import opened Ledger
  import opened Database
  import opened Reconciliation
  import opened Chain
  import opened SettlementService
  import opened Services
  import opened ServiceTheorems

  lemma {:induction false} RunsOn(cfg: Setup, s: Sys, es: seq<Event>, fs: seq<Event>)
    ensures Run(cfg, s, es + fs) == Run(cfg, Run(cfg, s, es), fs)
    decreases |es|
  {
    hide Step;
    if es == [] {
      assert es + fs == fs;
    } else {
      RunsOn(cfg, Step(cfg, s, es[0]), es[1..], fs);
      assert (es + fs)[1..] == es[1..] + fs;
    }
  }

  lemma ReachesOn(cfg: Setup, s: Sys, es: seq<Event>)
    requires Reachable(cfg, s)
    ensures Reachable(cfg, Run(cfg, s, es))
  {
    hide Run;
    var chain, first :| s == Run(cfg, Initial(chain), first);
    RunsOn(cfg, Initial(chain), first, es);
  }

  lemma OneEvent(cfg: Setup, s: Sys, e: Event)
    ensures Run(cfg, s, [e]) == Step(cfg, s, e)
  {
    hide Step;
    assert [e][1..] == [];
  }

  lemma Reaches(cfg: Setup, s: Sys, e: Event)
    requires Reachable(cfg, s)
    ensures Reachable(cfg, Step(cfg, s, e))
  {
    hide Reachable, Run, Step;
    OneEvent(cfg, s, e);
    ReachesOn(cfg, s, [e]);
  }

  function Zeros(n: nat): (s: string)
    ensures |s| == n && forall i :: 0 <= i < n ==> s[i] == '0'
  {
    if n == 0 then "" else Zeros(n - 1) + "0"
  }

  const TXID := "0x" + Zeros(64)
  const SID := "ns_" + Zeros(32)

  function Depth(cfg: Setup): nat {
    Max(cfg.worker.minConfirmations, 1)
  }

  /** The payment is in the lowest of just enough blocks. */
  function Mined(cfg: Setup): Blocks {
    Uniform(Depth(cfg), "b", TXID)
  }

  function Terms(cfg: Setup): QuoteTerms {
    QuoteTerms("m", "a", "GET", "u", "h", cfg.network, "STX", 1, "p", "f", "t", 0, 1000)
  }

  function Token(cfg: Setup): VerifiedToken {
    VerifiedToken("m", "a", "q", "m", "GET", "u", "h", cfg.network, "STX", 1, "p", 0, 1)
  }

  function Paying(cfg: Setup): Payment {
    Payment("q", cfg.network, TXID, "payer", "raw")
  }

  function Quoted(cfg: Setup): Db {
    EMPTY_DB.(quotes := map["q" := Quote(Terms(cfg), Issued)])
  }

  function ReservedDb(cfg: Setup): Db {
    InsertSettlement(Quoted(cfg), SID, Paying(cfg), 0)
  }

  /** The caller posted the payment and stopped before recording that. */
  function Posted(cfg: Setup): Sys {
    Sys(ReservedDb(cfg), 0, Mined(cfg), map[0 := Recording(SID, Paying(cfg), Accepted(TXID), 0)],
        [Sent(SID, Paying(cfg))], map[], map[])
  }

  lemma PostedReachable(cfg: Setup)
    ensures Reachable(cfg, Posted(cfg))
  {
    var s0 := Initial(Mined(cfg));
    assert Run(cfg, s0, []) == s0;
    hide Reachable, Run;
    var s1 := s0.(db := Quoted(cfg));
    Reaches(cfg, s0, QuoteIssued("q", Terms(cfg)));
    assert Step(cfg, s0, QuoteIssued("q", Terms(cfg))) == s1;
    SettleRuns(cfg, s1);
  }

  lemma SettleRuns(cfg: Setup, s: Sys)
    requires Reachable(cfg, s) && s == Initial(Mined(cfg)).(db := Quoted(cfg))
    ensures Reachable(cfg, Posted(cfg))
  {
    hide Reachable;
    var begin := SettleBegin(0, Merchant("m", {"a"}), Token(cfg), "t", Paying(cfg), SID);
    var reservation := Reservation(SID, "m", Paying(cfg), "t");
    var s2 := s.(settlers := map[0 := Reserving(reservation)]);
    Reaches(cfg, s, begin);
    assert Step(cfg, s, begin) == s2;
    var s3 := s2.(db := ReservedDb(cfg), settlers := map[0 := Broadcasting(SID, Paying(cfg))]);
    Reaches(cfg, s2, SettleReserve(0));
    assert Step(cfg, s2, SettleReserve(0)) == s3;
    Reaches(cfg, s3, SettleBroadcast(0, Accepted(TXID)));
    assert Step(cfg, s3, SettleBroadcast(0, Accepted(TXID))) == Posted(cfg);
  }

  function Cand(cfg: Setup): Candidate {
    Candidate(SID, Paying(cfg), Terms(cfg))
  }

  function Leasing(cfg: Setup): Db {
    ClaimSettlements(ReservedDb(cfg), {SID}, cfg.worker.leaseMs)
  }

  /** The worker has claimed the settlement, whose broadcast is not recorded, and is about to ask the chain about it. */
  function Asking(cfg: Setup): Sys {
    Posted(cfg).(db := Leasing(cfg), workers := map[0 := Observing([], Cand(cfg), 0)])
  }

  lemma AskingReachable(cfg: Setup)
    requires cfg.worker.batchSize >= 1
    ensures Reachable(cfg, Asking(cfg))
  {
    PostedReachable(cfg);
    hide Reachable;
    var s := Posted(cfg);
    var s1 := s.(workers := map[0 := Claiming(0)]);
    Reaches(cfg, s, WorkerBegin(0));
    assert Step(cfg, s, WorkerBegin(0)) == s1;
    var s2 := s1.(db := Leasing(cfg), workers := map[0 := Loading({SID})]);
    assert DueSet(s1.db, 0, {}) == {SID};
    Reaches(cfg, s1, WorkerClaim(0, {}, {SID}));
    assert Step(cfg, s1, WorkerClaim(0, {}, {SID})) == s2;
    LoadAndCheck(cfg, s2);
  }

  lemma LoadStep(cfg: Setup, s: Sys)
    requires s == Posted(cfg).(db := Leasing(cfg), workers := map[0 := Loading({SID})])
    ensures Step(cfg, s, WorkerLoad(0, [Cand(cfg)])) == s.(workers := map[0 := Looping([Cand(cfg)])])
  {
    hide Leasing, Mined, Cand, CandidateTrue;
    LeasedCandidate(cfg);
    assert [Cand(cfg)][0] == Cand(cfg);
  }

  lemma LeasedCandidate(cfg: Setup)
    ensures CandidateTrue(Leasing(cfg), Cand(cfg)) && Cand(cfg).settlementId == SID
  {
  }

  lemma CheckStep(cfg: Setup, s: Sys)
    requires s == Posted(cfg).(db := Leasing(cfg), workers := map[0 := Looping([Cand(cfg)])])
    ensures Step(cfg, s, WorkerCheck(0)) == Asking(cfg)
  {
    hide Leasing, NextDb, Cand, Report, Observe;
    assert [Cand(cfg)][1..] == [];
  }

  lemma LoadAndCheck(cfg: Setup, s: Sys)
    requires Reachable(cfg, s) && s == Posted(cfg).(db := Leasing(cfg), workers := map[0 := Loading({SID})])
    ensures Reachable(cfg, Asking(cfg))
  {
    hide Reachable, Step, Enabled, Posted, Leasing, Asking;
    LoadStep(cfg, s);
    Reaches(cfg, s, WorkerLoad(0, [Cand(cfg)]));
    var s3 := s.(workers := map[0 := Looping([Cand(cfg)])]);
    CheckStep(cfg, s3);
    Reaches(cfg, s3, WorkerCheck(0));
  }

  function Answer(): TxResponse {
    TxResponse(200, Some(TxBody(TXID, "success", Some(0), Some("b"))))
  }

  function Tip(cfg: Setup): InfoResponse {
    InfoResponse(200, Some(Depth(cfg) - 1))
  }

  function Confirming(cfg: Setup): Observed {
    Report(cfg.worker, Cand(cfg), 0, ChainConfirmed(0, "b", Depth(cfg)))
  }

  lemma Digits()
    ensures IsTxid(TXID)
  {
    forall i | 2 <= i < 66 ensures TXID[i] == '0' {
      assert TXID[i] == Zeros(64)[i - 2];
    }
  }

  lemma ChainConfirms(cfg: Setup)
    ensures Observe(TXID, Answer(), Tip(cfg), cfg.worker.minConfirmations) == ChainConfirmed(0, "b", Depth(cfg))
    ensures HonestTx(Mined(cfg), TXID, Answer()) && HonestInfo(Mined(cfg), Tip(cfg))
  {
    Digits();
    assert |Mined(cfg)| == Depth(cfg) && Mined(cfg)[0] == Block("b", {TXID});
    assert !StartsWith("success", "abort") by { assert "success"[0] != "abort"[0]; }
    assert !StartsWith("success", "drop") by { assert "success"[0] != "drop"[0]; }
  }

  /** Confirmed, with its receipt and a delivery nobody has claimed yet. */
  function Deliverable(cfg: Setup): Sys {
    Asking(cfg).(db := AppliedSettled(Leasing(cfg), Confirming(cfg)), workers := map[0 := Looping([])])
  }

  lemma ObserveStep(cfg: Setup)
    ensures Step(cfg, Asking(cfg), WorkerObserve(0, Answer(), Tip(cfg))) ==
            Asking(cfg).(workers := map[0 := Applying([], Confirming(cfg))])
  {
    ChainConfirms(cfg);
    hide Observe, HonestTx, HonestInfo, Report, Mined, ReservedDb, Leasing;
  }

  lemma ApplyStep(cfg: Setup, s: Sys)
    requires s == Asking(cfg).(workers := map[0 := Applying([], Confirming(cfg))])
    ensures Step(cfg, s, WorkerApply(0)) == Deliverable(cfg)
  {
    hide Observe, Mined;
  }

  lemma ConfirmedReachable(cfg: Setup)
    requires cfg.worker.batchSize >= 1
    ensures Reachable(cfg, Deliverable(cfg))
  {
    hide Reachable, Step, Enabled, Asking, Deliverable, Confirming;
    AskingReachable(cfg);
    ObserveStep(cfg);
    Reaches(cfg, Asking(cfg), WorkerObserve(0, Answer(), Tip(cfg)));
    var s := Asking(cfg).(workers := map[0 := Applying([], Confirming(cfg))]);
    ApplyStep(cfg, s);
    Reaches(cfg, s, WorkerApply(0));
  }

  /** What the run ends in. */
  lemma OpenDeliveryReachable(cfg: Setup) returns (s: Sys)
    requires cfg.worker.batchSize >= 1
    ensures Reachable(cfg, s) && SID in s.db.settlements && s.db.settlements[SID].status == Confirmed
        && DeliveryVisible(s.db, SID, "m")
    ensures s.db.deliveries[SID].status == DeliveryPending && s.now <= s.db.deliveries[SID].retryExpiresAt
        && s.deliverers == map[]
  {
    ConfirmedReachable(cfg);
    s := Deliverable(cfg);
    Delivery(cfg);
    hide Reachable, Deliverable;
  }

  lemma Delivery(cfg: Setup)
    ensures var s := Deliverable(cfg);
      && SID in s.db.settlements && s.db.settlements[SID].status == Confirmed && DeliveryVisible(s.db, SID, "m")
      && s.db.deliveries[SID].status == DeliveryPending && s.now <= s.db.deliveries[SID].retryExpiresAt
      && s.deliverers == map[]
  {
    var db := Leasing(cfg);
    assert SID in db.settlements && db.settlements[SID].payment == Paying(cfg) && db.quotes["q"].terms == Terms(cfg);
    assert Confirming(cfg).receipt.settlementId == SID;
    var next := AppliedSettled(db, Confirming(cfg));
    assert next.settlements[SID] == ConfirmedRow(db.settlements[SID], 0, 0, "b");
  }
}
