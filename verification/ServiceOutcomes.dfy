/** From what the outside world answers to what the tables say, whatever else runs between a call and its record. */
module ServiceOutcomes {
  import opened Basics
  import opened Ledger
  import opened LedgerInvariants
  import opened LedgerLog
  import opened LedgerTheorems
  import opened Database
  import opened Reconciliation
  import opened SettlementService
  import opened Services
  import opened ServiceInvariants
  import opened ServiceTheorems

  /* ---------- only validated quotes are settled ---------- */

  /** The quote is one of this service's network. */
  predicate OfNetwork(quotes: Quotes, q: QuoteId, network: string) {
    q in quotes && quotes[q].terms.network == network
  }

  /** The caller's quote was found to be this merchant's, under this token, and of the network. */
  predicate Validly(quotes: Quotes, pc: SettlePc, network: string) {
    pc.Reserving? ==>
      && OfNetwork(quotes, pc.reservation.payment.quoteId, network)
      && var terms := quotes[pc.reservation.payment.quoteId].terms;
      && terms.merchantId == pc.reservation.merchantId
      && terms.signedTokenHash == pc.reservation.expectedSignedTokenHash
  }

  ghost predicate AllValidated(cfg: Setup, s: Sys) {
    && (forall x :: x in s.db.settlements ==>
          OfNetwork(s.db.quotes, s.db.settlements[x].payment.quoteId, cfg.network))
    && (forall c :: c in s.settlers ==> Validly(s.db.quotes, s.settlers[c], cfg.network))
  }

  /** Only a reservation brings a settlement. */
  lemma NewSettlementIsReserved(db: Db, t: Txn, x: SettlementId)
    requires x in Exec(db, t).settlements && x !in db.settlements
    ensures t.TxReserve? && Exec(db, t).settlements[x].payment == t.reservation.payment
  {
  }

  lemma RowsValidated(cfg: Setup, s: Sys, e: Event, x: SettlementId)
    requires SysInv(cfg, s) && AllValidated(cfg, s) && x in Step(cfg, s, e).db.settlements
    ensures OfNetwork(Step(cfg, s, e).db.quotes, Step(cfg, s, e).db.settlements[x].payment.quoteId, cfg.network)
  {
    hide SysInv, Step, Enabled, TxnOf, Exec;
    var n := Step(cfg, s, e);
    EventMovesForward(cfg, s, e);
    if x !in s.db.settlements {
      NewSettlementIsReserved(s.db, TxnOf(cfg, s, e).value, x);
      ReserveEvent(cfg, s, e);
    }
  }

  lemma ReserveEvent(cfg: Setup, s: Sys, e: Event)
    requires Enabled(cfg, s, e) && TxnOf(cfg, s, e).Some? && TxnOf(cfg, s, e).value.TxReserve?
    ensures e.SettleReserve? && e.c in s.settlers && s.settlers[e.c].Reserving?
    ensures TxnOf(cfg, s, e).value.reservation == s.settlers[e.c].reservation
  {
  }

  lemma BeginValidates(cfg: Setup, s: Sys, e: Event)
    requires Enabled(cfg, s, e) && e.SettleBegin?
    ensures Validly(s.db.quotes, Reserving(Reservation(e.settlementId, e.merchant.merchantId, e.payment, e.tokenHash)),
              cfg.network)
  {
    QuoteRefusedIff(s.db, cfg.network, e.merchant, Some(e.token), e.tokenHash, true, s.now);
    hide ValidateQuote;
  }

  lemma CallersValidated(cfg: Setup, s: Sys, e: Event, c: nat)
    requires SysInv(cfg, s) && AllValidated(cfg, s) && c in Step(cfg, s, e).settlers
    ensures Validly(Step(cfg, s, e).db.quotes, Step(cfg, s, e).settlers[c], cfg.network)
  {
    hide SysInv, Step, Enabled;
    EventMovesForward(cfg, s, e);
    CallerMoves(cfg, s, e, c);
    if Enabled(cfg, s, e) && e.SettleBegin? && e.c == c {
      BeginValidates(cfg, s, e);
    }
  }

  lemma CallerMoves(cfg: Setup, s: Sys, e: Event, c: nat)
    requires c in Step(cfg, s, e).settlers
    ensures var pc := Step(cfg, s, e).settlers[c];
      || !pc.Reserving?
      || (c in s.settlers && pc == s.settlers[c])
      || (&& Enabled(cfg, s, e) && e.SettleBegin? && e.c == c
          && pc == Reserving(Reservation(e.settlementId, e.merchant.merchantId, e.payment, e.tokenHash)))
  {
    hide NextDb, Report, Observe, NextDeliverer;
  }

  lemma {:induction false} RunKeepsValidated(cfg: Setup, s: Sys, es: seq<Event>)
    requires SysInv(cfg, s) && AllValidated(cfg, s)
    ensures AllValidated(cfg, Run(cfg, s, es))
    decreases |es|
  {
    hide SysInv, Step;
    if es != [] {
      var n := Step(cfg, s, es[0]);
      StepKeepsSysInv(cfg, s, es[0]);
      forall x | x in n.db.settlements ensures OfNetwork(n.db.quotes, n.db.settlements[x].payment.quoteId,
          cfg.network) {
        RowsValidated(cfg, s, es[0], x);
      }
      forall c | c in n.settlers ensures Validly(n.db.quotes, n.settlers[c], cfg.network) {
        CallersValidated(cfg, s, es[0], c);
      }
      RunKeepsValidated(cfg, n, es[1..]);
    }
  }

  /** In every run a settlement exists, and a payment is posted, only for a quote of the service's own network; a caller
      about to reserve holds one that is its merchant's, under the token it showed. */
  lemma OnlyValidatedQuotesAreSettled(cfg: Setup, s: Sys)
    requires Reachable(cfg, s)
    ensures forall x :: x in s.db.settlements ==>
        OfNetwork(s.db.quotes, s.db.settlements[x].payment.quoteId, cfg.network)
    ensures forall i :: 0 <= i < |s.sent| ==> OfNetwork(s.db.quotes, s.sent[i].payment.quoteId, cfg.network)
    ensures forall c :: c in s.settlers ==> Validly(s.db.quotes, s.settlers[c], cfg.network)
  {
    hide Run, SysInv, OfNetwork, Validly;
    var chain, es :| s == Run(cfg, Initial(chain), es);
    InitialOk(cfg, chain);
    RunKeepsValidated(cfg, Initial(chain), es);
    forall i | 0 <= i < |s.sent| ensures OfNetwork(s.db.quotes, s.sent[i].payment.quoteId, cfg.network) {
      PostedIsReserved(cfg, s, s.sent[i]);
    }
  }

  /** A process that stops takes nothing with it but its own progress; time passes for everybody; and an observation
      that throws only skips its candidate. */
  lemma StoppingForgetsOnlyTheProcess(cfg: Setup, s: Sys, e: Event)
    requires Enabled(cfg, s, e)
    ensures e.Tick? ==> Step(cfg, s, e) == s.(now := s.now + e.elapsed)
    ensures e.SettleCrash? ==> Step(cfg, s, e) == s.(settlers := s.settlers - {e.c})
    ensures e.WorkerCrash? ==> Step(cfg, s, e) == s.(workers := s.workers - {e.w})
    ensures e.DeliverCrash? ==> Step(cfg, s, e) == s.(deliverers := s.deliverers - {e.d})
    ensures e.WorkerThrow? ==> Step(cfg, s, e) == s.(workers := s.workers[e.w := Looping(s.workers[e.w].rest)])
  {
    hide NextDb, Report, Observe, NextSettler, NextDeliverer;
  }

  /* ---------- a posting and its record ---------- */

  /** Neither recorded nor crashed yet. */
  predicate Leaves(e: Event, c: nat) {
    e != SettleRecord(c) && e != SettleCrash(c)
  }

  lemma AnswerHeld(cfg: Setup, s: Sys, e: Event, c: nat)
    requires c in s.settlers && s.settlers[c].Recording? && Leaves(e, c)
    ensures c in Step(cfg, s, e).settlers && Step(cfg, s, e).settlers[c] == s.settlers[c]
  {
    hide NextDb, Report, Observe;
  }

  lemma {:induction false} AnswerHeldOver(cfg: Setup, s: Sys, es: seq<Event>, c: nat)
    requires c in s.settlers && s.settlers[c].Recording? && forall e :: e in es ==> Leaves(e, c)
    ensures c in Run(cfg, s, es).settlers && Run(cfg, s, es).settlers[c] == s.settlers[c]
    decreases |es|
  {
    hide Step;
    if es != [] {
      AnswerHeld(cfg, s, es[0], c);
      AnswerHeldOver(cfg, Step(cfg, s, es[0]), es[1..], c);
    }
  }

  lemma PostingStep(cfg: Setup, s: Sys, c: nat, answer: BroadcastResult)
    requires c in s.settlers && s.settlers[c].Broadcasting?
    ensures var pc, n := s.settlers[c], Step(cfg, s, SettleBroadcast(c, answer));
      && n.db == s.db && c in n.settlers
      && n.settlers[c] == Recording(pc.settlementId, pc.payment, answer, s.now)
  {
  }

  lemma RecordingStep(cfg: Setup, s: Sys, c: nat)
    requires c in s.settlers && s.settlers[c].Recording?
    ensures var pc, n := s.settlers[c], Step(cfg, s, SettleRecord(c));
      var a := AttemptOf(pc.payment, pc.result);
      && n.db == UpdateSettlementStatus(s.db, pc.settlementId, a.0, a.1, pc.attemptedAt).After(s.db)
      && n.sent == s.sent
  {
    hide UpdateSettlementStatus, AttemptOf;
  }

  lemma PosterKnows(cfg: Setup, s: Sys, c: nat)
    requires SysInv(cfg, s) && c in s.settlers && s.settlers[c].Broadcasting?
    ensures s.settlers[c].settlementId in s.db.settlements
    ensures s.db.settlements[s.settlers[c].settlementId].payment == s.settlers[c].payment
  {
    hide Inv, LogInv, WorkersOk, ReceiptsCanonical, DeliverersOk, DigestsOk, PostingsOk;
    assert SettlerOk(s.db.settlements, s.settlers[c]);
  }

  lemma RowsKnown(a: Db, b: Db, x: SettlementId)
    requires Advances(a, b) && x in a.settlements
    ensures x in b.settlements && b.settlements[x].payment == a.settlements[x].payment
  {
  }

  /** What the network answered to a posting is what its row is moved to, whatever callers, workers and the chain do
      before it is recorded. The record is lost exactly when a worker has moved the row on by then, or holds it while a
      rejection is recorded; nothing but a rejection ends an active settlement. */
  lemma PostedAnswerIsRecorded(cfg: Setup, s: Sys, c: nat, answer: BroadcastResult, es: seq<Event>)
    requires Reachable(cfg, s) && c in s.settlers && s.settlers[c].Broadcasting?
    requires forall e :: e in es ==> Leaves(e, c)
    ensures var x, t := s.settlers[c].settlementId, Run(cfg, Step(cfg, s, SettleBroadcast(c, answer)), es);
      var u := Step(cfg, t, SettleRecord(c));
      && x in t.db.settlements && x in u.db.settlements && u.sent == t.sent
      && var row := t.db.settlements[x];
      && row.payment == s.settlers[c].payment
      && (if row.status == Validated && !(answer.Rejected? && row.leaseUntil.Some?)
          then OneMove(t.db, u.db, x) && RecordsAnswer(row, u.db.settlements[x], answer, s.now)
          else u.db == t.db)
      && (row.status in {Validated, Broadcast, Pending} && !answer.Rejected? ==>
            u.db.settlements[x].status in {Validated, Broadcast, Pending})
  {
    hide Reachable, Run, Step, SysInv, Advances, UpdateSettlementStatus, AttemptOf;
    ReachableOk(cfg, s);
    var posted := Step(cfg, s, SettleBroadcast(c, answer));
    var t := Run(cfg, posted, es);
    PosterKnows(cfg, s, c);
    PostingStep(cfg, s, c, answer);
    StepKeepsSysInv(cfg, s, SettleBroadcast(c, answer));
    AnswerHeldOver(cfg, posted, es, c);
    RunAdvances(cfg, posted, es);
    RowsKnown(posted.db, t.db, s.settlers[c].settlementId);
    RecordingStep(cfg, t, c);
    RecordOf(t.db, s.settlers[c].settlementId, answer, s.now);
  }

  lemma RecordOf(db: Db, x: SettlementId, answer: BroadcastResult, at: Time)
    requires x in db.settlements
    ensures var a := AttemptOf(db.settlements[x].payment, answer);
      var next, row := UpdateSettlementStatus(db, x, a.0, a.1, at).After(db), db.settlements[x];
      && x in next.settlements
      && (if row.status == Validated && !(answer.Rejected? && row.leaseUntil.Some?)
          then OneMove(db, next, x) && RecordsAnswer(row, next.settlements[x], answer, at)
          else next == db)
  {
    if db.settlements[x].status == Validated {
      AnswerIsRecorded(db, x, answer, at);
    }
  }

  /* ---------- an observation and its application ---------- */

  predicate Spares(e: Event, w: nat) {
    e != WorkerApply(w) && e != WorkerCrash(w)
  }

  lemma ReportHeld(cfg: Setup, s: Sys, e: Event, w: nat)
    requires w in s.workers && s.workers[w].Applying? && Spares(e, w)
    ensures w in Step(cfg, s, e).workers && Step(cfg, s, e).workers[w] == s.workers[w]
  {
    hide NextDb, Report, Observe, NextSettler, NextDeliverer;
  }

  lemma {:induction false} ReportHeldOver(cfg: Setup, s: Sys, es: seq<Event>, w: nat)
    requires w in s.workers && s.workers[w].Applying? && forall e :: e in es ==> Spares(e, w)
    ensures w in Run(cfg, s, es).workers && Run(cfg, s, es).workers[w] == s.workers[w]
    decreases |es|
  {
    hide Step;
    if es != [] {
      ReportHeld(cfg, s, es[0], w);
      ReportHeldOver(cfg, Step(cfg, s, es[0]), es[1..], w);
    }
  }

  lemma ObservingStep(cfg: Setup, s: Sys, w: nat, tx: TxResponse, info: InfoResponse)
    requires Enabled(cfg, s, WorkerObserve(w, tx, info))
    ensures var pc, n := s.workers[w], Step(cfg, s, WorkerObserve(w, tx, info));
      var o := Observe(pc.candidate.payment.txid, tx, info, cfg.worker.minConfirmations);
      && n.db == s.db && w in n.workers
      && n.workers[w] == Applying(pc.rest, Report(cfg.worker, pc.candidate, pc.checkedAt, o))
  {
    hide Report, Observe;
  }

  lemma ApplyingStep(cfg: Setup, s: Sys, w: nat)
    requires w in s.workers && s.workers[w].Applying?
    ensures Step(cfg, s, WorkerApply(w)).db == Exec(s.db, TxApply(s.workers[w].report))
  {
    hide Exec;
  }

  lemma ObserverKnows(cfg: Setup, s: Sys, w: nat)
    requires SysInv(cfg, s) && w in s.workers && s.workers[w].Observing?
    ensures CandidateTrue(s.db, s.workers[w].candidate)
  {
    hide Inv, LogInv, SettlersOk, ReceiptsCanonical, DeliverersOk, DigestsOk, PostingsOk, CandidateTrue;
    assert WorkerOk(s.db, s.chain, cfg, s.workers[w]);
  }

  /** What the chain answered to a worker is what it makes of the settlement, whatever callers, other workers and the
      chain do before it applies it. */
  lemma ObservedAnswersAreApplied(cfg: Setup, s: Sys, w: nat, tx: TxResponse, info: InfoResponse, es: seq<Event>)
    requires Reachable(cfg, s) && Enabled(cfg, s, WorkerObserve(w, tx, info))
    requires forall e :: e in es ==> Spares(e, w)
    ensures var pc, t := s.workers[w], Run(cfg, Step(cfg, s, WorkerObserve(w, tx, info)), es);
      && pc.candidate.settlementId in t.db.settlements
      && DecidedBy(t.db, Step(cfg, t, WorkerApply(w)).db, cfg.worker, pc.candidate.settlementId, pc.checkedAt, tx, info)
  {
    ObservingStep(cfg, s, w, tx, info);
    assert s.workers[w].Observing? && |s.workers[w].candidate.settlementId| >= 3;
    hide Reachable, Run, Step, SysInv, Inv, Advances, Enabled, Report, Observe, DecidedBy, CandidateTrue, Exec;
    ReachableOk(cfg, s);
    var seen := Step(cfg, s, WorkerObserve(w, tx, info));
    var t := Run(cfg, seen, es);
    var c := s.workers[w].candidate;
    ObserverKnows(cfg, s, w);
    StepKeepsSysInv(cfg, s, WorkerObserve(w, tx, info));
    ReportHeldOver(cfg, seen, es, w);
    RunAdvances(cfg, seen, es);
    RunKeepsSysInv(cfg, seen, es);
    CandidateStaysTrue(seen.db, t.db, c);
    BooksOf(cfg, t);
    AnswersDecideOutcome(t.db, cfg.worker, c, s.workers[w].checkedAt, tx, info);
    ApplyingStep(cfg, t, w);
    CandidateIsStored(t.db, c);
  }

  lemma BooksOf(cfg: Setup, s: Sys)
    requires SysInv(cfg, s)
    ensures Inv(s.db)
  {
    hide Inv;
  }

  lemma CandidateIsStored(db: Db, c: Candidate)
    requires CandidateTrue(db, c)
    ensures c.settlementId in db.settlements
  {
  }
}
