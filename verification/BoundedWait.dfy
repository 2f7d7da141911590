/** How many batches a due settlement can wait for when one worker runs without errors. */
module BoundedWait {
  import opened Basics
  import opened Ledger
  import opened LedgerInvariants
  import opened LedgerTheorems
  import opened Database
  import opened Reconciliation
  import opened SettlementService
  import opened Services
  import opened ServiceInvariants
  import opened ServiceTheorems

  /** Active settlements that do not sort strictly behind `x`. */
  function Ahead(rows: Settlements, x: SettlementId): set<SettlementId>
    requires x in rows
  {
    set s | s in rows && s != x && Active(rows[s].status) && !Before(rows[x], rows[s])
  }

  /** `x` is active, past its retry time and free of any live lease. */
  predicate Waiting(rows: Settlements, now: Time, x: SettlementId) {
    && x in rows
    && Active(rows[x].status)
    && rows[x].reconcileAfter < now
    && (rows[x].leaseUntil.Some? ==> rows[x].leaseUntil.value <= now)
  }

  /* ---------- transactions never push others ahead ---------- */

  lemma ReserveSortsBehind(db: Db, r: Reservation, now: Time, x: SettlementId)
    requires x in db.settlements && db.settlements[x].reconcileAfter < now
    ensures var next := ReserveSettlement(db, r, now).After(db);
      x in next.settlements && next.settlements[x] == db.settlements[x]
          && Ahead(next.settlements, x) == Ahead(db.settlements, x)
  {
  }

  lemma StatusKeepsOrder(db: Db, s: SettlementId, to: AttemptStatus, reason: Option<string>, at: Time, x: SettlementId)
    requires x in db.settlements
    ensures var next := UpdateSettlementStatus(db, s, to, reason, at).After(db);
      && x in next.settlements
      && next.settlements[x].reconcileAfter == db.settlements[x].reconcileAfter
      && next.settlements[x].leaseUntil == db.settlements[x].leaseUntil
      && Ahead(next.settlements, x) <= Ahead(db.settlements, x)
  {
  }

  lemma ClaimKeepsOrder(db: Db, picked: set<SettlementId>, until: Time, x: SettlementId)
    requires x in db.settlements && x !in picked
    ensures var next := ClaimSettlements(db, picked, until);
      x in next.settlements && next.settlements[x] == db.settlements[x]
          && Ahead(next.settlements, x) == Ahead(db.settlements, x)
  {
  }

  lemma ApplySortsBehind(db: Db, o: Observed, x: SettlementId)
    requires x in db.settlements && o.settlementId != x
    requires o.StillPending? ==> db.settlements[x].reconcileAfter < o.retryAt
    requires o.settlementId in db.settlements ==> ApplyReconciliationResult(db, o).Commit?
    ensures var next := ApplyReconciliationResult(db, o).After(db);
      && x in next.settlements && next.settlements[x] == db.settlements[x]
      && Ahead(next.settlements, x) <= Ahead(db.settlements, x) - {o.settlementId}
  {
  }

  /** A batch that passes over `x` is full, and all of it was ahead of `x`. */
  lemma PassedOverBatch(db: Db, limit: nat, at: Time, locked: set<SettlementId>, picked: set<SettlementId>,
      x: SettlementId)
    requires IsBatch(db, limit, at, locked, picked)
    requires x in db.settlements && Due(db.settlements[x], at) && x !in locked && x !in picked
    ensures |picked| == limit && picked <= Ahead(db.settlements, x)
  {
    var due := DueSet(db, at, locked);
    assert x in due;
    forall p | p in picked ensures p in Ahead(db.settlements, x) {
      assert p in due;
      assert !Before(db.settlements[x], db.settlements[p]);
    }
  }

  /* ---------- one worker's run ---------- */

  function IdsOf(rows: seq<Candidate>): set<SettlementId> {
    set i | 0 <= i < |rows| :: rows[i].settlementId
  }

  /** The claimed settlements the worker still has to apply. */
  function WorkIds(pc: WorkerPc): set<SettlementId> {
    match pc
    case Claiming(_) => {}
    case Loading(ids) => ids
    case Looping(rest) => IdsOf(rest)
    case Observing(rest, c, _) => IdsOf(rest) + {c.settlementId}
    case Applying(rest, o) => IdsOf(rest) + {o.settlementId}
  }

  /** The worker's clock readings are all later than `since`. */
  predicate ReadAfter(pc: WorkerPc, since: Time) {
    match pc
    case Claiming(claimedAt) => since < claimedAt
    case Observing(_, _, checkedAt) => since < checkedAt
    case Applying(_, o) => o.StillPending? ==> since < o.retryAt
    case _ => true
  }

  /** The events of a run with the one worker `w`, in which nothing throws, the worker does not crash, and no claim
      finds the row of `x` locked. */
  predicate Smooth(e: Event, w: nat, x: SettlementId) {
    match e
    case WorkerBegin(v) => v == w
    case WorkerClaim(v, locked, _) => v == w && x !in locked
    case WorkerLoad(v, _) => v == w
    case WorkerCheck(v) => v == w
    case WorkerObserve(v, _, _) => v == w
    case WorkerApply(v) => v == w
    case WorkerThrow(_) => false
    case WorkerCrash(_) => false
    case _ => true
  }

  ghost predicate ClaimsBatch(cfg: Setup, s: Sys, e: Event) {
    e.WorkerClaim? && Enabled(cfg, s, e)
  }

  ghost function Batches(cfg: Setup, s: Sys, es: seq<Event>): nat
    decreases |es|
  {
    if es == [] then 0 else
      (if ClaimsBatch(cfg, s, es[0]) then 1 else 0) + Batches(cfg, Step(cfg, s, es[0]), es[1..])
  }

  ghost predicate ClaimedIn(cfg: Setup, s: Sys, es: seq<Event>, x: SettlementId)
    decreases |es|
  {
    es != [] && ((ClaimsBatch(cfg, s, es[0]) && x in es[0].picked) || ClaimedIn(cfg, Step(cfg, s, es[0]), es[1..], x))
  }

  /** `x` waits; everything ahead of it is in `bound` or in the worker's hands; `x` itself is not. */
  ghost predicate Queued(s: Sys, w: nat, x: SettlementId, bound: set<SettlementId>) {
    && Waiting(s.db.settlements, s.now, x)
    && (w in s.workers ==>
          && ReadAfter(s.workers[w], s.db.settlements[x].reconcileAfter)
          && (s.workers[w].Claiming? ==> LeaseFreeAt(s.db.settlements[x], s.workers[w].claimedAt))
          && x !in WorkIds(s.workers[w]))
    && Ahead(s.db.settlements, x) <= bound + (if w in s.workers then WorkIds(s.workers[w]) else {})
  }

  predicate LeaseFreeAt(row: Settlement, at: Time) {
    row.leaseUntil.Some? ==> row.leaseUntil.value <= at
  }

  ghost predicate Progress(cfg: Setup, s: Sys, e: Event, w: nat, x: SettlementId, bound: set<SettlementId>) {
    var n := Step(cfg, s, e);
    if ClaimsBatch(cfg, s, e)
    then x in e.picked || (e.picked <= bound && |e.picked| == cfg.worker.batchSize && Queued(n, w, x, bound - e.picked))
    else Queued(n, w, x, bound)
  }

  lemma QuietEvents(cfg: Setup, s: Sys, e: Event, w: nat, x: SettlementId, bound: set<SettlementId>)
    requires Queued(s, w, x, bound)
    requires !IsWorkerEvent(e) && !e.WorkerCrash?
        && (!Enabled(cfg, s, e) || TxnOf(cfg, s, e) == None || e.QuoteIssued? || e.DeliverClaim? || e.DeliverComplete?)
    ensures Queued(Step(cfg, s, e), w, x, bound)
  {
  }

  lemma SettleEvents(cfg: Setup, s: Sys, e: Event, w: nat, x: SettlementId, bound: set<SettlementId>)
    requires Queued(s, w, x, bound) && Enabled(cfg, s, e) && (e.SettleReserve? || e.SettleRecord?)
    requires Active(Step(cfg, s, e).db.settlements[x].status)
    ensures Queued(Step(cfg, s, e), w, x, bound)
  {
    hide ReserveSettlement, UpdateSettlementStatus, NextSettler;
    if e.SettleReserve? {
      ReserveSortsBehind(s.db, s.settlers[e.c].reservation, s.now, x);
    } else {
      var pc := s.settlers[e.c];
      var a := AttemptOf(pc.payment, pc.result);
      StatusKeepsOrder(s.db, pc.settlementId, a.0, a.1, pc.attemptedAt, x);
    }
  }

  lemma BeginEvent(cfg: Setup, s: Sys, w: nat, x: SettlementId, bound: set<SettlementId>)
    requires Queued(s, w, x, bound) && Enabled(cfg, s, WorkerBegin(w))
    ensures Queued(Step(cfg, s, WorkerBegin(w)), w, x, bound)
  {
  }

  lemma ClaimStep(cfg: Setup, s: Sys, e: Event)
    requires Enabled(cfg, s, e) && e.WorkerClaim?
    ensures e.w in s.workers && s.workers[e.w].Claiming?
    ensures IsBatch(s.db, cfg.worker.batchSize, s.workers[e.w].claimedAt, e.locked, e.picked)
    ensures Step(cfg, s, e) ==
            s.(db := ClaimSettlements(s.db, e.picked, s.workers[e.w].claimedAt + cfg.worker.leaseMs),
               workers := s.workers[e.w := Loading(e.picked)])
  {
    hide IsBatch, ClaimSettlements;
  }

  lemma ClaimEvent(cfg: Setup, s: Sys, e: Event, w: nat, x: SettlementId, bound: set<SettlementId>)
    requires Queued(s, w, x, bound) && Enabled(cfg, s, e) && e.WorkerClaim? && e.w == w && x !in e.locked
    ensures Progress(cfg, s, e, w, x, bound)
  {
    hide IsBatch, ClaimSettlements, Enabled, Step, Ahead;
    ClaimStep(cfg, s, e);
    if x !in e.picked {
      var at := s.workers[w].claimedAt;
      PassedOverBatch(s.db, cfg.worker.batchSize, at, e.locked, e.picked, x);
      ClaimKeepsOrder(s.db, e.picked, at + cfg.worker.leaseMs, x);
    }
  }

  lemma LoadedIds(cfg: Setup, s: Sys, w: nat, rows: seq<Candidate>)
    requires Enabled(cfg, s, WorkerLoad(w, rows))
    ensures IdsOf(rows) == s.workers[w].ids
  {
    forall sid | sid in s.workers[w].ids ensures sid in IdsOf(rows) {
      var i :| 0 <= i < |rows| && rows[i].settlementId == sid;
    }
  }

  lemma SplitIds(rows: seq<Candidate>)
    requires rows != []
    ensures IdsOf(rows) == {rows[0].settlementId} + IdsOf(rows[1..])
  {
    forall sid | sid in IdsOf(rows) ensures sid in {rows[0].settlementId} + IdsOf(rows[1..]) {
      var i :| 0 <= i < |rows| && rows[i].settlementId == sid;
      if i > 0 {
        assert rows[1..][i - 1].settlementId == sid;
      }
    }
    forall sid | sid in IdsOf(rows[1..]) ensures sid in IdsOf(rows) {
      var i :| 0 <= i < |rows| - 1 && rows[1..][i].settlementId == sid;
      assert rows[i + 1].settlementId == sid;
    }
  }

  lemma ReadingEvents(cfg: Setup, s: Sys, e: Event, w: nat, x: SettlementId, bound: set<SettlementId>)
    requires Queued(s, w, x, bound) && Enabled(cfg, s, e) && (e.WorkerLoad? || e.WorkerCheck? || e.WorkerObserve?)
        && e.w == w
    ensures Queued(Step(cfg, s, e), w, x, bound)
  {
    hide Observe, IdsOf, Ahead;
    match e
    case WorkerLoad(_, rows) => LoadedIds(cfg, s, w, rows);
    case WorkerCheck(_) => SplitIds(s.workers[w].rest);
    case WorkerObserve(_, _, _) =>
  }

  /** The worker's report commits whenever its settlement exists. */
  lemma ApplyCommits(cfg: Setup, s: Sys, w: nat)
    requires SysInv(cfg, s) && w in s.workers && s.workers[w].Applying?
    ensures var o := s.workers[w].report;
      o.settlementId in s.db.settlements ==> ApplyReconciliationResult(s.db, o).Commit?
  {
    hide Inv;
    assert WorkerOk(s.db, s.chain, cfg, s.workers[w]);
    if s.workers[w].report.Settled? {
      ConfirmationNeverRollsBack(s.db, s.workers[w].report);
    }
  }

  lemma ApplyStep(cfg: Setup, s: Sys, w: nat)
    requires Enabled(cfg, s, WorkerApply(w))
    ensures w in s.workers && s.workers[w].Applying?
    ensures Step(cfg, s, WorkerApply(w)) ==
            s.(db := ApplyReconciliationResult(s.db, s.workers[w].report).After(s.db),
               workers := s.workers[w := Looping(s.workers[w].rest)])
  {
    hide ApplyReconciliationResult;
  }

  lemma ApplyEvent(cfg: Setup, s: Sys, w: nat, x: SettlementId, bound: set<SettlementId>)
    requires SysInv(cfg, s) && Queued(s, w, x, bound) && Enabled(cfg, s, WorkerApply(w))
    ensures Queued(Step(cfg, s, WorkerApply(w)), w, x, bound)
  {
    hide SysInv, ApplyReconciliationResult, IdsOf, Ahead, Step, Enabled;
    ApplyStep(cfg, s, w);
    ApplyCommits(cfg, s, w);
    ApplySortsBehind(s.db, s.workers[w].report, x);
  }

  lemma EventKinds(cfg: Setup, s: Sys, e: Event, w: nat, x: SettlementId)
    requires Smooth(e, w, x)
    ensures !Enabled(cfg, s, e) ==> Step(cfg, s, e) == s
    ensures Enabled(cfg, s, e) && !IsWorkerEvent(e) && !e.SettleReserve? && !e.SettleRecord? ==>
              !e.WorkerCrash? && (TxnOf(cfg, s, e) == None || e.QuoteIssued? || e.DeliverClaim? || e.DeliverComplete?)
  {
    hide Enabled, NextDb;
  }

  /** Any event of a smooth run keeps `x` waiting behind what was ahead of it, or claims a full batch from ahead of
      it. */
  lemma SmoothProgress(cfg: Setup, s: Sys, e: Event, w: nat, x: SettlementId, bound: set<SettlementId>)
    requires SysInv(cfg, s) && Queued(s, w, x, bound) && Smooth(e, w, x)
    requires x in Step(cfg, s, e).db.settlements && Active(Step(cfg, s, e).db.settlements[x].status)
    ensures Progress(cfg, s, e, w, x, bound)
  {
    hide SysInv, Queued, Enabled, Step, TxnOf;
    EventKinds(cfg, s, e, w, x);
    if Enabled(cfg, s, e) {
      match e
      case WorkerBegin(_) => BeginEvent(cfg, s, w, x, bound);
      case WorkerClaim(_, _, _) => ClaimEvent(cfg, s, e, w, x, bound);
      case WorkerLoad(_, _) => ReadingEvents(cfg, s, e, w, x, bound);
      case WorkerCheck(_) => ReadingEvents(cfg, s, e, w, x, bound);
      case WorkerObserve(_, _, _) => ReadingEvents(cfg, s, e, w, x, bound);
      case WorkerApply(_) => ApplyEvent(cfg, s, w, x, bound);
      case SettleReserve(_) => SettleEvents(cfg, s, e, w, x, bound);
      case SettleRecord(_) => SettleEvents(cfg, s, e, w, x, bound);
      case _ => QuietEvents(cfg, s, e, w, x, bound);
    }
  }

  /** Each batch that passes over `x` takes a full batch out of what was ahead of it. */
  lemma {:induction false} BatchesEatTheQueue(cfg: Setup, s: Sys, es: seq<Event>, w: nat, x: SettlementId,
      bound: set<SettlementId>)
    requires SysInv(cfg, s) && Queued(s, w, x, bound)
    requires forall i :: 0 <= i < |es| ==> Smooth(es[i], w, x)
    requires !ClaimedIn(cfg, s, es, x)
    requires x in Run(cfg, s, es).db.settlements && Active(Run(cfg, s, es).db.settlements[x].status)
    ensures Batches(cfg, s, es) * cfg.worker.batchSize <= |bound|
    decreases |es|
  {
    hide SysInv, Queued, Step, Smooth;
    if es != [] {
      var e, n := es[0], Step(cfg, s, es[0]);
      StepKeepsSysInv(cfg, s, e);
      StillActive(cfg, s, es, w, x, bound);
      SmoothProgress(cfg, s, e, w, x, bound);
      if ClaimsBatch(cfg, s, e) {
        BatchesEatTheQueue(cfg, n, es[1..], w, x, bound - e.picked);
        assert |bound - e.picked| == |bound| - |e.picked|;
        FullBatch(Batches(cfg, n, es[1..]), cfg.worker.batchSize, |bound|);
      } else {
        BatchesEatTheQueue(cfg, n, es[1..], w, x, bound);
      }
    }
  }

  lemma FullBatch(batches: nat, size: nat, queued: nat)
    requires batches * size <= queued - size
    ensures (1 + batches) * size <= queued
  {
  }

  /** A settlement that is active at the end of a run was active all along. */
  lemma StillActive(cfg: Setup, s: Sys, es: seq<Event>, w: nat, x: SettlementId, bound: set<SettlementId>)
    requires SysInv(cfg, s) && Queued(s, w, x, bound) && es != []
    requires x in Run(cfg, s, es).db.settlements && Active(Run(cfg, s, es).db.settlements[x].status)
    ensures var n := Step(cfg, s, es[0]); x in n.db.settlements && Active(n.db.settlements[x].status)
  {
    var n := Step(cfg, s, es[0]);
    EventMovesForward(cfg, s, es[0]);
    StepKeepsSysInv(cfg, s, es[0]);
    RunAdvances(cfg, n, es[1..]);
    hide SysInv, Step;
  }

  /** A due settlement with d active settlements ahead of it is claimed by the time one smooth worker has claimed enough
      batches to hold more than d, that is floor(d / limit) + 1 of them, unless its broadcaster ends it first: new and
      requeued settlements never get ahead of it. */
  lemma DueSettlementIsClaimed(cfg: Setup, s: Sys, es: seq<Event>, w: nat, x: SettlementId)
    requires SysInv(cfg, s) && Waiting(s.db.settlements, s.now, x)
    requires w in s.workers ==> s.workers[w] == Looping([])
    requires forall i :: 0 <= i < |es| ==> Smooth(es[i], w, x)
    requires Batches(cfg, s, es) * cfg.worker.batchSize > |Ahead(s.db.settlements, x)|
    ensures ClaimedIn(cfg, s, es, x)
            || (x in Run(cfg, s, es).db.settlements && !Active(Run(cfg, s, es).db.settlements[x].status))
  {
    hide SysInv, Run, ClaimedIn, Batches, Step, Smooth;
    var bound := Ahead(s.db.settlements, x);
    assert Queued(s, w, x, bound);
    RunAdvances(cfg, s, es);
    assert x in Run(cfg, s, es).db.settlements;
    if !ClaimedIn(cfg, s, es, x) && Active(Run(cfg, s, es).db.settlements[x].status) {
      BatchesEatTheQueue(cfg, s, es, w, x, bound);
      assert false;
    }
  }
}
