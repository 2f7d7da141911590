/** Deployments that share a database and its buckets but not their contracts leave one another's records alone. */
module EvidenceScope {
  import opened Basics
  import opened EvidencePolicy
  import opened Evidence
  import opened EvidenceInvariants
  import opened EvidenceRuns
  import opened EvidenceEffects

  /** Every statement of the event is limited to these contracts. */
  predicate Confined(e: Event, contracts: set<string>) {
    match e
    case ReserveCopy(_, scope) => scope <= contracts
    case VerifyCopy(_, _, scope) => scope <= contracts
    case LoadRecovery(_, scope) => scope <= contracts
    case CommitRestore(_, _, _, scope) => scope <= contracts
    case BeginSweep(_, _, scope, _) => scope <= contracts
    case CommitSweep(_, _, scope) => scope <= contracts
    case BeginPurge(_, _, scope) => scope <= contracts
    case _ => true
  }

  predicate Foreign(spec: Spec, contracts: set<string>) {
    spec.job.network != Testnet || spec.job.contract !in contracts
  }

  /** In no open transaction's hands. */
  ghost predicate Free(s: State, id: Id) {
    && (forall t :: t in s.sweeps ==> id !in s.sweeps[t].ids)
    && (forall t :: t in s.purges ==> id !in s.purges[t].ids)
  }

  /** Neither tombstoned nor forgotten, pinned as it was, its ledger row the same, and every version of it still there,
      unless one was removed from outside. */
  ghost predicate Spared(s: State, t: State, id: Id)
    requires id in s.rows
  {
    && id in t.rows && t.rows[id].spec == s.rows[id].spec && t.rows[id].purgedAt == s.rows[id].purgedAt
    && (s.rows[id].versionId.Some? ==> t.rows[id].versionId == s.rows[id].versionId)
    && (id in t.ledger <==> id in s.ledger) && (id in s.ledger ==> t.ledger[id] == s.ledger[id])
    && s.lost <= t.lost
    && (forall v :: v in s.primary && s.primary[v].id == id ==>
          v in t.lost || (v in t.primary && t.primary[v] == s.primary[v]))
    && (forall v :: v in s.backup && s.backup[v].id == id ==> v in t.backup && t.backup[v] == s.backup[v])
  }

  /** Whom an event's statements select. */
  lemma ScopeGuards(s: State, e: Event, contracts: set<string>, id: Id)
    requires Enabled(s, e) && Confined(e, contracts) && id in s.rows && Foreign(s.rows[id].spec, contracts)
    ensures e.ReserveCopy? ==> e.id != id
    ensures e.VerifyCopy? || e.CommitRestore? ==> e.manifest.source.key != id
    ensures e.BeginSweep? ==> id !in e.ids
    ensures e.CommitSweep? ==> id !in e.pruned
  {
    hide Decode, ReadsBack, Inventoried, Closed, QuotaAdmits, ValidManifest, VerifyRecovery, Locked, Empty, Rebindable,
        FirstOf, Ahead;
    if e.BeginSweep? {
      FirstAreClosed(s, e);
    }
    assert e.CommitSweep? ==> forall k :: k in e.pruned ==> Prunable(s, e.t, k, e.scope);
  }

  lemma FirstAreClosed(s: State, e: Event)
    requires Enabled(s, e) && e.BeginSweep?
    ensures forall id :: id in e.ids ==> id in ClosedRows(s, e.scope)
  {
  }

  lemma PurgeGuards(s: State, e: Event, contracts: set<string>, id: Id)
    requires Inv(s) && Enabled(s, e) && Confined(e, contracts) && id in s.rows && Foreign(s.rows[id].spec, contracts)
    ensures e.BeginPurge? ==> id !in e.ids
    ensures e.PurgeDelete? ==>
        e.t in s.purges && e.id in s.purges[e.t].ids && e.version in s.backup && s.backup[e.version].id == e.id
    ensures e.PurgeMark? ==> e.t in s.purges
  {
    hide RowsOk, PrimaryOk, BackupsOk, SweepsOk, TombsOk, PurgesOk, WithinQuotas, FactsOk, Inventoried, Empty;
    if e.BeginPurge? && id in e.ids {
      EntryIsOurs(s, id);
    }
  }

  lemma EntryIsOurs(s: State, id: Id)
    requires Inv(s) && id in s.rows && id in s.ledger
    ensures s.rows[id].spec.job.network == Testnet && s.rows[id].spec.job.contract == s.ledger[id].contract
  {
    assert EntryOk(s.now, s.born, s.rows, s.backup, id, s.ledger[id]);
  }

  /** What the invariant says here: records are as they were born, and versions older than the next. */
  lemma Settled(s: State, id: Id)
    requires Inv(s) && id in s.rows
    ensures id in s.born
    ensures s.next !in s.primary && s.next !in s.backup
  {
    assert PrimaryOk(s.born, s.primary, s.next) && BackupsOk(s.now, s.backup, s.ledger, s.next);
  }

  lemma RowSpared(s: State, e: Event, contracts: set<string>, id: Id)
    requires Inv(s) && Enabled(s, e) && Confined(e, contracts)
    requires id in s.rows && Foreign(s.rows[id].spec, contracts) && Free(s, id)
    ensures var t := Step(s, e);
      && id in t.rows && t.rows[id].spec == s.rows[id].spec && t.rows[id].purgedAt == s.rows[id].purgedAt
      && (s.rows[id].versionId.Some? ==> t.rows[id].versionId == s.rows[id].versionId)
  {
    hide Inv, Enabled, Step, PreparedSpec, Prunable;
    Settled(s, id);
    ScopeGuards(s, e, contracts, id);
    VersionGuards(s, e);
    BatchGuards(s, e);
    StepRows(s, e);
  }

  lemma EntrySpared(s: State, e: Event, contracts: set<string>, id: Id)
    requires Inv(s) && Enabled(s, e) && Confined(e, contracts)
    requires id in s.rows && Foreign(s.rows[id].spec, contracts) && Free(s, id)
    ensures var t := Step(s, e);
      (id in t.ledger <==> id in s.ledger) && (id in s.ledger ==> t.ledger[id] == s.ledger[id])
  {
    hide Inv, Enabled, Step, SnapshotOf, Prunable;
    ScopeGuards(s, e, contracts, id);
    VersionGuards(s, e);
    BatchGuards(s, e);
    StepLedger(s, e);
  }

  lemma StaysFree(s: State, e: Event, contracts: set<string>, id: Id)
    requires Inv(s) && Enabled(s, e) && Confined(e, contracts)
    requires id in s.rows && Foreign(s.rows[id].spec, contracts) && Free(s, id)
    ensures Free(Step(s, e), id)
  {
    hide Inv, Enabled, Step, Prunable;
    ScopeGuards(s, e, contracts, id);
    PurgeGuards(s, e, contracts, id);
    BatchGuards(s, e);
    StepSweeps(s, e);
    StepBackups(s, e);
  }

  lemma BucketsSpared(s: State, e: Event, contracts: set<string>, id: Id)
    requires Inv(s) && Enabled(s, e) && Confined(e, contracts)
    requires id in s.rows && Foreign(s.rows[id].spec, contracts) && Free(s, id)
    ensures var t := Step(s, e);
      && s.lost <= t.lost
      && (forall v :: v in s.primary && s.primary[v].id == id ==>
            v in t.lost || (v in t.primary && t.primary[v] == s.primary[v]))
      && (forall v :: v in s.backup && s.backup[v].id == id ==> v in t.backup && t.backup[v] == s.backup[v])
  {
    hide Inv, Enabled, Step, RestoreTag;
    Settled(s, id);
    PurgeGuards(s, e, contracts, id);
    VersionGuards(s, e);
    StepPrimary(s, e);
    StepBackups(s, e);
    StepLost(s, e);
  }

  lemma SparedThen(s: State, t: State, u: State, id: Id)
    requires id in s.rows && Spared(s, t, id) && Spared(t, u, id)
    ensures Spared(s, u, id)
  {
  }

  /** However a deployment's uploads, backups, recoveries, cleanups and retention run, for records of other contracts or
      of mainnet nothing changes but what their owners upload and complete. */
  lemma {:induction false} ForeignRecordsAreSpared(s: State, es: seq<Event>, contracts: set<string>, id: Id)
    requires Inv(s) && Run(s, es) && forall e :: e in es ==> Confined(e, contracts)
    requires id in s.rows && Foreign(s.rows[id].spec, contracts) && Free(s, id)
    ensures Spared(s, After(s, es), id) && Free(After(s, es), id)
    decreases |es|
  {
    hide Inv, Enabled, Step;
    if es != [] {
      var t := Step(s, es[0]);
      RowSpared(s, es[0], contracts, id);
      EntrySpared(s, es[0], contracts, id);
      StaysFree(s, es[0], contracts, id);
      BucketsSpared(s, es[0], contracts, id);
      StepOk(s, es[0]);
      ForeignRecordsAreSpared(t, es[1..], contracts, id);
      SparedThen(s, t, After(t, es[1..]), id);
    }
  }
}
