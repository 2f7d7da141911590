/** Recovery commits, cleanup and retention transactions, what workers learn, and whole runs. */
module EvidenceRuns {
  import opened Basics
  import opened Hashing
  import opened Totals
  import opened EvidencePolicy
  import opened Evidence
  import opened EvidenceInvariants
  import opened EvidenceSteps

  /* ---------- rebinding a record to its restored version ---------- */

  function RestoredState(s: State, id: Id, v: Version): State
    requires id in s.rows && id in s.ledger
  {
    s.(rows := s.rows[id := s.rows[id].(versionId := Some(v))],
       ledger := s.ledger[id := s.ledger[id].(restoredVersion := Some(v))])
  }

  /** What commitRestore has established when it writes. */
  ghost predicate MayRestore(s: State, id: Id, v: Version) {
    && id in s.rows && s.now < s.rows[id].spec.expiresAt && !Locked(s.sweeps, id)
    && id in s.ledger && s.ledger[id].manifest.Some? && v != s.ledger[id].expected.version
    && Rebindable(s.ledger[id], s.rows[id], v) && Held(s.primary, s.lost, id, v)
  }

  lemma CommitRestoreOk(s: State, id: Id, v: Version)
    requires Inv(s) && MayRestore(s, id, v)
    ensures Inv(RestoredState(s, id, v)) && Advances(s, RestoredState(s, id, v))
  {
    var t := RestoredState(s, id, v);
    var row := s.rows[id].(versionId := Some(v));
    assert t.rows == s.rows[id := row] && t.rows.Keys == s.rows.Keys;
    hide MayRestore, Held, Locked, Rebindable;
    hide FactsOk, RowsOk, PrimaryOk, BackupsOk, LedgerOk, SweepsOk, TombsOk, PurgesOk, WithinQuotas;
    hide Grows, PrimaryPersists, BackupPersists, LedgerPersists, RowsPersist, Advances;
    RestoredRows(s, id, v);
    RestoredAdvances(s, id, v);
    RestoredLedger(s, id, v);
    RestoredSweeps(s, id, v);
    SameUsage(s.rows, id, row);
    Untouched(s, t);
    Assemble(s, t);
  }

  lemma RestoredRows(s: State, id: Id, v: Version)
    requires RowsOk(s.now, s.born, s.rows, s.primary, s.lost) && TombsOk(s.now, s.born, s.rows, s.primary)
        && MayRestore(s, id, v)
    ensures var t := RestoredState(s, id, v);
      RowsOk(t.now, t.born, t.rows, t.primary, t.lost) && TombsOk(t.now, t.born, t.rows, t.primary)
  {
    hide OnlyRestores;
  }

  lemma RestoredAdvances(s: State, id: Id, v: Version)
    requires MayRestore(s, id, v)
    ensures RowsPersist(s, RestoredState(s, id, v)) && LedgerPersists(s, RestoredState(s, id, v))
  {
    hide Held, Locked;
  }

  lemma RestoredLedger(s: State, id: Id, v: Version)
    requires LedgerOk(s.now, s.born, s.rows, s.backup, s.ledger) && BackupsOk(s.now, s.backup, s.ledger, s.next)
    requires PurgesOk(s.now, s.ledger, s.backup, s.purges) && MayRestore(s, id, v)
    ensures var t := RestoredState(s, id, v);
      && LedgerOk(t.now, t.born, t.rows, t.backup, t.ledger) && BackupsOk(t.now, t.backup, t.ledger, t.next)
      && PurgesOk(t.now, t.ledger, t.backup, t.purges)
  {
    hide Kept, Decode, Empty, Held, Locked;
  }

  lemma RestoredSweeps(s: State, id: Id, v: Version)
    requires SweepsOk(s.now, s.rows, s.primary, s.sweeps) && MayRestore(s, id, v)
    ensures SweepsOk(s.now, RestoredState(s, id, v).rows, s.primary, s.sweeps)
  {
    hide OnlyRestores, Held;
    forall b | b in s.sweeps ensures id !in s.sweeps[b].ids {
    }
  }

  /* ---------- cleanup ---------- */

  lemma SweepsChangeOk(s: State, sweeps: map<nat, Batch>)
    requires Inv(s) && SweepsOk(s.now, s.rows, s.primary, sweeps)
    ensures Inv(s.(sweeps := sweeps)) && Advances(s, s.(sweeps := sweeps))
  {
    var t := s.(sweeps := sweeps);
    hide FactsOk, RowsOk, PrimaryOk, BackupsOk, LedgerOk, SweepsOk, TombsOk, PurgesOk, WithinQuotas;
    hide Grows, PrimaryPersists, BackupPersists, LedgerPersists, RowsPersist, Advances;
    Untouched(s, t);
    Assemble(s, t);
  }

  lemma BeginSweepOk(s: State, b: nat, ids: set<Id>)
    requires SweepsOk(s.now, s.rows, s.primary, s.sweeps) && b !in s.sweeps
    requires forall id :: id in ids ==>
        id in s.rows && s.rows[id].purgedAt.None? && Closed(s.now, s.rows[id]) && !Locked(s.sweeps, id)
    ensures SweepsOk(s.now, s.rows, s.primary, s.sweeps[b := Batch(s.now, ids, {})])
  {
    hide OnlyRestores, Closed;
    forall u, id | u in s.sweeps && id in s.sweeps[u].ids ensures id !in ids {
      assert Locked(s.sweeps, id);
    }
  }

  lemma SweepMarkOk(s: State, b: nat, id: Id)
    requires SweepsOk(s.now, s.rows, s.primary, s.sweeps)
    requires b in s.sweeps && id in s.sweeps[b].ids && Empty(s.primary, id)
    ensures SweepsOk(s.now, s.rows, s.primary, MarkedIn(s.sweeps, b, id))
  {
    assert OnlyRestores(s.primary, id);
    hide OnlyRestores, Closed, Empty;
  }

  function SweptState(s: State, b: nat, pruned: set<Id>): State
    requires b in s.sweeps
  {
    s.(rows := Purged(s.rows, s.sweeps[b].ids, s.sweeps[b].startedAt) - pruned, sweeps := s.sweeps - {b})
  }

  ghost predicate MayCommitSweep(s: State, b: nat, pruned: set<Id>) {
    && b in s.sweeps && s.sweeps[b].marked == s.sweeps[b].ids
    && forall id :: id in pruned ==>
         && id in s.rows && (s.rows[id].purgedAt.Some? || id in s.sweeps[b].ids)
         && s.rows[id].spec.expiresAt + GRACE <= s.now
         && (forall u :: u in s.sweeps && u != b ==> id !in s.sweeps[u].ids)
  }

  lemma CommitSweepOk(s: State, b: nat, pruned: set<Id>)
    requires Inv(s) && MayCommitSweep(s, b, pruned)
    ensures Inv(SweptState(s, b, pruned)) && Advances(s, SweptState(s, b, pruned))
  {
    var t := SweptState(s, b, pruned);
    SweptTables(s, b, pruned);
    SweptTombs(s, b, pruned);
    SweptSweeps(s, b, pruned);
    SweptLedger(s, b, pruned);
    SweptAdvances(s, b, pruned);
    FewerRows(s.rows, t.rows);
    hide MayCommitSweep, Submap, Purged;
    hide FactsOk, RowsOk, PrimaryOk, BackupsOk, LedgerOk, SweepsOk, TombsOk, PurgesOk, WithinQuotas;
    hide Grows, PrimaryPersists, BackupPersists, LedgerPersists, RowsPersist, Advances;
    Untouched(s, t);
    Assemble(s, t);
  }

  lemma SweptTables(s: State, b: nat, pruned: set<Id>)
    requires RowsOk(s.now, s.born, s.rows, s.primary, s.lost) && MayCommitSweep(s, b, pruned)
    ensures var t := SweptState(s, b, pruned);
      RowsOk(t.now, t.born, t.rows, t.primary, t.lost) && Grows(s, t) && Submap(t.rows, s.rows)
  {
    hide Held;
  }

  lemma SweptTombs(s: State, b: nat, pruned: set<Id>)
    requires RowsOk(s.now, s.born, s.rows, s.primary, s.lost) && TombsOk(s.now, s.born, s.rows, s.primary)
    requires SweepsOk(s.now, s.rows, s.primary, s.sweeps) && MayCommitSweep(s, b, pruned)
    ensures TombsOk(s.now, s.born, SweptState(s, b, pruned).rows, s.primary)
  {
    hide OnlyRestores, Held;
    forall id | id in s.sweeps[b].ids ensures id in s.born && s.born[id].uploadExpiresAt + SIGNING_SLACK < s.now {
      assert id in s.rows && SpecOk(s.born[id]);
    }
  }

  /** Fewer unpurged rows, otherwise as before. */
  ghost predicate Submap(small: map<Id, Row>, big: map<Id, Row>) {
    forall id :: id in small ==>
        id in big && small[id].spec == big[id].spec && (big[id].purgedAt.Some? ==> small[id].purgedAt.Some?)
  }

  lemma SweptSweeps(s: State, b: nat, pruned: set<Id>)
    requires SweepsOk(s.now, s.rows, s.primary, s.sweeps) && MayCommitSweep(s, b, pruned)
    ensures var t := SweptState(s, b, pruned); SweepsOk(t.now, t.rows, t.primary, t.sweeps)
  {
    hide OnlyRestores;
    var t := SweptState(s, b, pruned);
    forall u, id | u in t.sweeps && id in t.sweeps[u].ids ensures id in t.rows && t.rows[id] == s.rows[id] {
      assert id !in s.sweeps[b].ids;
    }
  }

  lemma SweptLedger(s: State, b: nat, pruned: set<Id>)
    requires RowsOk(s.now, s.born, s.rows, s.primary, s.lost) && LedgerOk(s.now, s.born, s.rows, s.backup, s.ledger)
    requires MayCommitSweep(s, b, pruned)
    ensures var t := SweptState(s, b, pruned); LedgerOk(t.now, t.born, t.rows, t.backup, t.ledger)
  {
    hide Kept;
    var t := SweptState(s, b, pruned);
    forall id | id in t.ledger ensures EntryOk(t.now, t.born, t.rows, t.backup, id, t.ledger[id]) {
      assert EntryOk(s.now, s.born, s.rows, s.backup, id, s.ledger[id]);
    }
  }

  lemma SweptAdvances(s: State, b: nat, pruned: set<Id>)
    requires MayCommitSweep(s, b, pruned)
    ensures RowsPersist(s, SweptState(s, b, pruned))
  {
  }

  lemma FewerRows(big: map<Id, Row>, small: map<Id, Row>)
    requires WithinQuotas(big) && Submap(small, big)
    ensures WithinQuotas(small)
  {
    FewerUsage(Usage(small), Usage(big));
    forall job ensures |JobUsage(small, job)| <= JOB_ROWS && Total(JobUsage(small, job)) <= JOB_BYTES {
      FewerUsage(JobUsage(small, job), JobUsage(big, job));
    }
  }

  lemma FewerUsage(small: map<Id, nat>, big: map<Id, nat>)
    requires forall k :: k in small ==> k in big && big[k] == small[k]
    ensures |small| <= |big| && Total(small) <= Total(big)
    decreases |small|
  {
    TotalSubmap(small, big);
    if small != map[] {
      var k :| k in small;
      FewerUsage(small - {k}, big - {k});
    }
  }

  /* ---------- retention of backups ---------- */

  lemma PurgesChangeOk(s: State, purges: map<nat, Batch>)
    requires Inv(s) && PurgesOk(s.now, s.ledger, s.backup, purges)
    ensures Inv(s.(purges := purges)) && Advances(s, s.(purges := purges))
  {
    var t := s.(purges := purges);
    hide FactsOk, RowsOk, PrimaryOk, BackupsOk, LedgerOk, SweepsOk, TombsOk, PurgesOk, WithinQuotas;
    hide Grows, PrimaryPersists, BackupPersists, LedgerPersists, RowsPersist, Advances;
    Untouched(s, t);
    Assemble(s, t);
  }

  lemma BeginPurgeOk(s: State, b: nat, ids: set<Id>)
    requires PurgesOk(s.now, s.ledger, s.backup, s.purges) && b !in s.purges
    requires forall id :: id in ids ==> id in s.ledger && Due(s.now, s.ledger[id].expected) && !Locked(s.purges, id)
    ensures PurgesOk(s.now, s.ledger, s.backup, s.purges[b := Batch(s.now, ids, {})])
  {
    hide Empty, Due;
    forall u, id | u in s.purges && id in s.purges[u].ids ensures id !in ids {
      assert Locked(s.purges, id);
    }
  }

  lemma PurgeMarkOk(s: State, b: nat, id: Id)
    requires PurgesOk(s.now, s.ledger, s.backup, s.purges)
    requires b in s.purges && id in s.purges[b].ids && Empty(s.backup, id)
    ensures PurgesOk(s.now, s.ledger, s.backup, MarkedIn(s.purges, b, id))
  {
    hide Empty, Due;
  }

  function ForgottenState(s: State, b: nat): State
    requires b in s.purges
  {
    s.(ledger := s.ledger - s.purges[b].ids, purges := s.purges - {b})
  }

  lemma CommitPurgeOk(s: State, b: nat)
    requires Inv(s) && b in s.purges && s.purges[b].marked == s.purges[b].ids
    ensures Inv(ForgottenState(s, b)) && Advances(s, ForgottenState(s, b))
  {
    var t := ForgottenState(s, b);
    ForgottenLedger(s, b);
    ForgottenRows(s, b);
    hide FactsOk, RowsOk, PrimaryOk, BackupsOk, LedgerOk, SweepsOk, TombsOk, PurgesOk, WithinQuotas;
    hide Grows, PrimaryPersists, BackupPersists, LedgerPersists, RowsPersist, Advances;
    Untouched(s, t);
    Assemble(s, t);
  }

  lemma ForgottenLedger(s: State, b: nat)
    requires LedgerOk(s.now, s.born, s.rows, s.backup, s.ledger) && BackupsOk(s.now, s.backup, s.ledger, s.next)
    requires PurgesOk(s.now, s.ledger, s.backup, s.purges) && b in s.purges && s.purges[b].marked == s.purges[b].ids
    ensures var t := ForgottenState(s, b);
      && LedgerOk(t.now, t.born, t.rows, t.backup, t.ledger) && BackupsOk(t.now, t.backup, t.ledger, t.next)
      && PurgesOk(t.now, t.ledger, t.backup, t.purges) && LedgerPersists(s, t)
  {
    hide EntryOk, Decode;
  }

  lemma ForgottenRows(s: State, b: nat)
    requires RowsOk(s.now, s.born, s.rows, s.primary, s.lost) && LedgerOk(s.now, s.born, s.rows, s.backup, s.ledger)
    requires PurgesOk(s.now, s.ledger, s.backup, s.purges) && b in s.purges
    ensures RowsPersist(s, ForgottenState(s, b))
  {
    hide Kept, Empty;
    var t := ForgottenState(s, b);
    forall id | id in s.rows ensures RowAdvances(s, t, id) {
      if id in s.purges[b].ids {
        assert EntryOk(s.now, s.born, s.rows, s.backup, id, s.ledger[id]) && Due(s.now, s.ledger[id].expected);
      }
    }
  }

  /* ---------- what workers learn ---------- */

  lemma HeadOk(s: State, id: Id, v: Version)
    requires Inv(s) && Enabled(s, Head(id, v))
    ensures FactOk(Headed(id, v), s)
  {
  }

  lemma CheckCopyOk(s: State, e: Source, capturedAt: Time)
    requires Inv(s) && Enabled(s, CheckCopy(e, capturedAt))
    ensures FactOk(CopyReady(Draft(e, capturedAt), s.primary[e.version].bytes, s.now), s)
  {
    assert FactOk(Reserved(e), s);
  }

  lemma SeeCopyOk(s: State, e: Source, v: Version)
    requires Inv(s) && Enabled(s, SeeCopy(e, v))
    ensures FactOk(Copied(Decode(s.backup[v], v).value), s)
  {
    assert FactOk(Reserved(e), s);
  }

  lemma ReadCopyOk(s: State, m: Manifest, bytes: Bytes)
    requires Inv(s) && Enabled(s, ReadCopy(m, bytes))
    ensures FactOk(ReadBack(m, bytes), s)
  {
    assert FactOk(Copied(m), s);
  }

  lemma LoadRecoveryOk(s: State, id: Id, scope: set<string>)
    requires Inv(s) && Enabled(s, LoadRecovery(id, scope))
    ensures FactOk(Loaded(s.ledger[id].manifest.value), s)
  {
    assert EntryOk(s.now, s.born, s.rows, s.backup, id, s.ledger[id]);
  }

  lemma CheckRestoreOk(s: State, m: Manifest, bytes: Bytes)
    requires Inv(s) && Enabled(s, CheckRestore(m, bytes))
    ensures FactOk(RestoreReady(m, bytes), s)
  {
    assert FactOk(Loaded(m), s);
  }

  lemma SeeRestoreOk(s: State, m: Manifest, v: Version)
    requires Inv(s) && Enabled(s, SeeRestore(m, v))
    ensures FactOk(Restored(m, v, s.primary[v].bytes), s)
  {
    var id := m.source.key;
    assert FactOk(Loaded(m), s);
    assert EntryOk(s.now, s.born, s.rows, s.backup, id, s.ledger[id]);
  }

  /* ---------- objects that land ---------- */

  lemma UploadLandsOk(s: State, id: Id, bytes: Bytes)
    requires Inv(s) && Enabled(s, UploadLands(id, bytes))
    ensures ObjectOk(Object(id, bytes, s.born[id].mediaType, Upload), s.born)
  {
  }

  lemma CopyLandsOk(s: State, draft: Manifest, bytes: Bytes, checkedAt: Time)
    requires Inv(s) && Enabled(s, CopyLands(draft, bytes, checkedAt))
    ensures var o := Object(draft.backupKey, bytes, draft.source.mediaType, CopyOf(draft));
      Empty(s.backup, o.id) && CopyOk(s.next, o, s.ledger) && o.tag.draft.capturedAt <= s.now
          && !Due(s.now, s.ledger[o.id].expected)
  {
    assert FactOk(CopyReady(draft, bytes, checkedAt), s);
  }

  lemma RestoreLandsOk(s: State, m: Manifest, bytes: Bytes)
    requires Inv(s) && Enabled(s, RestoreLands(m, bytes))
    ensures ObjectOk(Object(m.source.key, bytes, m.source.mediaType, RestoreTag(m)), s.born)
  {
    assert FactOk(RestoreReady(m, bytes), s);
  }

  lemma MayRestoreOk(s: State, m: Manifest, v: Version, bytes: Bytes, scope: set<string>)
    requires Inv(s) && Enabled(s, CommitRestore(m, v, bytes, scope))
    ensures MayRestore(s, m.source.key, v)
  {
    assert FactOk(Restored(m, v, bytes), s);
    assert EntryOk(s.now, s.born, s.rows, s.backup, m.source.key, s.ledger[m.source.key]);
  }

  lemma MayCommitSweepOk(s: State, b: nat, pruned: set<Id>, scope: set<string>)
    requires Inv(s) && Enabled(s, CommitSweep(b, pruned, scope))
    ensures MayCommitSweep(s, b, pruned)
  {
    assert s.sweeps[b].startedAt <= s.now;
    assert forall id :: id in pruned ==> Prunable(s, b, id, scope);
  }

  /* ---------- one step, and runs ---------- */

  lemma DirectStepOk(s: State, e: Event)
    requires Inv(s) && Enabled(s, e)
    requires e.Tick? || e.Prepare? || e.Sign? || e.UploadLands? || e.Head? || e.Finalize? || e.Lose?
    ensures Inv(Step(s, e)) && Advances(s, Step(s, e))
  {
    hide Inv, Advances, FactOk, ObjectOk, CopyOk, MayRestore, MayCommitSweep, MayReserve, Decode, ValidManifest,
        VerifyRecovery, ReadsBack;
    hide Inventoried, Closed, QuotaAdmits, Due, Prunable, Rebindable;
    match e
    case Tick(_) => TickOk(s, Step(s, e));
    case Prepare(_, _, _, _, _, _, _, _) => PrepareOk(s, e);
    case Sign(id) => assert FactOk(CanUpload(id), s) by { SignOk(s, id); } LearnOk(s, CanUpload(id));
    case UploadLands(id, bytes) => UploadLandsOk(s, id, bytes);
        PutPrimaryOk(s, Object(id, bytes, s.born[id].mediaType, Upload));
    case Head(id, v) => HeadOk(s, id, v); LearnOk(s, Headed(id, v));
    case Finalize(id, v) => FinalizeOk(s, id, v);
    case Lose(v) => LoseOk(s, v);
  }

  lemma SignOk(s: State, id: Id)
    requires id in s.born
    ensures FactOk(CanUpload(id), s)
  {
  }

  lemma BackupStepOk(s: State, e: Event)
    requires Inv(s) && Enabled(s, e)
    requires e.ReserveCopy? || e.CheckCopy? || e.CopyLands? || e.SeeCopy? || e.ReadCopy? || e.VerifyCopy?
    ensures Inv(Step(s, e)) && Advances(s, Step(s, e))
  {
    hide Inv, Advances, FactOk, ObjectOk, CopyOk, MayRestore, MayCommitSweep, MayReserve, Decode, ValidManifest,
        VerifyRecovery, ReadsBack;
    hide Inventoried, Closed, QuotaAdmits, Due, Prunable, Rebindable;
    match e
    case ReserveCopy(id, scope) =>
      MayReserveOk(s, id, scope);
      ReserveCopyOk(s, id, SnapshotOf(id, s.rows[id].spec, s.rows[id].versionId.value), s.rows[id].spec.job.contract);
    case CheckCopy(source, capturedAt) =>
      CheckCopyOk(s, source, capturedAt);
      LearnOk(s, CopyReady(Draft(source, capturedAt), s.primary[source.version].bytes, s.now));
    case CopyLands(draft, bytes, checkedAt) =>
      CopyLandsOk(s, draft, bytes, checkedAt);
      PutBackupOk(s, Object(draft.backupKey, bytes, draft.source.mediaType, CopyOf(draft)));
    case SeeCopy(source, v) =>
      SeeCopyOk(s, source, v);
      LearnOk(s, Copied(Decode(s.backup[v], v).value));
    case ReadCopy(m, bytes) => ReadCopyOk(s, m, bytes); LearnOk(s, ReadBack(m, bytes));
    case VerifyCopy(m, bytes, scope) => VerifyCopyOk(s, m, bytes, scope);
  }

  lemma RecoveryStepOk(s: State, e: Event)
    requires Inv(s) && Enabled(s, e)
    requires e.LoadRecovery? || e.CheckRestore? || e.RestoreLands? || e.SeeRestore? || e.CommitRestore?
    ensures Inv(Step(s, e)) && Advances(s, Step(s, e))
  {
    hide Inv, Advances, FactOk, ObjectOk, CopyOk, MayRestore, MayCommitSweep, MayReserve, Decode, ValidManifest,
        VerifyRecovery, ReadsBack;
    hide Inventoried, Closed, QuotaAdmits, Due, Prunable, Rebindable;
    match e
    case LoadRecovery(id, scope) => LoadRecoveryOk(s, id, scope); LearnOk(s, Loaded(s.ledger[id].manifest.value));
    case CheckRestore(m, bytes) => CheckRestoreOk(s, m, bytes); LearnOk(s, RestoreReady(m, bytes));
    case RestoreLands(m, bytes) =>
      RestoreLandsOk(s, m, bytes);
      PutPrimaryOk(s, Object(m.source.key, bytes, m.source.mediaType, RestoreTag(m)));
    case SeeRestore(m, v) => SeeRestoreOk(s, m, v); LearnOk(s, Restored(m, v, s.primary[v].bytes));
    case CommitRestore(m, v, bytes, scope) => MayRestoreOk(s, m, v, bytes, scope); CommitRestoreOk(s, m.source.key, v);
  }

  predicate IsSweep(e: Event) {
    e.BeginSweep? || e.SweepDelete? || e.SweepMark? || e.CommitSweep? || e.AbortSweep?
  }

  predicate IsPurge(e: Event) {
    e.BeginPurge? || e.PurgeDelete? || e.PurgeMark? || e.CommitPurge? || e.AbortPurge?
  }

  lemma BatchesOf(s: State)
    requires Inv(s)
    ensures SweepsOk(s.now, s.rows, s.primary, s.sweeps) && PurgesOk(s.now, s.ledger, s.backup, s.purges)
  {
  }

  lemma MayPurgeOk(s: State, b: nat, ids: set<Id>, scope: set<string>)
    requires Enabled(s, BeginPurge(b, ids, scope))
    ensures forall id :: id in ids ==> id in s.ledger && Due(s.now, s.ledger[id].expected) && !Locked(s.purges, id)
  {
  }

  lemma FirstAreClosed(s: State, scope: set<string>, limit: nat)
    ensures var ids := FirstOf(s.rows, ClosedRows(s, scope), limit);
      forall id :: id in ids ==>
          id in s.rows && s.rows[id].purgedAt.None? && Closed(s.now, s.rows[id]) && !Locked(s.sweeps, id)
  {
    hide Closed, Locked;
  }

  lemma BeginSweepStep(s: State, b: nat, ids: set<Id>, scope: set<string>, limit: nat)
    requires Inv(s) && Enabled(s, BeginSweep(b, ids, scope, limit))
    ensures var e := BeginSweep(b, ids, scope, limit); Inv(Step(s, e)) && Advances(s, Step(s, e))
  {
    BatchesOf(s);
    FirstAreClosed(s, scope, limit);
    hide SweepsOk, Purged;
    hide Inv, Advances;
    BeginSweepOk(s, b, ids);
    SweepsChangeOk(s, s.sweeps[b := Batch(s.now, ids, {})]);
  }

  lemma SweepMarkStep(s: State, b: nat, id: Id)
    requires Inv(s) && Enabled(s, SweepMark(b, id))
    ensures Inv(Step(s, SweepMark(b, id))) && Advances(s, Step(s, SweepMark(b, id)))
  {
    BatchesOf(s);
    hide SweepsOk, Purged;
    hide Inv, Advances;
    SweepMarkOk(s, b, id);
    SweepsChangeOk(s, MarkedIn(s.sweeps, b, id));
  }

  lemma CommitSweepStep(s: State, b: nat, pruned: set<Id>, scope: set<string>)
    requires Inv(s) && Enabled(s, CommitSweep(b, pruned, scope))
    ensures Inv(Step(s, CommitSweep(b, pruned, scope))) && Advances(s, Step(s, CommitSweep(b, pruned, scope)))
  {
    BatchesOf(s);
    hide SweepsOk, Purged;
    hide Inv, Advances;
    MayCommitSweepOk(s, b, pruned, scope);
    CommitSweepOk(s, b, pruned);
  }

  lemma SweepStepOk(s: State, e: Event)
    requires Inv(s) && Enabled(s, e) && IsSweep(e)
    ensures Inv(Step(s, e)) && Advances(s, Step(s, e))
  {
    hide Inv, Advances;
    match e
    case BeginSweep(b, ids, scope, limit) => BeginSweepStep(s, b, ids, scope, limit);
    case SweepDelete(b, id, v) => SweepDeleteOk(s, b, id, v);
    case SweepMark(b, id) => SweepMarkStep(s, b, id);
    case CommitSweep(b, pruned, scope) => CommitSweepStep(s, b, pruned, scope);
    case AbortSweep(b) => BatchesOf(s); FewerSweeps(s, b); SweepsChangeOk(s, s.sweeps - {b});
  }

  lemma FewerSweeps(s: State, b: nat)
    requires SweepsOk(s.now, s.rows, s.primary, s.sweeps)
    ensures SweepsOk(s.now, s.rows, s.primary, s.sweeps - {b})
  {
    hide OnlyRestores, Closed;
  }

  lemma BeginPurgeStep(s: State, b: nat, ids: set<Id>, scope: set<string>)
    requires Inv(s) && Enabled(s, BeginPurge(b, ids, scope))
    ensures Inv(Step(s, BeginPurge(b, ids, scope))) && Advances(s, Step(s, BeginPurge(b, ids, scope)))
  {
    BatchesOf(s);
    hide PurgesOk;
    hide Inv, Advances;
    MayPurgeOk(s, b, ids, scope);
    BeginPurgeOk(s, b, ids);
    PurgesChangeOk(s, s.purges[b := Batch(s.now, ids, {})]);
  }

  lemma PurgeMarkStep(s: State, b: nat, id: Id)
    requires Inv(s) && Enabled(s, PurgeMark(b, id))
    ensures Inv(Step(s, PurgeMark(b, id))) && Advances(s, Step(s, PurgeMark(b, id)))
  {
    hide Inv, Advances, PurgesOk;
    BatchesOf(s);
    PurgeMarkOk(s, b, id);
    PurgesChangeOk(s, MarkedIn(s.purges, b, id));
  }

  lemma PurgeStepOk(s: State, e: Event)
    requires Inv(s) && Enabled(s, e) && IsPurge(e)
    ensures Inv(Step(s, e)) && Advances(s, Step(s, e))
  {
    hide Inv, Advances;
    match e
    case BeginPurge(b, ids, scope) => BeginPurgeStep(s, b, ids, scope);
    case PurgeDelete(b, id, v) => PurgeDeleteOk(s, b, id, v);
    case PurgeMark(b, id) => PurgeMarkStep(s, b, id);
    case CommitPurge(b) => CommitPurgeOk(s, b);
    case AbortPurge(b) => BatchesOf(s); FewerPurges(s, b); PurgesChangeOk(s, s.purges - {b});
  }

  lemma FewerPurges(s: State, b: nat)
    requires PurgesOk(s.now, s.ledger, s.backup, s.purges)
    ensures PurgesOk(s.now, s.ledger, s.backup, s.purges - {b})
  {
    hide Empty, Due;
  }

  /** Every event keeps the invariant and only develops the state. */
  lemma StepOk(s: State, e: Event)
    requires Inv(s) && Enabled(s, e)
    ensures Inv(Step(s, e)) && Advances(s, Step(s, e))
  {
    hide Inv, Enabled, Step, Advances;
    if e.Tick? || e.Prepare? || e.Sign? || e.UploadLands? || e.Head? || e.Finalize? || e.Lose? {
      DirectStepOk(s, e);
    } else if e.ReserveCopy? || e.CheckCopy? || e.CopyLands? || e.SeeCopy? || e.ReadCopy? || e.VerifyCopy? {
      BackupStepOk(s, e);
    } else if e.LoadRecovery? || e.CheckRestore? || e.RestoreLands? || e.SeeRestore? || e.CommitRestore? {
      RecoveryStepOk(s, e);
    } else if IsSweep(e) {
      SweepStepOk(s, e);
    } else {
      PurgeStepOk(s, e);
    }
  }

  /** Any interleaving of any number of workers, with crashes, retries, late writes and losses. */
  lemma {:induction false} RunOk(s: State, es: seq<Event>)
    requires Inv(s) && Run(s, es)
    ensures Inv(After(s, es))
    decreases |es|
  {
    hide Inv, Enabled, Step, Advances;
    if es != [] {
      StepOk(s, es[0]);
      RunOk(Step(s, es[0]), es[1..]);
    }
  }
}
