/** Every event of the evidence machine keeps the invariant and develops the state as promised. */
module EvidenceSteps {
  import opened Basics
  import opened Hashing
  import opened Totals
  import opened EvidencePolicy
  import opened Evidence
  import opened EvidenceInvariants

  /* ---------- putting the pieces together ---------- */

  lemma FactsPersist(s: State, t: State)
    requires RowsOk(s.now, s.born, s.rows, s.primary, s.lost) && FactsOk(s) && Advances(s, t) && t.soup == s.soup
    ensures FactsOk(t)
  {
    hide Advances, FactOk, RowsOk;
    forall f | f in t.soup ensures FactOk(f, t) {
      FactPersists(s, t, f);
    }
  }

  /** All of the invariant but the facts, which follow from how the state developed. */
  ghost predicate Tables(s: State) {
    && RowsOk(s.now, s.born, s.rows, s.primary, s.lost)
    && PrimaryOk(s.born, s.primary, s.next)
    && BackupsOk(s.now, s.backup, s.ledger, s.next)
    && LedgerOk(s.now, s.born, s.rows, s.backup, s.ledger)
    && SweepsOk(s.now, s.rows, s.primary, s.sweeps)
    && TombsOk(s.now, s.born, s.rows, s.primary)
    && PurgesOk(s.now, s.ledger, s.backup, s.purges)
    && WithinQuotas(s.rows)
  }

  lemma Assemble(s: State, t: State)
    requires Inv(s) && t.soup == s.soup && Tables(t)
    requires Grows(s, t) && PrimaryPersists(s, t) && BackupPersists(s, t) && LedgerPersists(s, t) && RowsPersist(s, t)
    ensures Inv(t) && Advances(s, t)
  {
    hide FactsOk, RowsOk, PrimaryOk, BackupsOk, LedgerOk, SweepsOk, TombsOk, PurgesOk, WithinQuotas;
    hide Grows, PrimaryPersists, BackupPersists, LedgerPersists, RowsPersist;
    FactsPersist(s, t);
  }

  /** Whatever an event leaves alone persists. */
  lemma Untouched(s: State, t: State)
    requires s.now <= t.now
    ensures s.next <= t.next && s.lost <= t.lost && s.soup <= t.soup
            && t.born == s.born && t.rows.Keys == s.rows.Keys ==>
              Grows(s, t)
    ensures t.primary == s.primary ==> PrimaryPersists(s, t)
    ensures t.backup == s.backup ==> BackupPersists(s, t)
    ensures t.ledger == s.ledger ==> LedgerPersists(s, t)
    ensures t.rows == s.rows && t.ledger == s.ledger ==> RowsPersist(s, t)
  {
  }

  lemma LearnOk(s: State, f: Fact)
    requires Inv(s) && FactOk(f, s)
    ensures Inv(Learn(s, f)) && Advances(s, Learn(s, f))
  {
    var t := Learn(s, f);
    assert forall g :: FactOk(g, t) <==> FactOk(g, s);
    hide FactOk, RowsOk, PrimaryOk, BackupsOk, LedgerOk, SweepsOk, TombsOk, PurgesOk, WithinQuotas;
    hide Grows, PrimaryPersists, BackupPersists, LedgerPersists, RowsPersist;
    Untouched(s, t);
  }

  /* ---------- time ---------- */

  lemma TickOk(s: State, t: State)
    requires Inv(s) && t == s.(now := t.now) && s.now <= t.now
    ensures Inv(t) && Advances(s, t)
  {
    LaterRows(s, t);
    LaterLedger(s, t);
    LaterSweeps(s, t);
    LaterPurges(s, t);
    MoreBackups(s, t);
    hide FactsOk, RowsOk, PrimaryOk, BackupsOk, LedgerOk, SweepsOk, TombsOk, PurgesOk, WithinQuotas;
    hide Grows, PrimaryPersists, BackupPersists, LedgerPersists, RowsPersist, Advances;
    Untouched(s, t);
    Assemble(s, t);
  }

  lemma LaterRows(s: State, t: State)
    requires t == s.(now := t.now) && s.now <= t.now
    ensures RowsOk(s.now, s.born, s.rows, s.primary, s.lost) ==> RowsOk(t.now, t.born, t.rows, t.primary, t.lost)
    ensures TombsOk(s.now, s.born, s.rows, s.primary) ==> TombsOk(t.now, t.born, t.rows, t.primary)
  {
  }

  lemma LaterLedger(s: State, t: State)
    requires LedgerOk(s.now, s.born, s.rows, s.backup, s.ledger) && t == s.(now := t.now) && s.now <= t.now
    ensures LedgerOk(t.now, t.born, t.rows, t.backup, t.ledger)
  {
    hide Decode, ValidManifest;
  }

  lemma LaterSweeps(s: State, t: State)
    requires SweepsOk(s.now, s.rows, s.primary, s.sweeps) && t == s.(now := t.now) && s.now <= t.now
    ensures SweepsOk(t.now, t.rows, t.primary, t.sweeps)
  {
  }

  lemma LaterPurges(s: State, t: State)
    requires PurgesOk(s.now, s.ledger, s.backup, s.purges) && t == s.(now := t.now) && s.now <= t.now
    ensures PurgesOk(t.now, t.ledger, t.backup, t.purges)
  {
  }

  /* ---------- objects arriving ---------- */

  lemma PutPrimaryOk(s: State, o: Object)
    requires Inv(s) && ObjectOk(o, s.born)
    requires o.tag.RestoreOf? || s.now <= s.born[o.id].uploadExpiresAt + SIGNING_SLACK
    ensures Inv(PutPrimary(s, o)) && Advances(s, PutPrimary(s, o))
  {
    var t := PutPrimary(s, o);
    PutPrimaryRows(s, o);
    PutPrimarySweeps(s, o);
    hide FactsOk, RowsOk, PrimaryOk, BackupsOk, LedgerOk, SweepsOk, TombsOk, PurgesOk, WithinQuotas;
    hide Grows, PrimaryPersists, BackupPersists, LedgerPersists, RowsPersist, Advances;
    Untouched(s, t);
    MoreBackups(s, t);
    Assemble(s, t);
  }

  lemma PutPrimaryRows(s: State, o: Object)
    requires RowsOk(s.now, s.born, s.rows, s.primary, s.lost) && PrimaryOk(s.born, s.primary, s.next)
        && ObjectOk(o, s.born)
    ensures var t := PutPrimary(s, o);
      RowsOk(t.now, t.born, t.rows, t.primary, t.lost) && PrimaryOk(t.born, t.primary, t.next) && PrimaryPersists(s, t)
  {
  }

  lemma PutPrimarySweeps(s: State, o: Object)
    requires RowsOk(s.now, s.born, s.rows, s.primary, s.lost) && SweepsOk(s.now, s.rows, s.primary, s.sweeps)
    requires PrimaryOk(s.born, s.primary, s.next) && TombsOk(s.now, s.born, s.rows, s.primary) && ObjectOk(o, s.born)
    requires o.tag.RestoreOf? || s.now <= s.born[o.id].uploadExpiresAt + SIGNING_SLACK
    ensures var t := PutPrimary(s, o);
      SweepsOk(t.now, t.rows, t.primary, t.sweeps) && TombsOk(t.now, t.born, t.rows, t.primary)
  {
    var t := PutPrimary(s, o);
    forall b, id | b in s.sweeps && id in s.sweeps[b].marked ensures OnlyRestores(t.primary, id) {
      assert OnlyRestores(s.primary, id) && Closed(s.now, s.rows[id]) && SpecOk(s.born[id]);
    }
  }

  lemma MoreBackups(s: State, t: State)
    requires BackupsOk(s.now, s.backup, s.ledger, s.next) && t.backup == s.backup && t.ledger == s.ledger
        && s.next <= t.next && s.now <= t.now
    ensures BackupsOk(t.now, t.backup, t.ledger, t.next)
  {
    hide CopyOk;
  }

  lemma PutBackupOk(s: State, o: Object)
    requires Inv(s) && Empty(s.backup, o.id) && CopyOk(s.next, o, s.ledger) && o.tag.draft.capturedAt <= s.now
        && !Due(s.now, s.ledger[o.id].expected)
    ensures Inv(PutBackup(s, o)) && Advances(s, PutBackup(s, o))
  {
    var t := PutBackup(s, o);
    PutBackupBucket(s, o);
    PutBackupLedger(s, o);
    assert PrimaryOk(t.born, t.primary, t.next);
    hide FactsOk, RowsOk, PrimaryOk, BackupsOk, LedgerOk, SweepsOk, TombsOk, PurgesOk, WithinQuotas, CopyOk;
    hide Grows, PrimaryPersists, BackupPersists, LedgerPersists, RowsPersist, Advances;
    Untouched(s, t);
    Assemble(s, t);
  }

  lemma PutBackupBucket(s: State, o: Object)
    requires BackupsOk(s.now, s.backup, s.ledger, s.next) && PurgesOk(s.now, s.ledger, s.backup, s.purges)
    requires Empty(s.backup, o.id) && CopyOk(s.next, o, s.ledger) && o.tag.draft.capturedAt <= s.now
        && !Due(s.now, s.ledger[o.id].expected)
    ensures var t := PutBackup(s, o);
      BackupsOk(t.now, t.backup, t.ledger, t.next) && PurgesOk(t.now, t.ledger, t.backup, t.purges)
          && BackupPersists(s, t)
  {
    hide CopyOk;
  }

  lemma PutBackupLedger(s: State, o: Object)
    requires LedgerOk(s.now, s.born, s.rows, s.backup, s.ledger) && BackupsOk(s.now, s.backup, s.ledger, s.next)
    ensures LedgerOk(s.now, s.born, s.rows, PutBackup(s, o).backup, s.ledger)
  {
    hide Decode, ValidManifest, CopyOk;
  }

  /* ---------- objects leaving ---------- */

  lemma LoseOk(s: State, v: Version)
    requires Inv(s) && v in s.primary
    ensures var t := s.(primary := s.primary - {v}, lost := s.lost + {v}); Inv(t) && Advances(s, t)
  {
    var t := s.(primary := s.primary - {v}, lost := s.lost + {v});
    LostRows(s, v);
    FewerObjects(s, v);
    hide FactsOk, RowsOk, PrimaryOk, BackupsOk, LedgerOk, SweepsOk, TombsOk, PurgesOk, WithinQuotas;
    hide Grows, PrimaryPersists, BackupPersists, LedgerPersists, RowsPersist, Advances;
    Untouched(s, t);
    Assemble(s, t);
  }

  lemma LostRows(s: State, v: Version)
    requires RowsOk(s.now, s.born, s.rows, s.primary, s.lost)
    ensures var t := s.(primary := s.primary - {v}, lost := s.lost + {v});
      RowsOk(t.now, t.born, t.rows, t.primary, t.lost) && PrimaryPersists(s, t)
  {
  }

  lemma FewerObjects(s: State, v: Version)
    ensures PrimaryOk(s.born, s.primary, s.next) ==> PrimaryOk(s.born, s.primary - {v}, s.next)
    ensures SweepsOk(s.now, s.rows, s.primary, s.sweeps) ==> SweepsOk(s.now, s.rows, s.primary - {v}, s.sweeps)
    ensures TombsOk(s.now, s.born, s.rows, s.primary) ==> TombsOk(s.now, s.born, s.rows, s.primary - {v})
  {
  }

  lemma SweepDeleteOk(s: State, b: nat, id: Id, v: Version)
    requires Inv(s) && b in s.sweeps && id in s.sweeps[b].ids && v in s.primary && s.primary[v].id == id
    ensures var t := s.(primary := s.primary - {v}); Inv(t) && Advances(s, t)
  {
    var t := s.(primary := s.primary - {v});
    SweptRows(s, b, id, v);
    FewerObjects(s, v);
    hide FactsOk, RowsOk, PrimaryOk, BackupsOk, LedgerOk, SweepsOk, TombsOk, PurgesOk, WithinQuotas;
    hide Grows, PrimaryPersists, BackupPersists, LedgerPersists, RowsPersist, Advances;
    Untouched(s, t);
    Assemble(s, t);
  }

  lemma SweptRows(s: State, b: nat, id: Id, v: Version)
    requires RowsOk(s.now, s.born, s.rows, s.primary, s.lost) && SweepsOk(s.now, s.rows, s.primary, s.sweeps)
    requires b in s.sweeps && id in s.sweeps[b].ids && v in s.primary && s.primary[v].id == id
    ensures var t := s.(primary := s.primary - {v});
      RowsOk(t.now, t.born, t.rows, t.primary, t.lost) && PrimaryPersists(s, t)
  {
    assert Closed(s.now, s.rows[id]);
    assert Closing(s.(primary := s.primary - {v}), id);
  }

  lemma PurgeDeleteOk(s: State, b: nat, id: Id, v: Version)
    requires Inv(s) && b in s.purges && id in s.purges[b].ids && v in s.backup && s.backup[v].id == id
    ensures var t := s.(backup := s.backup - {v}); Inv(t) && Advances(s, t)
  {
    var t := s.(backup := s.backup - {v});
    FewerCopies(s, b, id, v);
    PurgedLedger(s, b, id, v);
    hide FactsOk, RowsOk, PrimaryOk, BackupsOk, LedgerOk, SweepsOk, TombsOk, PurgesOk, WithinQuotas;
    hide Grows, PrimaryPersists, BackupPersists, LedgerPersists, RowsPersist, Advances;
    Untouched(s, t);
    Assemble(s, t);
  }

  lemma FewerCopies(s: State, b: nat, id: Id, v: Version)
    requires BackupsOk(s.now, s.backup, s.ledger, s.next) && PurgesOk(s.now, s.ledger, s.backup, s.purges)
    requires b in s.purges && id in s.purges[b].ids && v in s.backup && s.backup[v].id == id
    ensures var t := s.(backup := s.backup - {v});
      BackupsOk(t.now, t.backup, t.ledger, t.next) && PurgesOk(t.now, t.ledger, t.backup, t.purges)
          && BackupPersists(s, t)
  {
    hide CopyOk;
  }

  lemma PurgedLedger(s: State, b: nat, id: Id, v: Version)
    requires LedgerOk(s.now, s.born, s.rows, s.backup, s.ledger) && PurgesOk(s.now, s.ledger, s.backup, s.purges)
    requires b in s.purges && id in s.purges[b].ids && v in s.backup && s.backup[v].id == id
    ensures LedgerOk(s.now, s.born, s.rows, s.backup - {v}, s.ledger)
  {
    hide Decode;
    assert Due(s.now, s.ledger[id].expected);
    forall k | k in s.ledger ensures EntryOk(s.now, s.born, s.rows, s.backup - {v}, k, s.ledger[k]) {
      assert EntryOk(s.now, s.born, s.rows, s.backup, k, s.ledger[k]);
    }
  }

  /* ---------- records ---------- */

  lemma SameUsage(rows: map<Id, Row>, id: Id, row: Row)
    requires id in rows && row.spec == rows[id].spec && row.purgedAt == rows[id].purgedAt
    ensures WithinQuotas(rows) ==> WithinQuotas(rows[id := row])
  {
    var next := rows[id := row];
    if WithinQuotas(rows) {
      assert Usage(next) == Usage(rows);
      forall job ensures |JobUsage(next, job)| <= JOB_ROWS && Total(JobUsage(next, job)) <= JOB_BYTES {
        assert JobUsage(next, job) == JobUsage(rows, job);
      }
    }
  }

  lemma FinalizeOk(s: State, id: Id, v: Version)
    requires Inv(s) && Enabled(s, Finalize(id, v))
    ensures Inv(Step(s, Finalize(id, v))) && Advances(s, Step(s, Finalize(id, v)))
  {
    var t := s.(rows := s.rows[id := s.rows[id].(versionId := Coalesce(s.rows[id].versionId, v))]);
    assert FactOk(Headed(id, v), s);
    assert Step(s, Finalize(id, v)) == t;
    var row := s.rows[id];
    assert row.versionId.None? ==> s.now < row.spec.uploadExpiresAt;
    assert !Locked(s.sweeps, id);
    SameUsage(s.rows, id, t.rows[id]);
    FinalizedRows(s, id, v);
    FinalizedSweeps(s, id, v);
    FinalizedLedger(s, id, v);
    hide FactsOk, RowsOk, PrimaryOk, BackupsOk, LedgerOk, SweepsOk, TombsOk, PurgesOk, WithinQuotas;
    hide Grows, PrimaryPersists, BackupPersists, LedgerPersists, RowsPersist, Advances;
    hide Enabled, Step;
    Untouched(s, t);
    Assemble(s, t);
  }

  lemma FinalizedRows(s: State, id: Id, v: Version)
    requires RowsOk(s.now, s.born, s.rows, s.primary, s.lost) && TombsOk(s.now, s.born, s.rows, s.primary)
    requires id in s.rows && FactOk(Headed(id, v), s)
    requires s.rows[id].versionId.None? ==> s.now < s.rows[id].spec.uploadExpiresAt
    ensures var t := s.(rows := s.rows[id := s.rows[id].(versionId := Coalesce(s.rows[id].versionId, v))]);
      && RowsOk(t.now, t.born, t.rows, t.primary, t.lost) && TombsOk(t.now, t.born, t.rows, t.primary)
         && RowsPersist(s, t)
  {
    hide OnlyRestores, Held;
    FinalizedAdvances(s, id, v);
    hide RowsPersist;
  }

  lemma FinalizedSweeps(s: State, id: Id, v: Version)
    requires SweepsOk(s.now, s.rows, s.primary, s.sweeps) && id in s.rows && !Locked(s.sweeps, id)
    ensures SweepsOk(s.now, s.rows[id := s.rows[id].(versionId := Coalesce(s.rows[id].versionId, v))], s.primary,
        s.sweeps)
  {
    hide OnlyRestores, Closed;
    forall b | b in s.sweeps ensures id !in s.sweeps[b].ids {
    }
  }

  lemma FinalizedAdvances(s: State, id: Id, v: Version)
    requires id in s.rows
    requires s.rows[id].versionId.None? ==> s.now < s.rows[id].spec.uploadExpiresAt
    ensures RowsPersist(s, s.(rows := s.rows[id := s.rows[id].(versionId := Coalesce(s.rows[id].versionId, v))]))
  {
  }

  lemma FinalizedLedger(s: State, id: Id, v: Version)
    requires LedgerOk(s.now, s.born, s.rows, s.backup, s.ledger) && id in s.rows
    ensures LedgerOk(s.now, s.born, s.rows[id := s.rows[id].(versionId := Coalesce(s.rows[id].versionId, v))], s.backup,
        s.ledger)
  {
    hide Kept;
  }

  lemma PrepareOk(s: State, e: Event)
    requires Inv(s) && e.Prepare? && Enabled(s, e)
    ensures Inv(Step(s, e)) && Advances(s, Step(s, e))
  {
    var spec := PreparedSpec(e);
    var t := s.(born := s.born[e.id := spec], rows := s.rows[e.id := Row(spec, None, None)]);
    assert Step(s, e) == t;
    assert SpecOk(spec) && e.id !in s.born && QuotaAdmits(s.rows, spec);
    hide Enabled, Step;
    NewRow(s, e.id, spec);
    NewRowElsewhere(s, e.id, spec);
    NewUsage(s.rows, e.id, spec);
    hide FactsOk, RowsOk, PrimaryOk, BackupsOk, LedgerOk, SweepsOk, TombsOk, PurgesOk, WithinQuotas;
    hide Grows, PrimaryPersists, BackupPersists, LedgerPersists, RowsPersist, Advances;
    Untouched(s, t);
    Assemble(s, t);
  }

  lemma NewRow(s: State, id: Id, spec: Spec)
    requires RowsOk(s.now, s.born, s.rows, s.primary, s.lost) && PrimaryOk(s.born, s.primary, s.next)
    requires TombsOk(s.now, s.born, s.rows, s.primary) && id !in s.born && SpecOk(spec)
    ensures id !in s.rows
    ensures var t := s.(born := s.born[id := spec], rows := s.rows[id := Row(spec, None, None)]);
      && RowsOk(t.now, t.born, t.rows, t.primary, t.lost) && PrimaryOk(t.born, t.primary, t.next)
      && TombsOk(t.now, t.born, t.rows, t.primary) && Grows(s, t) && RowsPersist(s, t)
  {
    hide OnlyRestores;
  }

  lemma NewRowElsewhere(s: State, id: Id, spec: Spec)
    requires RowsOk(s.now, s.born, s.rows, s.primary, s.lost) && id !in s.born
    requires SweepsOk(s.now, s.rows, s.primary, s.sweeps) && LedgerOk(s.now, s.born, s.rows, s.backup, s.ledger)
    ensures var t := s.(born := s.born[id := spec], rows := s.rows[id := Row(spec, None, None)]);
      SweepsOk(t.now, t.rows, t.primary, t.sweeps) && LedgerOk(t.now, t.born, t.rows, t.backup, t.ledger)
  {
    hide OnlyRestores, Kept;
  }

  lemma NewUsage(rows: map<Id, Row>, id: Id, spec: Spec)
    requires WithinQuotas(rows) && QuotaAdmits(rows, spec) && id !in rows
    ensures WithinQuotas(rows[id := Row(spec, None, None)])
  {
    var next := rows[id := Row(spec, None, None)];
    assert Usage(next) == Usage(rows)[id := spec.sizeBytes];
    TotalInsert(Usage(rows), id, spec.sizeBytes);
    forall job ensures |JobUsage(next, job)| <= JOB_ROWS && Total(JobUsage(next, job)) <= JOB_BYTES {
      NewJobUsage(rows, id, spec, job);
    }
  }

  lemma NewJobUsage(rows: map<Id, Row>, id: Id, spec: Spec, job: Job)
    requires |JobUsage(rows, job)| <= JOB_ROWS && Total(JobUsage(rows, job)) <= JOB_BYTES
    requires QuotaAdmits(rows, spec) && id !in rows
    ensures var next := rows[id := Row(spec, None, None)];
      |JobUsage(next, job)| <= JOB_ROWS && Total(JobUsage(next, job)) <= JOB_BYTES
  {
    var next := rows[id := Row(spec, None, None)];
    if job == spec.job {
      assert JobUsage(next, job) == JobUsage(rows, job)[id := spec.sizeBytes];
      TotalInsert(JobUsage(rows, job), id, spec.sizeBytes);
    } else {
      assert JobUsage(next, job) == JobUsage(rows, job);
    }
  }

  /* ---------- the ledger ---------- */

  lemma RecordOk(s: State, id: Id, b: Backup)
    requires Inv(s) && EntryOk(s.now, s.born, s.rows, s.backup, id, b) && b.restoredVersion.None?
    requires id in s.ledger ==> BackupAdvances(s.ledger[id], b)
    ensures var t := s.(ledger := s.ledger[id := b]); Inv(t) && Advances(s, t)
  {
    var t := s.(ledger := s.ledger[id := b]);
    RecordedLedger(s, id, b);
    hide FactsOk, RowsOk, PrimaryOk, BackupsOk, LedgerOk, SweepsOk, TombsOk, PurgesOk, WithinQuotas;
    hide Grows, PrimaryPersists, BackupPersists, LedgerPersists, RowsPersist, Advances;
    Untouched(s, t);
    Assemble(s, t);
  }

  lemma RecordedLedger(s: State, id: Id, b: Backup)
    requires LedgerOk(s.now, s.born, s.rows, s.backup, s.ledger) && BackupsOk(s.now, s.backup, s.ledger, s.next)
    requires PurgesOk(s.now, s.ledger, s.backup, s.purges)
    requires EntryOk(s.now, s.born, s.rows, s.backup, id, b) && b.restoredVersion.None?
    requires id in s.ledger ==> BackupAdvances(s.ledger[id], b)
    ensures var t := s.(ledger := s.ledger[id := b]);
      && LedgerOk(t.now, t.born, t.rows, t.backup, t.ledger) && BackupsOk(t.now, t.backup, t.ledger, t.next)
      && PurgesOk(t.now, t.ledger, t.backup, t.purges) && LedgerPersists(s, t) && RowsPersist(s, t)
  {
    hide Kept, Decode, Empty;
  }

  lemma VerifyCopyOk(s: State, m: Manifest, bytes: Bytes, scope: set<string>)
    requires Inv(s) && Enabled(s, VerifyCopy(m, bytes, scope))
    ensures Inv(Step(s, VerifyCopy(m, bytes, scope))) && Advances(s, Step(s, VerifyCopy(m, bytes, scope)))
  {
    var id := m.source.key;
    assert FactOk(ReadBack(m, bytes), s);
    assert EntryOk(s.now, s.born, s.rows, s.backup, id, s.ledger[id]);
    assert s.ledger[id].expected == m.source;
    assert s.ledger[id].manifest.Some? ==> s.ledger[id].manifest.value == m;
    var b := s.ledger[id].(manifest := Some(m));
    assert EntryOk(s.now, s.born, s.rows, s.backup, id, b);
    RecordOk(s, id, b);
  }

  function IntentState(s: State, id: Id, e: Source, contract: string): State {
    Learn(if id in s.ledger then s else s.(ledger := s.ledger[id := Backup(e, contract, None, None)]), Reserved(e))
  }

  ghost predicate MayReserve(s: State, id: Id, e: Source, contract: string) {
    && id in s.born && OfSpec(e, s.born[id]) && e.key == id
    && (id in s.ledger ==> FactOk(Reserved(e), s))
    && (id !in s.ledger ==> EntryOk(s.now, s.born, s.rows, s.backup, id, Backup(e, contract, None, None)))
  }

  lemma MayReserveOk(s: State, id: Id, scope: set<string>)
    requires Inv(s) && Enabled(s, ReserveCopy(id, scope))
    ensures MayReserve(s, id, SnapshotOf(id, s.rows[id].spec, s.rows[id].versionId.value), s.rows[id].spec.job.contract)
  {
  }

  lemma ReserveCopyOk(s: State, id: Id, e: Source, contract: string)
    requires Inv(s) && MayReserve(s, id, e, contract)
    ensures Inv(IntentState(s, id, e, contract)) && Advances(s, IntentState(s, id, e, contract))
  {
    hide Inv, Advances, EntryOk;
    if id in s.ledger {
      LearnOk(s, Reserved(e));
    } else {
      var b := Backup(e, contract, None, None);
      RecordOk(s, id, b);
      var t := s.(ledger := s.ledger[id := b]);
      LearnOk(t, Reserved(e));
      AdvancesThenLearns(s, t, Reserved(e));
    }
  }

  lemma AdvancesThenLearns(s: State, t: State, f: Fact)
    requires Advances(s, t)
    ensures Advances(s, Learn(t, f))
  {
  }
}
