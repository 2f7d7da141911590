/** What the evidence machine guarantees of every run. */
module EvidenceTheorems {
  import opened Basics
  import opened Hashing
  import opened Totals
  import opened EvidencePolicy
  import opened Evidence
  import opened EvidenceInvariants
  import opened EvidenceRuns
  import opened EvidenceEffects

  ghost predicate Reachable(s: State) {
    exists es :: Run(START, es) && After(START, es) == s
  }

  lemma ReachableOk(s: State)
    requires Reachable(s)
    ensures Inv(s)
  {
    hide Inv;
    var es :| Run(START, es) && After(START, es) == s;
    StartOk();
    RunOk(START, es);
  }

  /* ---------- backups ---------- */

  /** No orphans: whatever is in the backup bucket is the only version of its key, has its ledger row, and is the copy
      that row expects. */
  lemma NoOrphanBackups(s: State, v: Version)
    requires Reachable(s) && v in s.backup
    ensures var id := s.backup[v].id;
      && id in s.ledger && s.ledger[id].expected.key == id
      && |s.backup[v].bytes| == s.ledger[id].expected.sizeBytes
      && Sha256(s.backup[v].bytes) == s.ledger[id].expected.sha256
      && s.backup[v].mediaType == s.ledger[id].expected.mediaType
      && forall u :: u in s.backup && s.backup[u].id == id ==> u == v
  {
    ReachableOk(s);
    assert CopyOk(v, s.backup[v], s.ledger);
  }

  /** A verified row's exact version is there, byte for byte, until its deletion date. */
  lemma VerifiedBackupIsKept(s: State, id: Id)
    requires Reachable(s) && Verified(s, id) && s.now < s.ledger[id].expected.expiresAt + GRACE
    ensures var m := s.ledger[id].manifest.value;
      && m.deleteAt == s.ledger[id].expected.expiresAt + 604800000
      && m.backupVersion.Some? && m.backupVersion.value in s.backup
      && Decode(s.backup[m.backupVersion.value], m.backupVersion.value) == Some(m)
      && |s.backup[m.backupVersion.value].bytes| == s.ledger[id].expected.sizeBytes
      && Sha256(s.backup[m.backupVersion.value].bytes) == s.ledger[id].expected.sha256
      && Latest(s.backup, id, m.backupVersion.value)
  {
    ReachableOk(s);
    var m := s.ledger[id].manifest.value;
    assert EntryOk(s.now, s.born, s.rows, s.backup, id, s.ledger[id]) && Kept(s.now, s.backup, m);
    forall u | u in s.backup && s.backup[u].id == id ensures u == m.backupVersion.value {
    }
  }

  /** Backup bytes are read only before the record expires, only under the key the manifest names, and only whole. */
  lemma ExpiredCopiesAreNeverRead(s: State, e: Event)
    requires Reachable(s) && Enabled(s, e) && (e.ReadCopy? || e.CheckRestore?)
    ensures var m := e.manifest;
      && m.capturedAt <= s.now < m.source.expiresAt
      && m.backupVersion.Some? && m.backupVersion.value in s.backup
      && s.backup[m.backupVersion.value].id == m.source.key && s.backup[m.backupVersion.value].bytes == e.bytes
      && |e.bytes| == m.source.sizeBytes && Sha256(e.bytes) == m.source.sha256
  {
  }

  /** A ledger row goes only when it is due and its backup key is empty. */
  lemma LedgerRowsOutliveTheirCopies(s: State, e: Event, id: Id)
    requires Inv(s) && Enabled(s, e) && id in s.ledger && id !in Step(s, e).ledger
    ensures e.CommitPurge? && Empty(s.backup, id) && Empty(Step(s, e).backup, id)
    ensures s.ledger[id].expected.expiresAt + GRACE <= s.now
  {
    hide Enabled, Step, Inv, Empty;
    StepLedger(s, e);
    BatchGuards(s, e);
    BatchesOf(s);
    StepPrimary(s, e);
    assert e.CommitPurge? && id in s.purges[e.t].marked;
  }

  /* ---------- pinned versions ---------- */

  /** Unless something outside the program removed it, the version an unexpired record is pinned to exists and matches
      the record. */
  lemma PinnedVersionIsAvailable(s: State, id: Id, v: Version)
    requires Reachable(s) && id in s.rows && s.rows[id].versionId == Some(v)
    requires s.now < s.rows[id].spec.expiresAt && v !in s.lost
    ensures v in s.primary && s.primary[v].id == id
    ensures |s.primary[v].bytes| == s.rows[id].spec.sizeBytes && Sha256(s.primary[v].bytes) == s.rows[id].spec.sha256
    ensures s.primary[v].mediaType == s.rows[id].spec.mediaType
  {
    ReachableOk(s);
    assert ObjectOk(s.primary[v], s.born);
  }

  /** What can become of a record over any stretch of a run. */
  lemma {:induction false} RecordsOverRuns(s: State, es: seq<Event>)
    requires Inv(s) && Run(s, es)
    ensures var t := After(s, es);
      RowsPersist(s, t) && LedgerPersists(s, t) && Grows(s, t)
    decreases |es|
  {
    hide Inv, Enabled, Step, RowsPersist, LedgerPersists, Grows;
    if es == [] {
      Unmoved(s);
    } else {
      var t := Step(s, es[0]);
      StepOk(s, es[0]);
      ForThisStep(s, t);
      RecordsOverRuns(t, es[1..]);
      var u := After(t, es[1..]);
      RowsInside(s);
      RowsInside(t);
      RowsChain(s, t, u);
      LedgerChain(s, t, u);
    }
  }

  lemma ForThisStep(s: State, t: State)
    requires Advances(s, t)
    ensures RowsPersist(s, t) && LedgerPersists(s, t) && Grows(s, t)
  {
  }

  lemma Unmoved(s: State)
    ensures RowsPersist(s, s) && LedgerPersists(s, s) && Grows(s, s)
  {
    forall id | id in s.rows ensures RowAdvances(s, s, id) {
    }
  }

  lemma RowsInside(s: State)
    requires Inv(s)
    ensures forall id :: id in s.rows ==> id in s.born
  {
  }

  lemma RowsChain(s: State, t: State, u: State)
    requires RowsPersist(s, t) && RowsPersist(t, u) && Grows(s, t) && Grows(t, u)
    requires (forall id :: id in s.rows ==> id in s.born) && (forall id :: id in t.rows ==> id in t.born)
    ensures RowsPersist(s, u) && Grows(s, u)
  {
    hide Rebound;
    forall id | id in s.rows && id in u.rows ensures RowAdvances(s, u, id) {
      assert id in t.born;
      RowChain(s, t, u, id);
    }
  }

  lemma RowChain(s: State, t: State, u: State, id: Id)
    requires id in s.rows && id in t.rows && id in u.rows && s.now <= t.now <= u.now
    requires RowAdvances(s, t, id) && RowAdvances(t, u, id)
    ensures RowAdvances(s, u, id)
  {
    hide Rebound;
  }

  lemma LedgerChain(s: State, t: State, u: State)
    requires LedgerPersists(s, t) && LedgerPersists(t, u) && Grows(t, u)
    ensures LedgerPersists(s, u)
  {
  }

  /** Once pinned, a record's version changes at most once, only by a committed restore before expiry; its expiry never
      changes. */
  lemma PinsChangeOnlyByOneRestore(s: State, es: seq<Event>, fs: seq<Event>, id: Id)
    requires Reachable(s) && Run(s, es) && Run(After(s, es), fs)
    requires id in s.rows && s.rows[id].versionId.Some? && id in After(After(s, es), fs).rows
    ensures var t := After(s, es);
      var u := After(t, fs);
      && id in t.rows && t.rows[id].versionId.Some? && u.rows[id].versionId.Some?
      && t.rows[id].spec.expiresAt == s.rows[id].spec.expiresAt == u.rows[id].spec.expiresAt
      && (t.rows[id].versionId != s.rows[id].versionId ==>
            && s.now < s.rows[id].spec.expiresAt
            && (id in t.ledger && t.now < s.rows[id].spec.expiresAt ==>
               t.ledger[id].restoredVersion == t.rows[id].versionId)
            && u.rows[id].versionId == t.rows[id].versionId)
  {
    ReachableOk(s);
    RunOk(s, es);
    RecordsOverRuns(s, es);
    var t := After(s, es);
    RecordsOverRuns(t, fs);
    RowsInside(s);
    var u := After(t, fs);
    assert id in t.rows;
    assert RowAdvances(s, t, id) && RowAdvances(t, u, id);
    if id in t.ledger {
      PinIsLedgers(t, id);
    }
  }

  lemma PinIsLedgers(s: State, id: Id)
    requires Inv(s) && id in s.rows && id in s.ledger
    ensures s.rows[id].versionId == Coalesce(s.ledger[id].restoredVersion, s.ledger[id].expected.version)
  {
    assert EntryOk(s.now, s.born, s.rows, s.backup, id, s.ledger[id]);
  }

  /** A step that moves a pin is a restore of an unexpired record that has no tombstone, to an existing version with the
      ledger's bytes. */
  lemma OnlyRestoresMovePins(s: State, e: Event, id: Id)
    requires Reachable(s) && Enabled(s, e) && id in s.rows && id in Step(s, e).rows && s.rows[id].versionId.Some?
    requires Step(s, e).rows[id].versionId != s.rows[id].versionId
    ensures e.CommitRestore? && e.manifest.source.key == id
    ensures s.now < s.rows[id].spec.expiresAt && s.rows[id].purgedAt.None?
    ensures Verified(s, id) && s.ledger[id].restoredVersion.None?
        && s.rows[id].versionId == Some(s.ledger[id].expected.version)
    ensures var t := Step(s, e);
      && t.rows[id].versionId == Some(e.version) && t.ledger[id].restoredVersion == Some(e.version)
      && BytesMatch(s.ledger[id].expected, e.bytes) && t.rows[id].spec == s.rows[id].spec
      && (e.version in s.lost || (e.version in s.primary && s.primary[e.version].id == id
         && s.primary[e.version].bytes == e.bytes))
  {
    ReachableOk(s);
    RowsInside(s);
    hide Inv, Decode, VerifyRecovery;
    MovingStep(s, e, id);
    RestoredIsThere(s, e.manifest, e.version, e.bytes);
  }

  lemma MovingStep(s: State, e: Event, id: Id)
    requires Enabled(s, e) && id in s.born && id in s.rows && id in Step(s, e).rows && s.rows[id].versionId.Some?
    requires Step(s, e).rows[id].versionId != s.rows[id].versionId
    ensures e.CommitRestore? && e.manifest.source.key == id
    ensures s.now < s.rows[id].spec.expiresAt && s.rows[id].purgedAt.None?
    ensures Verified(s, id) && s.ledger[id].restoredVersion.None?
        && s.rows[id].versionId == Some(s.ledger[id].expected.version)
    ensures Restored(e.manifest, e.version, e.bytes) in s.soup && BytesMatch(s.ledger[id].expected, e.bytes)
    ensures Step(s, e).rows[id] == s.rows[id].(versionId := Some(e.version))
    ensures id in Step(s, e).ledger && Step(s, e).ledger[id].restoredVersion == Some(e.version)
  {
    hide Enabled, Step;
    StepRows(s, e);
    StepLedger(s, e);
    VersionGuards(s, e);
    assert e.CommitRestore? && e.manifest.source.key == id;
    CommitGuards(s, e.manifest, e.version, e.bytes, e.scope);
  }

  lemma RestoredIsThere(s: State, m: Manifest, v: Version, bytes: Bytes)
    requires Inv(s) && Restored(m, v, bytes) in s.soup && m.source.key in s.rows
        && s.now < s.rows[m.source.key].spec.expiresAt
    ensures v in s.lost || (v in s.primary && s.primary[v].id == m.source.key && s.primary[v].bytes == bytes)
  {
    assert FactOk(Restored(m, v, bytes), s);
    if v !in s.lost {
      assert ObjectOk(s.primary[v], s.born);
    }
  }

  /* ---------- windows ---------- */

  /** Prepared at a past moment for five minutes of uploading, and kept for ten minutes to a year. */
  ghost predicate WindowsOk(s: State) {
    forall id :: id in s.born ==>
      && 300000 <= s.born[id].uploadExpiresAt <= s.now + 300000
      && s.born[id].uploadExpiresAt + 300000 <= s.born[id].expiresAt <= s.born[id].uploadExpiresAt + 31535700000
  }

  lemma StepBorn(s: State, e: Event)
    requires Enabled(s, e)
    ensures Step(s, e).born == if e.Prepare? then s.born[e.id := PreparedSpec(e)] else s.born
    ensures s.now <= Step(s, e).now
  {
    hide Enabled, Decode, Draft, RestoreTag, Purged, SnapshotOf, Coalesce, MarkedIn, PreparedSpec;
  }

  lemma PrepareGuard(s: State, e: Event)
    requires Enabled(s, e) && e.Prepare?
    ensures e.started <= s.now && 600 <= e.retentionSeconds <= 31536000
  {
    hide QuotaAdmits;
  }

  lemma {:induction false} WindowsHold(s: State, es: seq<Event>)
    requires WindowsOk(s) && Run(s, es)
    ensures WindowsOk(After(s, es))
    decreases |es|
  {
    hide Enabled, Step;
    if es != [] {
      StepBorn(s, es[0]);
      if es[0].Prepare? {
        PrepareGuard(s, es[0]);
      }
      WindowsHold(Step(s, es[0]), es[1..]);
    }
  }

  /** In every run no record can be uploaded to for more than five minutes from now, nor outlive a year. */
  lemma WindowsAreBounded(s: State, id: Id)
    requires Reachable(s) && id in s.born
    ensures s.born[id].uploadExpiresAt <= s.now + 300000
    ensures s.born[id].uploadExpiresAt + 300000 <= s.born[id].expiresAt <= s.now + 31536000000
  {
    hide Run, After;
    var es :| Run(START, es) && After(START, es) == s;
    WindowsHold(START, es);
  }

  /* ---------- tombstones ---------- */

  /** Under a tombstoned or pruned record lie only restores that landed late: no upload can come any more. */
  lemma TombstonedKeysHoldOnlyLateRestores(s: State, id: Id, v: Version)
    requires Reachable(s) && id in s.born && Gone(s.rows, id) && v in s.primary && s.primary[v].id == id
    ensures s.primary[v].tag.RestoreOf? && s.born[id].uploadExpiresAt + SIGNING_SLACK < s.now
    ensures forall bytes :: !Enabled(s, UploadLands(id, bytes))
  {
    ReachableOk(s);
    assert OnlyRestores(s.primary, id);
  }

  /** The batch that marked a record found its key empty. */
  lemma {:induction false} MarkedWasFoundEmpty(s: State, es: seq<Event>, b: nat, id: Id) returns (k: nat)
    requires Run(s, es) && (b in s.sweeps ==> id !in s.sweeps[b].marked)
    requires var t := After(s, es); b in t.sweeps && id in t.sweeps[b].marked
    ensures k < |es| && Run(s, es[..k]) && es[k] == SweepMark(b, id) && Empty(After(s, es[..k]).primary, id)
    decreases |es|
  {
    var t := Step(s, es[0]);
    if b in t.sweeps && id in t.sweeps[b].marked {
      MarkStep(s, es[0], b, id);
      k := 0;
    } else {
      hide Enabled, Step;
      var rest := es[1..];
      var j := MarkedWasFoundEmpty(t, rest, b, id);
      k := j + 1;
      assert es[..k][1..] == rest[..j];
    }
  }

  lemma MarkStep(s: State, e: Event, b: nat, id: Id)
    requires Enabled(s, e) && (b in s.sweeps ==> id !in s.sweeps[b].marked)
    requires b in Step(s, e).sweeps && id in Step(s, e).sweeps[b].marked
    ensures e == SweepMark(b, id) && Empty(s.primary, id)
  {
    hide Enabled, Step, Empty;
    StepSweeps(s, e);
    BatchGuards(s, e);
  }

  /** The event tombstones the record, or prunes it in the same transaction. */
  ghost predicate Tombstones(s: State, e: Event, id: Id) {
    && Enabled(s, e) && id in s.rows && s.rows[id].purgedAt.None?
    && (id in Step(s, e).rows ==> Step(s, e).rows[id].purgedAt.Some?)
  }

  /** At step k of the run this cleanup transaction found the key empty. */
  ghost predicate FoundEmptyAt(es: seq<Event>, k: nat, b: nat, id: Id) {
    k < |es| && Run(START, es[..k]) && es[k] == SweepMark(b, id) && Empty(After(START, es[..k]).primary, id)
  }

  /** A tombstone appears only in a committing cleanup that has found the key empty, of a record already closed. */
  lemma TombstoneOnlyAfterEmpty(es: seq<Event>, e: Event, id: Id) returns (k: nat)
    requires Run(START, es)
    requires Tombstones(After(START, es), e, id)
    ensures e.CommitSweep? && FoundEmptyAt(es, k, e.t, id)
    ensures Closed(After(START, es).now, After(START, es).rows[id])
  {
    var s := After(START, es);
    hide Inv, Enabled, Step;
    StartOk();
    RunOk(START, es);
    TombStep(s, e, id);
    k := MarkedWasFoundEmpty(START, es, e.t, id);
  }

  lemma TombStep(s: State, e: Event, id: Id)
    requires Inv(s) && Enabled(s, e) && id in s.rows && s.rows[id].purgedAt.None?
    requires id in Step(s, e).rows ==> Step(s, e).rows[id].purgedAt.Some?
    ensures e.CommitSweep? && e.t in s.sweeps && id in s.sweeps[e.t].marked && Closed(s.now, s.rows[id])
  {
    hide Enabled, Step, Inv;
    StepRows(s, e);
    VersionGuards(s, e);
    BatchGuards(s, e);
    RowsInside(s);
    BatchesOf(s);
    assert e.CommitSweep?;
    if id in e.pruned {
      assert Prunable(s, e.t, id, e.scope);
    }
  }

  /* ---------- quotas ---------- */

  /** Records that count against the quotas: those without a tombstone. */
  ghost function Counted(rows: map<Id, Row>): set<Id> {
    set id | id in rows && rows[id].purgedAt.None?
  }

  ghost function CountedFor(rows: map<Id, Row>, job: Job): set<Id> {
    set id | id in Counted(rows) && rows[id].spec.job.network == job.network
             && rows[id].spec.job.contract == job.contract && rows[id].spec.job.jobId == job.jobId
  }

  ghost function Sizes(rows: map<Id, Row>, ids: set<Id>): map<Id, nat>
    requires ids <= rows.Keys
  {
    map id | id in ids :: rows[id].spec.sizeBytes
  }

  ghost function TotalBytes(rows: map<Id, Row>, ids: set<Id>): nat
    requires ids <= rows.Keys
  {
    Total(Sizes(rows, ids))
  }

  lemma UsageCounts(rows: map<Id, Row>, job: Job)
    ensures |Usage(rows)| == |Counted(rows)| && Total(Usage(rows)) == TotalBytes(rows, Counted(rows))
    ensures |JobUsage(rows, job)| == |CountedFor(rows, job)|
    ensures Total(JobUsage(rows, job)) == TotalBytes(rows, CountedFor(rows, job))
  {
    var all, some := Counted(rows), CountedFor(rows, job);
    assert Usage(rows) == Sizes(rows, all);
    assert JobUsage(rows, job) == Sizes(rows, some);
    assert Usage(rows).Keys == all && JobUsage(rows, job).Keys == some;
  }

  /** However prepares, completions, restores and cleanups interleave, records without a tombstone are at most a hundred
      thousand of a gigabyte in all, and five of 16000 bytes for each job. */
  lemma QuotasHoldInEveryRun(s: State, job: Job)
    requires Reachable(s)
    ensures |Counted(s.rows)| <= 100000 && TotalBytes(s.rows, Counted(s.rows)) <= 0x4000_0000
    ensures |CountedFor(s.rows, job)| <= 5 && TotalBytes(s.rows, CountedFor(s.rows, job)) <= 16000
  {
    ReachableOk(s);
    UsageCounts(s.rows, job);
    hide Usage, JobUsage, Counted, CountedFor;
  }

  /** One more record is admitted exactly when it still fits all four bounds. */
  lemma QuotaAdmitsIff(rows: map<Id, Row>, spec: Spec)
    ensures QuotaAdmits(rows, spec) <==>
            && |Counted(rows)| + 1 <= 100000 && TotalBytes(rows, Counted(rows)) + spec.sizeBytes <= 0x4000_0000
            && |CountedFor(rows, spec.job)| + 1 <= 5
            && TotalBytes(rows, CountedFor(rows, spec.job)) + spec.sizeBytes <= 16000
  {
    UsageCounts(rows, spec.job);
    hide Usage, JobUsage, Counted, CountedFor;
  }
}
