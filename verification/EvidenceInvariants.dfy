/** What every reachable state of the evidence machine satisfies, and how one state may develop into another. */
module EvidenceInvariants {
  import opened Basics
  import opened Hashing
  import opened Totals
  import opened EvidencePolicy
  import opened Evidence

  /* ---------- what a record is, column by column ---------- */

  /** A live record of these contracts: of a testnet job, completed, not tombstoned, not expired, and in no cleanup's
      hands. */
  ghost predicate LiveUnder(s: State, id: Id, contracts: set<string>) {
    && id in s.rows
    && s.rows[id].spec.job.network == Testnet && s.rows[id].spec.job.contract in contracts
    && s.rows[id].purgedAt.None? && s.rows[id].versionId.Some? && s.now < s.rows[id].spec.expiresAt
    && forall t :: t in s.sweeps ==> id !in s.sweeps[t].ids
  }

  /** The snapshot names the record's own version, digest, size, type and expiry. */
  predicate Snapshots(e: Source, id: Id, row: Row) {
    && e.key == id && row.versionId == Some(e.version)
    && e.sha256 == row.spec.sha256 && e.sizeBytes == row.spec.sizeBytes && e.mediaType == row.spec.mediaType
    && e.expiresAt == row.spec.expiresAt
  }

  /* ---------- how states develop ---------- */

  ghost predicate Extends<K(!new), V(!new)>(small: map<K, V>, big: map<K, V>) {
    forall k :: k in small ==> k in big && big[k] == small[k]
  }

  /** A missing primary version was lost from outside, or its record had expired or could never be completed. */
  ghost predicate PrimaryPersists(s: State, t: State) {
    forall v :: v in s.primary ==>
      || (v in t.primary && t.primary[v] == s.primary[v])
      || v in t.lost
      || (s.primary[v].id in t.born && Closing(t, s.primary[v].id))
  }

  /** The record has expired, or is past its upload window without a version. */
  predicate Closing(s: State, id: Id)
    requires id in s.born
  {
    || s.born[id].expiresAt <= s.now
    || (s.born[id].uploadExpiresAt + SIGNING_SLACK < s.now && Unversioned(s.rows, id))
  }

  predicate Unversioned(rows: map<Id, Row>, id: Id) {
    id in rows ==> rows[id].versionId.None?
  }

  predicate Due(now: Time, e: Source) {
    e.expiresAt + GRACE <= now
  }

  ghost predicate BackupPersists(s: State, t: State) {
    forall v :: v in s.backup ==>
      || (v in t.backup && t.backup[v] == s.backup[v])
      || (s.backup[v].id in s.ledger && Due(t.now, s.ledger[s.backup[v].id].expected))
  }

  predicate BackupAdvances(a: Backup, b: Backup) {
    && b.expected == a.expected && b.contract == a.contract
    && (a.manifest.Some? ==> b.manifest == a.manifest)
    && (a.restoredVersion.Some? ==> b.restoredVersion == a.restoredVersion)
  }

  ghost predicate LedgerPersists(s: State, t: State) {
    forall id :: id in s.ledger ==>
      || (id in t.ledger && BackupAdvances(s.ledger[id], t.ledger[id]))
      || Due(t.now, s.ledger[id].expected)
  }

  /** No further replacement of the record's version can happen. */
  predicate Rebound(now: Time, ledger: map<Id, Backup>, row: Row, id: Id) {
    (id in ledger && ledger[id].restoredVersion.Some?) || row.spec.expiresAt <= now
  }

  predicate RowAdvances(s: State, t: State, id: Id)
    requires id in s.rows && id in t.rows
  {
    var a, b := s.rows[id], t.rows[id];
    && b.spec == a.spec
    && (a.purgedAt.Some? ==> b.purgedAt.Some?)
    && (a.versionId.Some? ==> b.versionId.Some?)
    && (a.versionId.None? && a.spec.uploadExpiresAt <= s.now ==> b.versionId.None?)
    && (a.versionId.Some? && b.versionId != a.versionId ==>
       !Rebound(s.now, s.ledger, a, id) && Rebound(t.now, t.ledger, b, id))
    && (Rebound(s.now, s.ledger, a, id) ==> Rebound(t.now, t.ledger, b, id))
  }

  ghost predicate RowsPersist(s: State, t: State) {
    forall id :: id in s.rows ==>
      if id in t.rows then RowAdvances(s, t, id) else s.rows[id].spec.expiresAt + GRACE <= t.now
  }

  ghost predicate Grows(s: State, t: State) {
    && s.now <= t.now && s.next <= t.next && s.lost <= t.lost && s.soup <= t.soup && Extends(s.born, t.born)
    && forall id :: id in s.born && id !in s.rows ==> id !in t.rows
  }

  ghost predicate Advances(s: State, t: State) {
    Grows(s, t) && PrimaryPersists(s, t) && BackupPersists(s, t) && LedgerPersists(s, t) && RowsPersist(s, t)
  }

  /* ---------- facts ---------- */

  predicate OfSpec(e: Source, spec: Spec) {
    e == SnapshotOf(e.key, spec, e.version)
  }

  /** The ledger holds this intent until it is due. */
  predicate Recorded(now: Time, born: map<Id, Spec>, ledger: map<Id, Backup>, e: Source) {
    && e.key in born && OfSpec(e, born[e.key])
    && (!Due(now, e) ==> e.key in ledger && ledger[e.key].expected == e)
  }

  /** The backup bucket holds this manifest's copy until it is due. */
  predicate Kept(now: Time, backup: Bucket, m: Manifest) {
    && ValidManifest(m) && m.backupVersion.Some? && m.capturedAt <= now
    && (!Due(now, m.source) ==>
          && m.backupVersion.value in backup && backup[m.backupVersion.value].id == m.backupKey
          && Decode(backup[m.backupVersion.value], m.backupVersion.value) == Some(m))
  }

  predicate Committed(now: Time, born: map<Id, Spec>, ledger: map<Id, Backup>, m: Manifest) {
    && Recorded(now, born, ledger, m.source) && ValidManifest(m) && m.backupVersion.Some?
    && (!Due(now, m.source) ==> ledger[m.source.key].manifest == Some(m))
  }

  predicate Held(primary: Bucket, lost: set<Version>, id: Id, v: Version) {
    v in lost || (v in primary && primary[v].id == id)
  }

  predicate Versioned(rows: map<Id, Row>, id: Id) {
    id in rows && rows[id].versionId.Some?
  }

  predicate FactOk(f: Fact, s: State) {
    match f
    case CanUpload(id) => id in s.born
    case Headed(id, v) => id in s.born && (s.now <= s.born[id].uploadExpiresAt + SIGNING_SLACK ==>
        Held(s.primary, s.lost, id, v))
    case Reserved(e) => Recorded(s.now, s.born, s.ledger, e)
    case CopyReady(draft, bytes, checkedAt) =>
      && Recorded(s.now, s.born, s.ledger, draft.source) && BytesMatch(draft.source, bytes)
      && ValidManifest(draft) && draft.backupVersion.None? && checkedAt < draft.source.expiresAt
         && draft.capturedAt <= s.now
    case Copied(m) => Recorded(s.now, s.born, s.ledger, m.source) && Kept(s.now, s.backup, m)
    case ReadBack(m, bytes) => Recorded(s.now, s.born, s.ledger, m.source) && Kept(s.now, s.backup, m)
        && BytesMatch(m.source, bytes)
    case Loaded(m) => Committed(s.now, s.born, s.ledger, m)
    case RestoreReady(m, bytes) => Committed(s.now, s.born, s.ledger, m) && BytesMatch(m.source, bytes)
    case Restored(m, v, bytes) =>
      && Committed(s.now, s.born, s.ledger, m) && BytesMatch(m.source, bytes) && v != m.source.version
      && (s.now < m.source.expiresAt ==> Versioned(s.rows, m.source.key) && Held(s.primary, s.lost, m.source.key, v))
  }

  ghost predicate FactsOk(s: State) {
    forall f :: f in s.soup ==> FactOk(f, s)
  }

  /* ---------- the invariant ---------- */

  predicate SpecOk(spec: Spec) {
    && spec.uploadExpiresAt + UPLOAD <= spec.expiresAt
    && 1 <= spec.sizeBytes <= 8192 && ValidMedia(spec.mediaType)
  }

  ghost predicate RowsOk(now: Time, born: map<Id, Spec>, rows: map<Id, Row>, primary: Bucket, lost: set<Version>) {
    && (forall id :: id in born ==> SpecOk(born[id]))
    && (forall id :: id in rows ==> id in born && rows[id].spec == born[id])
    && (forall id :: id in rows && rows[id].versionId.Some? && now < rows[id].spec.expiresAt ==>
          Held(primary, lost, id, rows[id].versionId.value))
  }

  predicate ObjectOk(o: Object, born: map<Id, Spec>) {
    && o.id in born && Sha256(o.bytes) == born[o.id].sha256 && |o.bytes| == born[o.id].sizeBytes
    && o.mediaType == born[o.id].mediaType && !o.tag.CopyOf?
  }

  ghost predicate PrimaryOk(born: map<Id, Spec>, primary: Bucket, next: Version) {
    forall v :: v in primary ==> v < next && ObjectOk(primary[v], born)
  }

  predicate CopyOk(v: Version, o: Object, ledger: map<Id, Backup>) {
    && o.id in ledger && Decode(o, v).Some? && Decode(o, v).value.source == ledger[o.id].expected
    && o.id == ledger[o.id].expected.key
  }

  /** One copy a key, each with its ledger row. */
  ghost predicate BackupsOk(now: Time, backup: Bucket, ledger: map<Id, Backup>, next: Version) {
    && (forall v :: v in backup ==> v < next && CopyOk(v, backup[v], ledger) && backup[v].tag.draft.capturedAt <= now)
    && (forall u, v :: u in backup && v in backup && backup[u].id == backup[v].id ==> u == v)
  }

  predicate EntryOk(now: Time, born: map<Id, Spec>, rows: map<Id, Row>, backup: Bucket, id: Id, b: Backup) {
    && b.expected.key == id && id in born && OfSpec(b.expected, born[id]) && b.contract == born[id].job.contract
    && born[id].job.network == Testnet && b.expected.expiresAt + GRACE <= MAX_TIMESTAMP
    && (b.manifest.Some? ==> b.manifest.value.source == b.expected && Kept(now, backup, b.manifest.value))
    && (b.restoredVersion.Some? ==> b.manifest.Some? && b.restoredVersion.value != b.expected.version)
    && (!Due(now, b.expected) ==> id in rows)
    && (id in rows ==> rows[id].versionId == Coalesce(b.restoredVersion, b.expected.version))
  }

  ghost predicate LedgerOk(now: Time, born: map<Id, Spec>, rows: map<Id, Row>, backup: Bucket, ledger: map<Id,
      Backup>) {
    forall id :: id in ledger ==> EntryOk(now, born, rows, backup, id, ledger[id])
  }

  /** Only restores that landed late may sit under the key. */
  predicate OnlyRestores(primary: Bucket, id: Id) {
    forall v :: v in primary && primary[v].id == id ==> primary[v].tag.RestoreOf?
  }

  ghost predicate Disjoint(batches: map<nat, Batch>) {
    forall t, u, id :: t in batches && u in batches && id in batches[t].ids && id in batches[u].ids ==> t == u
  }

  ghost predicate SweepsOk(now: Time, rows: map<Id, Row>, primary: Bucket, sweeps: map<nat, Batch>) {
    && Disjoint(sweeps)
    && forall t :: t in sweeps ==>
         && sweeps[t].marked <= sweeps[t].ids && sweeps[t].startedAt <= now
         && (forall id :: id in sweeps[t].ids ==> id in rows && rows[id].purgedAt.None? && Closed(now, rows[id]))
         && (forall id :: id in sweeps[t].marked ==> OnlyRestores(primary, id))
  }

  /** A tombstoned or pruned record. */
  predicate Gone(rows: map<Id, Row>, id: Id) {
    id !in rows || rows[id].purgedAt.Some?
  }

  ghost predicate TombsOk(now: Time, born: map<Id, Spec>, rows: map<Id, Row>, primary: Bucket) {
    forall id :: id in born && Gone(rows, id) ==>
        born[id].uploadExpiresAt + SIGNING_SLACK < now && OnlyRestores(primary, id)
  }

  ghost predicate PurgesOk(now: Time, ledger: map<Id, Backup>, backup: Bucket, purges: map<nat, Batch>) {
    && Disjoint(purges)
    && forall t :: t in purges ==>
         && purges[t].marked <= purges[t].ids
         && (forall id :: id in purges[t].ids ==> id in ledger && Due(now, ledger[id].expected))
         && (forall id :: id in purges[t].marked ==> Empty(backup, id))
  }

  ghost predicate WithinQuotas(rows: map<Id, Row>) {
    && |Usage(rows)| <= MAX_ROWS && Total(Usage(rows)) <= MAX_BYTES
    && forall job :: |JobUsage(rows, job)| <= JOB_ROWS && Total(JobUsage(rows, job)) <= JOB_BYTES
  }

  ghost predicate Inv(s: State) {
    && RowsOk(s.now, s.born, s.rows, s.primary, s.lost)
    && PrimaryOk(s.born, s.primary, s.next)
    && BackupsOk(s.now, s.backup, s.ledger, s.next)
    && LedgerOk(s.now, s.born, s.rows, s.backup, s.ledger)
    && SweepsOk(s.now, s.rows, s.primary, s.sweeps)
    && TombsOk(s.now, s.born, s.rows, s.primary)
    && PurgesOk(s.now, s.ledger, s.backup, s.purges)
    && WithinQuotas(s.rows)
    && FactsOk(s)
  }

  lemma StartOk()
    ensures Inv(START)
  {
    assert Usage(START.rows) == map[];
    forall job ensures JobUsage(START.rows, job) == map[] {
    }
  }

  /* ---------- facts outlive the step ---------- */

  lemma RecordedPersists(s: State, t: State, e: Source)
    requires Recorded(s.now, s.born, s.ledger, e) && Grows(s, t) && LedgerPersists(s, t)
    ensures Recorded(t.now, t.born, t.ledger, e)
  {
  }

  lemma KeptPersists(s: State, t: State, m: Manifest)
    requires Kept(s.now, s.backup, m) && Grows(s, t) && BackupPersists(s, t)
        && Recorded(s.now, s.born, s.ledger, m.source)
    ensures Kept(t.now, t.backup, m)
  {
    hide Decode;
  }

  lemma CommittedPersists(s: State, t: State, m: Manifest)
    requires Committed(s.now, s.born, s.ledger, m) && Grows(s, t) && LedgerPersists(s, t)
    ensures Committed(t.now, t.born, t.ledger, m)
  {
    RecordedPersists(s, t, m.source);
  }

  lemma HeldPersists(s: State, t: State, id: Id, v: Version)
    requires Held(s.primary, s.lost, id, v) && Grows(s, t) && PrimaryPersists(s, t)
    requires id in t.born && !Closing(t, id)
    ensures Held(t.primary, t.lost, id, v)
  {
  }

  lemma FactPersists(s: State, t: State, f: Fact)
    requires FactOk(f, s) && Advances(s, t) && RowsOk(s.now, s.born, s.rows, s.primary, s.lost)
    ensures FactOk(f, t)
  {
    hide PrimaryPersists, BackupPersists, LedgerPersists, Recorded, Kept, Committed, Held, BytesMatch, ValidManifest,
        Closing;
    match f
    case CanUpload(id) =>
    case Headed(id, v) =>
      if t.now <= t.born[id].uploadExpiresAt + SIGNING_SLACK {
        HeadedPersists(s, t, id, v);
      }
    case Reserved(e) => RecordedPersists(s, t, e);
    case CopyReady(draft, _, _) => RecordedPersists(s, t, draft.source);
    case Copied(m) => RecordedPersists(s, t, m.source); KeptPersists(s, t, m);
    case ReadBack(m, _) => RecordedPersists(s, t, m.source); KeptPersists(s, t, m);
    case Loaded(m) => CommittedPersists(s, t, m);
    case RestoreReady(m, _) => CommittedPersists(s, t, m);
    case Restored(m, v, _) =>
      CommittedPersists(s, t, m);
      if t.now < m.source.expiresAt {
        RestoredPersists(s, t, m, v);
      }
  }

  lemma HeadedPersists(s: State, t: State, id: Id, v: Version)
    requires id in s.born && Held(s.primary, s.lost, id, v) && Advances(s, t) && SpecOk(s.born[id])
    requires t.now <= t.born[id].uploadExpiresAt + SIGNING_SLACK
    ensures Held(t.primary, t.lost, id, v)
  {
    HeldPersists(s, t, id, v);
  }

  lemma RestoredPersists(s: State, t: State, m: Manifest, v: Version)
    requires Committed(s.now, s.born, s.ledger, m) && Advances(s, t) && t.now < m.source.expiresAt
    requires Versioned(s.rows, m.source.key) && s.rows[m.source.key].spec == s.born[m.source.key]
    requires Held(s.primary, s.lost, m.source.key, v)
    ensures Versioned(t.rows, m.source.key) && Held(t.primary, t.lost, m.source.key, v)
  {
    HeldPersists(s, t, m.source.key, v);
  }
}
