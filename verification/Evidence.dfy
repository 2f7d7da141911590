/** The evidence lifecycle over SQL and two versioned buckets, one atomic call at a time.

    A worker's progress is what it has learnt: `soup` holds every fact some worker may still act on. Facts are
    never forgotten, so a step may be taken late, twice, by another worker, or never. */
module Evidence {
  import opened Basics
  import opened Hashing
  import opened Totals
  import opened EvidencePolicy

  datatype Network = Testnet | Mainnet

  datatype Job = Job(network: Network, contract: string, jobId: nat)

  /** The columns of a metadata row that never change. */
  datatype Spec = Spec(job: Job, provider: string, sha256: Digest, sizeBytes: nat, mediaType: string,
      uploadExpiresAt: Time, expiresAt: Time)

  datatype Row = Row(spec: Spec, versionId: Option<Version>, purgedAt: Option<Time>)

  /** A ledger row; verified exactly when it has a manifest. */
  datatype Backup = Backup(expected: Source, contract: string, manifest: Option<Manifest>,
      restoredVersion: Option<Version>)

  datatype Tag = Upload | RestoreOf(backupVersion: Option<Version>, sourceVersion: Version, expiry: Time)
      | CopyOf(draft: Manifest)

  datatype Object = Object(id: Id, bytes: Bytes, mediaType: string, tag: Tag)

  /** Versions are numbered in the order they were created. */
  type Bucket = map<Version, Object>

  datatype Fact =
    | CanUpload(id: Id)
    | Headed(id: Id, version: Version)
    | Reserved(source: Source)
    | CopyReady(draft: Manifest, bytes: Bytes, checkedAt: Time)
    | Copied(manifest: Manifest)
    | ReadBack(manifest: Manifest, bytes: Bytes)
    | Loaded(manifest: Manifest)
    | RestoreReady(manifest: Manifest, bytes: Bytes)
    | Restored(manifest: Manifest, version: Version, bytes: Bytes)

  /** An open cleanup or retention transaction: the rows it locked and those it has finished with. */
  datatype Batch = Batch(startedAt: Time, ids: set<Id>, marked: set<Id>)

  datatype State = State(now: Time, born: map<Id, Spec>, rows: map<Id, Row>, ledger: map<Id, Backup>,
                         primary: Bucket, backup: Bucket, next: Version, lost: set<Version>,
                         soup: set<Fact>, sweeps: map<nat, Batch>, purges: map<nat, Batch>)

  const START := State(0, map[], map[], map[], map[], map[], 0, {}, {}, map[], map[])

  /* ---------- reading the state ---------- */

  predicate Empty(bucket: Bucket, id: Id) {
    forall v :: v in bucket ==> bucket[v].id != id
  }

  /** A GET or HEAD without a version finds this one. */
  predicate Latest(bucket: Bucket, id: Id, v: Version) {
    v in bucket && bucket[v].id == id && forall u :: u in bucket && bucket[u].id == id ==> u <= v
  }

  predicate Locked(batches: map<nat, Batch>, id: Id) {
    exists t :: t in batches && id in batches[t].ids
  }

  function SnapshotOf(id: Id, spec: Spec, v: Version): Source {
    Source(id, v, spec.sha256, spec.sizeBytes, spec.mediaType, spec.expiresAt)
  }

  predicate InScope(job: Job, scope: set<string>) {
    job.network == Testnet && job.contract in scope
  }

  /** The row every ledger transaction locks and checks first. */
  predicate Sourced(s: State, id: Id, scope: set<string>) {
    && id in s.rows && InScope(s.rows[id].spec.job, scope)
    && s.rows[id].purgedAt.None? && s.rows[id].versionId.Some?
    && s.now < s.rows[id].spec.expiresAt
    && !Locked(s.sweeps, id)
  }

  predicate Verified(s: State, id: Id) {
    id in s.ledger && s.ledger[id].manifest.Some?
  }

  function Draft(e: Source, capturedAt: Time): Manifest {
    Manifest(e, e.key, None, capturedAt, e.expiresAt + GRACE)
  }

  /** What a backup object's metadata says once its own version is filled in. */
  function Decode(o: Object, v: Version): Option<Manifest> {
    if o.tag.CopyOf? then
      var m := o.tag.draft.(backupVersion := Some(v));
      if ValidManifest(m) && o.mediaType == m.source.mediaType && BytesMatch(m.source, o.bytes) then Some(m) else None
    else None
  }

  function RestoreTag(m: Manifest): Tag {
    RestoreOf(m.backupVersion, m.source.version, m.source.expiresAt)
  }

  /** A verified readback of the manifest's exact backup version. */
  predicate ReadsBack(s: State, m: Manifest, bytes: Bytes) {
    && PhaseOf(m, s.now) == Some(Restorable)
    && m.backupVersion.Some? && m.backupVersion.value in s.backup
    && s.backup[m.backupVersion.value].id == m.backupKey
    && Decode(s.backup[m.backupVersion.value], m.backupVersion.value) == Some(m)
    && bytes == s.backup[m.backupVersion.value].bytes
  }

  /* ---------- quotas ---------- */

  function Usage(rows: map<Id, Row>): map<Id, nat> {
    map id | id in rows && rows[id].purgedAt.None? :: rows[id].spec.sizeBytes
  }

  function JobUsage(rows: map<Id, Row>, job: Job): map<Id, nat> {
    map id | id in rows && rows[id].purgedAt.None? && rows[id].spec.job == job :: rows[id].spec.sizeBytes
  }

  const MAX_ROWS: nat := 100000
  const MAX_BYTES: nat := 1073741824
  const JOB_ROWS: nat := 5
  const JOB_BYTES: nat := 16000

  ghost predicate QuotaAdmits(rows: map<Id, Row>, spec: Spec) {
    && |Usage(rows)| < MAX_ROWS && Total(Usage(rows)) + spec.sizeBytes <= MAX_BYTES
    && |JobUsage(rows, spec.job)| < JOB_ROWS && Total(JobUsage(rows, spec.job)) + spec.sizeBytes <= JOB_BYTES
  }

  /* ---------- what may be deleted ---------- */

  /** Cleanup may take the row: expired, or never completed and past its upload window. */
  predicate Closed(now: Time, row: Row) {
    row.spec.expiresAt <= now || (row.versionId.None? && row.spec.uploadExpiresAt + SIGNING_SLACK < now)
  }

  const MAX_VERSIONS := 100

  /** The versions under one key. */
  function Under(bucket: Bucket, id: Id): set<Version> {
    set v | v in bucket && bucket[v].id == id
  }

  /** The rows a cleanup may pick: closed, not yet tombstoned, and in no other cleanup's hands. */
  function ClosedRows(s: State, scope: set<string>): set<Id> {
    set id | id in s.rows && InScope(s.rows[id].spec.job, scope) && s.rows[id].purgedAt.None?
             && Closed(s.now, s.rows[id]) && !Locked(s.sweeps, id)
  }

  /** ORDER BY expires_at, id. */
  predicate Sooner(rows: map<Id, Row>, a: Id, b: Id)
    requires a in rows && b in rows
  {
    rows[a].spec.expiresAt < rows[b].spec.expiresAt || (rows[a].spec.expiresAt == rows[b].spec.expiresAt && a < b)
  }

  function Ahead(rows: map<Id, Row>, all: set<Id>, id: Id): set<Id>
    requires all <= rows.Keys && id in rows
  {
    set k | k in all && Sooner(rows, k, id)
  }

  /** The first `limit` of these rows. */
  function FirstOf(rows: map<Id, Row>, all: set<Id>, limit: nat): set<Id>
    requires all <= rows.Keys
  {
    set id | id in all && |Ahead(rows, all, id)| < limit
  }

  predicate Prunable(s: State, t: nat, id: Id, scope: set<string>)
    requires t in s.sweeps
  {
    && id in s.rows && InScope(s.rows[id].spec.job, scope)
    && (s.rows[id].purgedAt.Some? || id in s.sweeps[t].marked)
    && s.rows[id].spec.expiresAt + GRACE <= s.sweeps[t].startedAt
    && forall u :: u in s.sweeps && u != t ==> id !in s.sweeps[u].ids
  }

  /** Every version under the key is the copy the ledger expects, and all are due. */
  predicate Inventoried(s: State, id: Id)
    requires id in s.ledger
  {
    forall v :: v in s.backup && s.backup[v].id == id ==>
      && Decode(s.backup[v], v).Some?
      && Decode(s.backup[v], v).value.source == s.ledger[id].expected
      && PhaseOf(Decode(s.backup[v], v).value, s.now) == Some(PurgeDue)
  }

  /* ---------- events ---------- */

  datatype Event =
    | Tick(ms: nat)
    // direct upload, completion
    | Prepare(id: Id, job: Job, provider: string, sha256: Digest, sizeBytes: nat, mediaType: string, started: Time,
        retentionSeconds: nat)
    | Sign(id: Id)
    | UploadLands(id: Id, bytes: Bytes)
    | Head(id: Id, version: Version)
    | Finalize(id: Id, version: Version)
    // something outside the program removes a primary version
    | Lose(version: Version)
    // backup
    | ReserveCopy(id: Id, scope: set<string>)
    | CheckCopy(source: Source, capturedAt: Time)
    | CopyLands(draft: Manifest, bytes: Bytes, checkedAt: Time)
    | SeeCopy(source: Source, version: Version)
    | ReadCopy(manifest: Manifest, bytes: Bytes)
    | VerifyCopy(manifest: Manifest, bytes: Bytes, scope: set<string>)
    // recovery
    | LoadRecovery(id: Id, scope: set<string>)
    | CheckRestore(manifest: Manifest, bytes: Bytes)
    | RestoreLands(manifest: Manifest, bytes: Bytes)
    | SeeRestore(manifest: Manifest, version: Version)
    | CommitRestore(manifest: Manifest, version: Version, bytes: Bytes, scope: set<string>)
    // cleanup of expired and abandoned uploads
    | BeginSweep(t: nat, ids: set<Id>, scope: set<string>, limit: nat)
    | SweepDelete(t: nat, id: Id, version: Version)
    | SweepMark(t: nat, id: Id)
    | CommitSweep(t: nat, pruned: set<Id>, scope: set<string>)
    | AbortSweep(t: nat)
    // retention of backups
    | BeginPurge(t: nat, ids: set<Id>, scope: set<string>)
    | PurgeDelete(t: nat, id: Id, version: Version)
    | PurgeMark(t: nat, id: Id)
    | CommitPurge(t: nat)
    | AbortPurge(t: nat)

  function PreparedSpec(e: Event): Spec
    requires e.Prepare?
  {
    Spec(e.job, e.provider, e.sha256, e.sizeBytes, e.mediaType, e.started + UPLOAD,
        e.started + 1000 * e.retentionSeconds)
  }

  /** commitRestore accepts: the same version again, or the first replacement of the copied version. */
  predicate Rebindable(b: Backup, row: Row, v: Version) {
    || (b.restoredVersion == Some(v) && row.versionId == Some(v))
    || (b.restoredVersion.None? && row.versionId == Some(b.expected.version) && v != b.expected.version)
  }

  ghost predicate Enabled(s: State, e: Event) {
    match e
    case Tick(_) => true
    case Prepare(id, job, provider, sha256, size, media, started, retention) =>
      && id !in s.born && started <= s.now && 600 <= retention <= 31536000
      && 1 <= size <= 8192 && ValidMedia(media) && ValidJobId(job.jobId)
      && QuotaAdmits(s.rows, PreparedSpec(e))
    case Sign(id) => id in s.born && s.now < s.born[id].uploadExpiresAt
    case UploadLands(id, bytes) =>
      && CanUpload(id) in s.soup && id in s.born && s.now <= s.born[id].uploadExpiresAt + SIGNING_SLACK
      && |bytes| == s.born[id].sizeBytes && Sha256(bytes) == s.born[id].sha256
    case Head(id, v) =>
      && id in s.rows && s.rows[id].purgedAt.None? && s.now < s.rows[id].spec.uploadExpiresAt
      && Latest(s.primary, id, v) && s.primary[v].mediaType == s.rows[id].spec.mediaType
      && Sha256(s.primary[v].bytes) == s.rows[id].spec.sha256
    case Finalize(id, v) =>
      && Headed(id, v) in s.soup
      && id in s.rows && s.rows[id].purgedAt.None? && s.now < s.rows[id].spec.expiresAt
      && (s.rows[id].versionId.Some? || s.now < s.rows[id].spec.uploadExpiresAt)
      && !Locked(s.sweeps, id)
    case Lose(v) => v in s.primary
    case ReserveCopy(id, scope) =>
      && Sourced(s, id, scope)
      && ValidManifest(Draft(SnapshotOf(id, s.rows[id].spec, s.rows[id].versionId.value), s.now))
      && (id in s.ledger ==>
            && s.ledger[id].contract == s.rows[id].spec.job.contract
            && s.ledger[id].expected == SnapshotOf(id, s.rows[id].spec, s.rows[id].versionId.value))
    case CheckCopy(e, capturedAt) =>
      && Reserved(e) in s.soup && capturedAt <= s.now
      && e.version in s.primary && s.primary[e.version].id == e.key && s.primary[e.version].mediaType == e.mediaType
      && VerifyRecovery(Draft(e, capturedAt), s.primary[e.version].bytes, e, s.now)
    case CopyLands(draft, bytes, checkedAt) =>
      CopyReady(draft, bytes, checkedAt) in s.soup && s.now < checkedAt + GRACE && Empty(s.backup, draft.backupKey)
    case SeeCopy(e, v) =>
      && Reserved(e) in s.soup && Latest(s.backup, e.key, v) && Decode(s.backup[v], v).Some?
      && VerifyRecovery(Decode(s.backup[v], v).value, s.backup[v].bytes, e, s.now)
    case ReadCopy(m, bytes) => Copied(m) in s.soup && ReadsBack(s, m, bytes)
    case VerifyCopy(m, bytes, scope) =>
      && ReadBack(m, bytes) in s.soup && Sourced(s, m.source.key, scope) && m.source.key in s.ledger
      && s.ledger[m.source.key].expected == SnapshotOf(m.source.key, s.rows[m.source.key].spec,
         s.rows[m.source.key].versionId.value)
      && VerifyRecovery(m, bytes, s.ledger[m.source.key].expected, s.now)
      && (s.ledger[m.source.key].manifest.Some? ==> s.ledger[m.source.key].manifest.value == m)
    case LoadRecovery(id, scope) =>
      && Sourced(s, id, scope) && Verified(s, id)
      && ValidManifest(s.ledger[id].manifest.value)
      && s.ledger[id].manifest.value.source == s.ledger[id].expected
      && SnapshotOf(id, s.rows[id].spec, s.ledger[id].expected.version) == s.ledger[id].expected
      && s.rows[id].versionId == Coalesce(s.ledger[id].restoredVersion, s.ledger[id].expected.version)
    case CheckRestore(m, bytes) => Loaded(m) in s.soup && ReadsBack(s, m, bytes)
    case RestoreLands(m, bytes) => RestoreReady(m, bytes) in s.soup && Empty(s.primary, m.source.key)
    case SeeRestore(m, v) =>
      && Loaded(m) in s.soup && Latest(s.primary, m.source.key, v) && v != m.source.version
      && s.primary[v].mediaType == m.source.mediaType && s.primary[v].tag == RestoreTag(m)
      && VerifyRecovery(m, s.primary[v].bytes, m.source, s.now)
    case CommitRestore(m, v, bytes, scope) =>
      && Restored(m, v, bytes) in s.soup && Sourced(s, m.source.key, scope) && Verified(s, m.source.key)
      && VerifyRecovery(s.ledger[m.source.key].manifest.value, bytes, s.ledger[m.source.key].expected, s.now)
      && SnapshotOf(m.source.key, s.rows[m.source.key].spec, s.ledger[m.source.key].expected.version)
         == s.ledger[m.source.key].expected
      && Rebindable(s.ledger[m.source.key], s.rows[m.source.key], v)
    case BeginSweep(t, ids, scope, limit) =>
      t !in s.sweeps && limit <= 10 && ids == FirstOf(s.rows, ClosedRows(s, scope), limit)
    // a listing of more than MAX_VERSIONS is refused, and the key cannot fill up again while it is being emptied
    case SweepDelete(t, id, v) =>
      t in s.sweeps && id in s.sweeps[t].ids && v in s.primary && s.primary[v].id == id
          && |Under(s.primary, id)| <= MAX_VERSIONS
    case SweepMark(t, id) => t in s.sweeps && id in s.sweeps[t].ids && Empty(s.primary, id)
    case CommitSweep(t, pruned, scope) =>
      && t in s.sweeps && s.sweeps[t].marked == s.sweeps[t].ids
      && forall id :: id in pruned ==> Prunable(s, t, id, scope)
    case AbortSweep(t) => t in s.sweeps
    case BeginPurge(t, ids, scope) =>
      && t !in s.purges && |ids| <= 10
      && forall id :: id in ids ==>
           && id in s.ledger && s.ledger[id].contract in scope
           && s.ledger[id].expected.expiresAt + GRACE <= s.now && !Locked(s.purges, id)
    case PurgeDelete(t, id, v) =>
      t in s.purges && id in s.purges[t].ids && id in s.ledger && Inventoried(s, id) && v in s.backup
          && s.backup[v].id == id
    case PurgeMark(t, id) => t in s.purges && id in s.purges[t].ids && Empty(s.backup, id)
    case CommitPurge(t) => t in s.purges && s.purges[t].marked == s.purges[t].ids
    case AbortPurge(t) => t in s.purges
  }

  function Learn(s: State, f: Fact): State {
    s.(soup := s.soup + {f})
  }

  function PutPrimary(s: State, o: Object): State {
    s.(primary := s.primary[s.next := o], next := s.next + 1)
  }

  function PutBackup(s: State, o: Object): State {
    s.(backup := s.backup[s.next := o], next := s.next + 1)
  }

  function MarkedIn(batches: map<nat, Batch>, t: nat, id: Id): map<nat, Batch>
    requires t in batches
  {
    batches[t := batches[t].(marked := batches[t].marked + {id})]
  }

  function Purged(rows: map<Id, Row>, ids: set<Id>, at: Time): map<Id, Row> {
    map id | id in rows :: if id in ids then rows[id].(purgedAt := Some(at)) else rows[id]
  }

  function Step(s: State, e: Event): State
    requires Enabled(s, e)
  {
    match e
    case Tick(ms) => s.(now := s.now + ms)
    case Prepare(id, _, _, _, _, _, _, _) =>
      s.(born := s.born[id := PreparedSpec(e)], rows := s.rows[id := Row(PreparedSpec(e), None, None)])
    case Sign(id) => Learn(s, CanUpload(id))
    case UploadLands(id, bytes) => PutPrimary(s, Object(id, bytes, s.born[id].mediaType, Upload))
    case Head(id, v) => Learn(s, Headed(id, v))
    case Finalize(id, v) => s.(rows := s.rows[id := s.rows[id].(versionId := Coalesce(s.rows[id].versionId, v))])
    case Lose(v) => s.(primary := s.primary - {v}, lost := s.lost + {v})
    case ReserveCopy(id, _) =>
      var e := SnapshotOf(id, s.rows[id].spec, s.rows[id].versionId.value);
      var recorded := if id in s.ledger then s else s.(ledger := s.ledger[id := Backup(e, s.rows[id].spec.job.contract,
          None, None)]);
      Learn(recorded, Reserved(e))
    case CheckCopy(e, capturedAt) => Learn(s, CopyReady(Draft(e, capturedAt), s.primary[e.version].bytes, s.now))
    case CopyLands(draft, bytes, _) => PutBackup(s,
        Object(draft.backupKey, bytes, draft.source.mediaType, CopyOf(draft)))
    case SeeCopy(_, v) => Learn(s, Copied(Decode(s.backup[v], v).value))
    case ReadCopy(m, bytes) => Learn(s, ReadBack(m, bytes))
    case VerifyCopy(m, _, _) => s.(ledger := s.ledger[m.source.key := s.ledger[m.source.key].(manifest := Some(m))])
    case LoadRecovery(id, _) => Learn(s, Loaded(s.ledger[id].manifest.value))
    case CheckRestore(m, bytes) => Learn(s, RestoreReady(m, bytes))
    case RestoreLands(m, bytes) => PutPrimary(s, Object(m.source.key, bytes, m.source.mediaType, RestoreTag(m)))
    case SeeRestore(m, v) => Learn(s, Restored(m, v, s.primary[v].bytes))
    case CommitRestore(m, v, _, _) =>
      s.(rows := s.rows[m.source.key := s.rows[m.source.key].(versionId := Some(v))],
         ledger := s.ledger[m.source.key := s.ledger[m.source.key].(restoredVersion := Some(v))])
    case BeginSweep(t, ids, _, _) => s.(sweeps := s.sweeps[t := Batch(s.now, ids, {})])
    case SweepDelete(_, _, v) => s.(primary := s.primary - {v})
    case SweepMark(t, id) => s.(sweeps := MarkedIn(s.sweeps, t, id))
    case CommitSweep(t, pruned, _) => s.(rows := Purged(s.rows, s.sweeps[t].ids, s.sweeps[t].startedAt) - pruned,
        sweeps := s.sweeps - {t})
    case AbortSweep(t) => s.(sweeps := s.sweeps - {t})
    case BeginPurge(t, ids, _) => s.(purges := s.purges[t := Batch(s.now, ids, {})])
    case PurgeDelete(_, _, v) => s.(backup := s.backup - {v})
    case PurgeMark(t, id) => s.(purges := MarkedIn(s.purges, t, id))
    case CommitPurge(t) => s.(ledger := s.ledger - s.purges[t].ids, purges := s.purges - {t})
    case AbortPurge(t) => s.(purges := s.purges - {t})
  }

  ghost predicate Run(s: State, es: seq<Event>)
    decreases |es|
  {
    es != [] ==> Enabled(s, es[0]) && Run(Step(s, es[0]), es[1..])
  }

  ghost function After(s: State, es: seq<Event>): State
    requires Run(s, es)
    decreases |es|
  {
    if es == [] then s else After(Step(s, es[0]), es[1..])
  }
}
