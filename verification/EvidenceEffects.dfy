/** What one event does to each table, bucket and to what is known, stated apart so that proofs need only one of
    them. */
module EvidenceEffects {
  import opened Basics
  import opened Hashing
  import opened EvidencePolicy
  import opened Evidence

  ghost function Arriving(s: State, e: Event): Option<Object>
    requires Enabled(s, e)
  {
    match e
    case UploadLands(id, bytes) => Some(Object(id, bytes, s.born[id].mediaType, Upload))
    case RestoreLands(m, bytes) => Some(Object(m.source.key, bytes, m.source.mediaType, RestoreTag(m)))
    case _ => None
  }

  predicate Removes(e: Event) {
    e.Lose? || e.SweepDelete?
  }

  ghost function PrimaryAfter(s: State, e: Event): Bucket
    requires Enabled(s, e)
  {
    if Arriving(s, e).Some? then s.primary[s.next := Arriving(s, e).value]
    else if Removes(e) then s.primary - {e.version}
    else s.primary
  }

  lemma StepPrimary(s: State, e: Event)
    requires Enabled(s, e)
    ensures Step(s, e).primary == PrimaryAfter(s, e) && Step(s, e).now >= s.now && Step(s, e).next >= s.next
    ensures e.CommitPurge? ==> Step(s, e).backup == s.backup
  {
    hide Enabled;
  }

  ghost function Learnt(s: State, e: Event): set<Fact>
    requires Enabled(s, e)
  {
    match e
    case Sign(id) => {CanUpload(id)}
    case Head(id, v) => {Headed(id, v)}
    case ReserveCopy(id, _) => {Reserved(SnapshotOf(id, s.rows[id].spec, s.rows[id].versionId.value))}
    case CheckCopy(e, capturedAt) => {CopyReady(Draft(e, capturedAt), s.primary[e.version].bytes, s.now)}
    case SeeCopy(_, v) => {Copied(Decode(s.backup[v], v).value)}
    case ReadCopy(m, bytes) => {ReadBack(m, bytes)}
    case LoadRecovery(id, _) => {Loaded(s.ledger[id].manifest.value)}
    case CheckRestore(m, bytes) => {RestoreReady(m, bytes)}
    case SeeRestore(m, v) => {Restored(m, v, s.primary[v].bytes)}
    case _ => {}
  }

  lemma StepSoup(s: State, e: Event)
    requires Enabled(s, e)
    ensures Step(s, e).soup == s.soup + Learnt(s, e)
  {
    hide Enabled, Decode;
  }

  ghost function RowsAfter(s: State, e: Event): map<Id, Row>
    requires Enabled(s, e)
  {
    match e
    case Prepare(id, _, _, _, _, _, _, _) => s.rows[id := Row(PreparedSpec(e), None, None)]
    case Finalize(id, v) => s.rows[id := s.rows[id].(versionId := Coalesce(s.rows[id].versionId, v))]
    case CommitRestore(m, v, _, _) => s.rows[m.source.key := s.rows[m.source.key].(versionId := Some(v))]
    case CommitSweep(t, pruned, _) => Purged(s.rows, s.sweeps[t].ids, s.sweeps[t].startedAt) - pruned
    case _ => s.rows
  }

  lemma StepRows(s: State, e: Event)
    requires Enabled(s, e)
    ensures Step(s, e).rows == RowsAfter(s, e)
  {
    hide Enabled, Decode, Draft, RestoreTag, MarkedIn, SnapshotOf;
  }

  ghost function LedgerAfter(s: State, e: Event): map<Id, Backup>
    requires Enabled(s, e)
  {
    match e
    case ReserveCopy(id, _) =>
      if id in s.ledger then s.ledger
      else s.ledger[id := Backup(SnapshotOf(id, s.rows[id].spec, s.rows[id].versionId.value),
          s.rows[id].spec.job.contract, None, None)]
    case VerifyCopy(m, _, _) => s.ledger[m.source.key := s.ledger[m.source.key].(manifest := Some(m))]
    case CommitRestore(m, v, _, _) => s.ledger[m.source.key := s.ledger[m.source.key].(restoredVersion := Some(v))]
    case CommitPurge(t) => s.ledger - s.purges[t].ids
    case _ => s.ledger
  }

  lemma StepLedger(s: State, e: Event)
    requires Enabled(s, e)
    ensures Step(s, e).ledger == LedgerAfter(s, e)
  {
    hide Enabled, Decode, Draft, RestoreTag, Purged, PreparedSpec, MarkedIn;
  }

  ghost function SweepsAfter(s: State, e: Event): map<nat, Batch>
    requires Enabled(s, e)
  {
    match e
    case BeginSweep(t, ids, _, _) => s.sweeps[t := Batch(s.now, ids, {})]
    case SweepMark(t, id) => MarkedIn(s.sweeps, t, id)
    case CommitSweep(t, _, _) => s.sweeps - {t}
    case AbortSweep(t) => s.sweeps - {t}
    case _ => s.sweeps
  }

  lemma StepSweeps(s: State, e: Event)
    requires Enabled(s, e)
    ensures Step(s, e).sweeps == SweepsAfter(s, e)
  {
    hide Enabled, Decode, Draft, RestoreTag, Purged, PreparedSpec, SnapshotOf, Coalesce;
  }

  ghost function PurgesAfter(s: State, e: Event): map<nat, Batch>
    requires Enabled(s, e)
  {
    match e
    case BeginPurge(t, ids, _) => s.purges[t := Batch(s.now, ids, {})]
    case PurgeMark(t, id) => MarkedIn(s.purges, t, id)
    case CommitPurge(t) => s.purges - {t}
    case AbortPurge(t) => s.purges - {t}
    case _ => s.purges
  }

  ghost function BackupAfter(s: State, e: Event): Bucket
    requires Enabled(s, e)
  {
    match e
    case CopyLands(draft, bytes, _) =>
      s.backup[s.next := Object(draft.backupKey, bytes, draft.source.mediaType, CopyOf(draft))]
    case PurgeDelete(_, _, v) => s.backup - {v}
    case _ => s.backup
  }

  predicate DealsInBackups(e: Event) {
    e.CopyLands? || e.BeginPurge? || e.PurgeDelete? || e.PurgeMark? || e.CommitPurge? || e.AbortPurge?
  }

  lemma OthersKeepBackups(s: State, e: Event)
    requires Enabled(s, e) && !DealsInBackups(e)
    ensures Step(s, e).purges == s.purges && Step(s, e).backup == s.backup
  {
    hide Enabled, Decode, Draft, RestoreTag, Purged, PreparedSpec, SnapshotOf, Coalesce, MarkedIn;
  }

  lemma BackupsMove(s: State, e: Event)
    requires Enabled(s, e) && DealsInBackups(e)
    ensures Step(s, e).purges == PurgesAfter(s, e) && Step(s, e).backup == BackupAfter(s, e)
  {
    hide Enabled, Decode, Draft, RestoreTag, Purged, PreparedSpec, SnapshotOf, Coalesce, MarkedIn;
  }

  lemma StepBackups(s: State, e: Event)
    requires Enabled(s, e)
    ensures Step(s, e).purges == PurgesAfter(s, e) && Step(s, e).backup == BackupAfter(s, e)
  {
    hide Enabled, Step;
    if DealsInBackups(e) {
      BackupsMove(s, e);
    } else {
      OthersKeepBackups(s, e);
    }
  }

  lemma StepLost(s: State, e: Event)
    requires Enabled(s, e)
    ensures Step(s, e).lost == if e.Lose? then s.lost + {e.version} else s.lost
  {
    hide Enabled, Decode, Draft, RestoreTag, Purged, PreparedSpec, SnapshotOf, Coalesce, MarkedIn;
  }

  /** The guards of the events that deal in versions. */
  lemma VersionGuards(s: State, e: Event)
    requires Enabled(s, e)
    ensures e.Head? || e.SeeRestore? ==> e.version in s.primary
    ensures e.SeeRestore? ==> s.primary[e.version].id == e.manifest.source.key && s.primary[e.version].tag.RestoreOf?
    ensures e.Finalize? ==> Headed(e.id, e.version) in s.soup && e.id in s.rows
    ensures e.CommitRestore? ==> Restored(e.manifest, e.version, e.bytes) in s.soup
    ensures e.CommitRestore? ==> e.manifest.source.key in s.rows && e.manifest.source.key in s.ledger
    ensures e.VerifyCopy? ==> e.manifest.source.key in s.ledger
    ensures e.ReserveCopy? ==> e.id in s.rows && s.rows[e.id].versionId.Some?
    ensures e.Prepare? ==> e.id !in s.born
    ensures e.UploadLands? ==> e.id in s.born && s.now <= s.born[e.id].uploadExpiresAt + SIGNING_SLACK
    ensures e.UploadLands? ==> CanUpload(e.id) in s.soup
    ensures e.Sign? ==> e.id in s.born && s.now < s.born[e.id].uploadExpiresAt
    ensures e.RestoreLands? ==> RestoreReady(e.manifest, e.bytes) in s.soup && Empty(s.primary, e.manifest.source.key)
    ensures e.SweepDelete? ==>
        e.t in s.sweeps && e.id in s.sweeps[e.t].ids && e.version in s.primary && s.primary[e.version].id == e.id
  {
    hide Decode, ReadsBack, Prunable, Inventoried, Closed, QuotaAdmits, ValidManifest, VerifyRecovery, Locked, Empty,
        Rebindable;
  }

  lemma CommitGuards(s: State, m: Manifest, v: Version, bytes: Bytes, scope: set<string>)
    requires Enabled(s, CommitRestore(m, v, bytes, scope))
    ensures Sourced(s, m.source.key, scope) && Verified(s, m.source.key)
        && Rebindable(s.ledger[m.source.key], s.rows[m.source.key], v)
    ensures BytesMatch(s.ledger[m.source.key].expected, bytes)
  {
    hide ValidManifest;
  }

  lemma BatchGuards(s: State, e: Event)
    requires Enabled(s, e)
    ensures e.SweepMark? ==> e.t in s.sweeps && Empty(s.primary, e.id)
    ensures e.CommitSweep? ==> e.t in s.sweeps && s.sweeps[e.t].marked == s.sweeps[e.t].ids
    ensures e.CommitSweep? ==> forall id :: id in e.pruned ==> Prunable(s, e.t, id, e.scope)
    ensures e.CommitPurge? ==> e.t in s.purges && s.purges[e.t].marked == s.purges[e.t].ids
  {
    hide Decode, ReadsBack, Inventoried, Closed, QuotaAdmits, ValidManifest, VerifyRecovery, Locked, Empty, Rebindable,
        Sourced, Prunable;
  }
}
