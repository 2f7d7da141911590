/** The clock, the tables and the buckets as one object that programs call, with a network that may drop a request or
    its answer. */
module EvidenceSystem {
  import opened Basics
  import opened Hashing
  import opened EvidencePolicy
  import opened Evidence
  import opened EvidenceInvariants
  import opened EvidenceSteps
  import opened EvidenceRuns
  import opened EvidenceTheorems
  import opened EvidenceRecovery
  import opened EvidenceAttempts

  /** Every client aborts a call after five seconds. */
  const CALL_TIMEOUT: nat := 5000

  datatype Fate = Works | RequestLost | AnswerLost

  datatype Turn = Turn(delay: nat, fate: Fate)

  datatype Result<+T> = Ok(value: T) | Thrown

  /** Nothing but time passed. */
  predicate OnlyWaited(before: State, after: State) {
    before.now <= after.now && after == before.(now := after.now)
  }

  /** Undisturbed, a call takes no time. */
  ghost predicate Prompt(turnsBefore: seq<Turn>, turnsAfter: seq<Turn>, before: State, after: State) {
    turnsBefore == [] ==> turnsAfter == [] && after.now == before.now
  }

  function NewSpec(job: Job, provider: string, sha256: Digest, size: nat, media: string, started: Time,
      retention: nat): Spec {
    Spec(job, provider, sha256, size, media, started + UPLOAD, started + 1000 * retention)
  }

  /** If-None-Match: the write lands where nothing lies. */
  function WithRestore(s: State, m: Manifest, bytes: Bytes): State {
    if Empty(s.primary, m.source.key) then
      PutPrimary(s, Object(m.source.key, bytes, m.source.mediaType, RestoreTag(m)))
    else s
  }

  function WithCopy(s: State, draft: Manifest, bytes: Bytes): State {
    if Empty(s.backup, draft.backupKey) then
      PutBackup(s, Object(draft.backupKey, bytes, draft.source.mediaType, CopyOf(draft)))
    else s
  }

  class System {
    var s: State
    var turns: seq<Turn>
    ghost var trace: seq<Event>

    /** The present state is the outcome of machine events, each enabled when it happened. */
    ghost predicate Valid()
      reads this
    {
      Run(START, trace) && After(START, trace) == s
    }

    constructor (turns: seq<Turn>)
      ensures Valid() && s == START && this.turns == turns
    {
      s := START;
      this.turns := turns;
      trace := [];
    }

    method Do(e: Event)
      requires Valid() && Enabled(s, e)
      modifies this
      ensures Valid() && s == Step(old(s), e) && turns == old(turns)
    {
      RunThen(START, trace, e);
      trace := trace + [e];
      s := Step(s, e);
    }

    /** One call goes out: time passes, and the request or its answer may be lost. */
    method Await() returns (arrives: bool, answered: bool)
      requires Valid()
      modifies this
      ensures Valid() && OnlyWaited(old(s), s)
      ensures answered ==> arrives
      ensures arrives ==> s.now <= old(s).now + CALL_TIMEOUT
      ensures old(turns) == [] ==> arrives && answered && s == old(s) && turns == []
    {
      if turns == [] {
        return true, true;
      }
      var turn := turns[0];
      turns := turns[1..];
      Do(Tick(turn.delay));
      arrives := turn.fate != RequestLost && turn.delay <= CALL_TIMEOUT;
      answered := turn.fate == Works && arrives;
    }

    /* One method a call that changes something; the guards are those the programs have checked. */

    method InsertRow(id: Id, job: Job, provider: string, sha256: Digest, size: nat, media: string, started: Time,
        retention: nat)
      requires Valid() && id !in s.born && started <= s.now && 600 <= retention <= 31536000 && 1 <= size <= 8192
      requires ValidMedia(media) && ValidJobId(job.jobId)
      requires QuotaAdmits(s.rows, NewSpec(job, provider, sha256, size, media, started, retention))
      modifies this
      ensures turns == old(turns)
      ensures Valid()
      ensures var spec := NewSpec(job, provider, sha256, size, media, started, retention);
        s == old(s).(born := old(s).born[id := spec], rows := old(s).rows[id := Row(spec, None, None)])
    {
      Do(Prepare(id, job, provider, sha256, size, media, started, retention));
    }

    method LearnUpload(id: Id)
      requires Valid() && id in s.born && s.now < s.born[id].uploadExpiresAt
      modifies this
      ensures turns == old(turns)
      ensures Valid() && s == Learn(old(s), CanUpload(id))
    {
      Do(Sign(id));
    }

    method LearnHeaded(id: Id, v: Version)
      requires Valid() && id in s.rows && s.rows[id].purgedAt.None? && s.now < s.rows[id].spec.uploadExpiresAt
      requires Latest(s.primary, id, v) && s.primary[v].mediaType == s.rows[id].spec.mediaType
      requires Sha256(s.primary[v].bytes) == s.rows[id].spec.sha256
      modifies this
      ensures turns == old(turns)
      ensures Valid() && s == Learn(old(s), Headed(id, v))
    {
      Do(Head(id, v));
    }

    method Pin(id: Id, v: Version)
      requires Valid() && Headed(id, v) in s.soup && id in s.rows && s.rows[id].purgedAt.None?
          && s.now < s.rows[id].spec.expiresAt
      requires (s.rows[id].versionId.Some? || s.now < s.rows[id].spec.uploadExpiresAt) && !Locked(s.sweeps, id)
      modifies this
      ensures turns == old(turns)
      ensures Valid()
      ensures s == old(s).(rows := old(s).rows[id := old(s).rows[id].(versionId := Coalesce(old(s).rows[id].versionId,
          v))])
    {
      Do(Finalize(id, v));
    }

    method LearnCopied(e: Source, v: Version, m: Manifest)
      requires Valid() && Reserved(e) in s.soup && Latest(s.backup, e.key, v) && Decode(s.backup[v], v) == Some(m)
      requires VerifyRecovery(m, s.backup[v].bytes, e, s.now)
      modifies this
      ensures turns == old(turns)
      ensures Valid() && s == Learn(old(s), Copied(m))
    {
      Do(SeeCopy(e, v));
    }

    method LearnCopyReady(e: Source, capturedAt: Time, bytes: Bytes)
      requires Valid() && Reserved(e) in s.soup && capturedAt <= s.now
      requires e.version in s.primary && s.primary[e.version].id == e.key
          && s.primary[e.version].mediaType == e.mediaType
      requires bytes == s.primary[e.version].bytes && VerifyRecovery(Draft(e, capturedAt), bytes, e, s.now)
      modifies this
      ensures turns == old(turns)
      ensures Valid() && s == Learn(old(s), CopyReady(Draft(e, capturedAt), bytes, s.now))
    {
      Do(CheckCopy(e, capturedAt));
    }

    method PutCopy(draft: Manifest, bytes: Bytes, checkedAt: Time)
      requires Valid() && CopyReady(draft, bytes, checkedAt) in s.soup && s.now < checkedAt + GRACE
          && Empty(s.backup, draft.backupKey)
      modifies this
      ensures turns == old(turns)
      ensures Valid() && s == PutBackup(old(s), Object(draft.backupKey, bytes, draft.source.mediaType, CopyOf(draft)))
      ensures old(s).next !in old(s).backup
    {
      Unused();
      Do(CopyLands(draft, bytes, checkedAt));
    }

    method LearnReadBack(m: Manifest, bytes: Bytes)
      requires Valid() && Copied(m) in s.soup && ReadsBack(s, m, bytes)
      modifies this
      ensures turns == old(turns)
      ensures Valid() && s == Learn(old(s), ReadBack(m, bytes))
    {
      Do(ReadCopy(m, bytes));
    }

    method LearnRestoreReady(m: Manifest, bytes: Bytes)
      requires Valid() && Loaded(m) in s.soup && ReadsBack(s, m, bytes)
      modifies this
      ensures turns == old(turns)
      ensures Valid() && s == Learn(old(s), RestoreReady(m, bytes))
    {
      Do(CheckRestore(m, bytes));
    }

    method PutRestore(m: Manifest, bytes: Bytes)
      requires Valid() && RestoreReady(m, bytes) in s.soup && Empty(s.primary, m.source.key)
      modifies this
      ensures turns == old(turns)
      ensures Valid() && s == PutPrimary(old(s), Object(m.source.key, bytes, m.source.mediaType, RestoreTag(m)))
      ensures old(s).next !in old(s).primary && (s.now < m.source.expiresAt ==> m.source.version < old(s).next)
    {
      Unused();
      SourceIsOlder(m, bytes);
      Do(RestoreLands(m, bytes));
    }

    /** If-None-Match: nothing happens where something lies. */
    method PutRestoreIfAbsent(m: Manifest, bytes: Bytes)
      requires Valid() && RestoreReady(m, bytes) in s.soup
      modifies this
      ensures turns == old(turns)
      ensures Valid()
      ensures s == WithRestore(old(s), m, bytes)
      ensures old(s).next !in old(s).primary && (s.now < m.source.expiresAt ==> m.source.version < old(s).next)
    {
      Unused();
      SourceIsOlder(m, bytes);
      hide Run, After, RestoreTag;
      if Empty(s.primary, m.source.key) {
        PutRestore(m, bytes);
      }
    }

    method PutCopyIfAbsent(draft: Manifest, bytes: Bytes, checkedAt: Time)
      requires Valid() && CopyReady(draft, bytes, checkedAt) in s.soup && s.now < checkedAt + GRACE
      modifies this
      ensures turns == old(turns)
      ensures Valid()
      ensures s == WithCopy(old(s), draft, bytes)
      ensures old(s).next !in old(s).backup
    {
      Unused();
      hide Run, After;
      if Empty(s.backup, draft.backupKey) {
        PutCopy(draft, bytes, checkedAt);
      }
    }

    method LearnRestored(m: Manifest, v: Version)
      requires Valid() && Loaded(m) in s.soup && Latest(s.primary, m.source.key, v) && v != m.source.version
      requires s.primary[v].mediaType == m.source.mediaType && s.primary[v].tag == RestoreTag(m)
      requires VerifyRecovery(m, s.primary[v].bytes, m.source, s.now)
      modifies this
      ensures turns == old(turns)
      ensures Valid() && s == Learn(old(s), Restored(m, v, old(s).primary[v].bytes))
    {
      Do(SeeRestore(m, v));
    }

    method InsertIntent(id: Id, scope: set<string>)
      requires Valid() && Sourced(s, id, scope) && ValidManifest(Draft(SnapshotOf(id, s.rows[id].spec,
          s.rows[id].versionId.value), s.now))
      requires id in s.ledger ==> s.ledger[id].contract == s.rows[id].spec.job.contract
      requires id in s.ledger ==> s.ledger[id].expected == SnapshotOf(id, s.rows[id].spec, s.rows[id].versionId.value)
      modifies this
      ensures turns == old(turns)
      ensures Valid()
      ensures s == IntentState(old(s), id, SnapshotOf(id, old(s).rows[id].spec, old(s).rows[id].versionId.value),
          old(s).rows[id].spec.job.contract)
    {
      Do(ReserveCopy(id, scope));
    }

    method SetManifest(m: Manifest, bytes: Bytes, scope: set<string>)
      requires Valid() && ReadBack(m, bytes) in s.soup && Sourced(s, m.source.key, scope) && m.source.key in s.ledger
      requires s.ledger[m.source.key].expected == SnapshotOf(m.source.key, s.rows[m.source.key].spec,
          s.rows[m.source.key].versionId.value)
      requires VerifyRecovery(m, bytes, s.ledger[m.source.key].expected, s.now)
      requires s.ledger[m.source.key].manifest.Some? ==> s.ledger[m.source.key].manifest.value == m
      modifies this
      ensures turns == old(turns)
      ensures Valid()
      ensures s == old(s).(ledger := old(s).ledger[m.source.key := old(s).ledger[m.source.key].(manifest := Some(m))])
    {
      Do(VerifyCopy(m, bytes, scope));
    }

    method LearnLoaded(id: Id, scope: set<string>)
      requires Valid() && Sourced(s, id, scope) && Verified(s, id) && ValidManifest(s.ledger[id].manifest.value)
      requires s.ledger[id].manifest.value.source == s.ledger[id].expected
      requires SnapshotOf(id, s.rows[id].spec, s.ledger[id].expected.version) == s.ledger[id].expected
      requires s.rows[id].versionId == Coalesce(s.ledger[id].restoredVersion, s.ledger[id].expected.version)
      modifies this
      ensures turns == old(turns)
      ensures Valid() && s == Learn(old(s), Loaded(old(s).ledger[id].manifest.value))
    {
      Do(LoadRecovery(id, scope));
    }

    method Rebind(m: Manifest, v: Version, bytes: Bytes, scope: set<string>)
      requires Valid() && Restored(m, v, bytes) in s.soup && Sourced(s, m.source.key, scope)
          && Verified(s, m.source.key)
      requires VerifyRecovery(s.ledger[m.source.key].manifest.value, bytes, s.ledger[m.source.key].expected, s.now)
      requires SnapshotOf(m.source.key, s.rows[m.source.key].spec, s.ledger[m.source.key].expected.version)
          == s.ledger[m.source.key].expected
      requires Rebindable(s.ledger[m.source.key], s.rows[m.source.key], v)
      modifies this
      ensures turns == old(turns)
      ensures Valid() && s == RestoredState(old(s), m.source.key, v)
    {
      Do(CommitRestore(m, v, bytes, scope));
    }

    method OpenPurge(t: nat, ids: set<Id>, scope: set<string>)
      requires Valid() && t !in s.purges && |ids| <= 10
      requires forall id :: id in ids ==>
                 && id in s.ledger && s.ledger[id].contract in scope && Due(s.now, s.ledger[id].expected)
                    && !Locked(s.purges, id)
      modifies this
      ensures turns == old(turns)
      ensures Valid() && s == old(s).(purges := old(s).purges[t := Batch(old(s).now, ids, {})])
    {
      Do(BeginPurge(t, ids, scope));
    }

    method DeleteCopy(t: nat, id: Id, v: Version)
      requires Valid() && t in s.purges && id in s.purges[t].ids && id in s.ledger && Inventoried(s, id)
      requires v in s.backup && s.backup[v].id == id
      modifies this
      ensures turns == old(turns)
      ensures Valid() && s == old(s).(backup := old(s).backup - {v})
    {
      Do(PurgeDelete(t, id, v));
    }

    method MarkPurged(t: nat, id: Id)
      requires Valid() && t in s.purges && id in s.purges[t].ids && Empty(s.backup, id)
      modifies this
      ensures turns == old(turns)
      ensures Valid() && s == old(s).(purges := MarkedIn(old(s).purges, t, id))
    {
      Do(PurgeMark(t, id));
    }

    method FinishPurge(t: nat)
      requires Valid() && t in s.purges && s.purges[t].marked == s.purges[t].ids
      modifies this
      ensures turns == old(turns)
      ensures Valid() && s == ForgottenState(old(s), t)
    {
      Do(CommitPurge(t));
    }

    method DropPurge(t: nat)
      requires Valid() && t in s.purges
      modifies this
      ensures turns == old(turns)
      ensures Valid() && s == old(s).(purges := old(s).purges - {t})
    {
      Do(AbortPurge(t));
    }

    method OpenSweep(t: nat, ids: set<Id>, scope: set<string>, limit: nat)
      requires Valid() && t !in s.sweeps && limit <= 10 && ids == FirstOf(s.rows, ClosedRows(s, scope), limit)
      modifies this
      ensures turns == old(turns)
      ensures Valid() && s == old(s).(sweeps := old(s).sweeps[t := Batch(old(s).now, ids, {})])
    {
      Do(BeginSweep(t, ids, scope, limit));
    }

    method DeleteVersion(t: nat, id: Id, v: Version)
      requires Valid() && t in s.sweeps && id in s.sweeps[t].ids && v in s.primary && s.primary[v].id == id
      requires |Under(s.primary, id)| <= MAX_VERSIONS
      modifies this
      ensures turns == old(turns)
      ensures Valid() && s == old(s).(primary := old(s).primary - {v})
    {
      Do(SweepDelete(t, id, v));
    }

    method MarkSwept(t: nat, id: Id)
      requires Valid() && t in s.sweeps && id in s.sweeps[t].ids && Empty(s.primary, id)
      modifies this
      ensures turns == old(turns)
      ensures Valid() && s == old(s).(sweeps := MarkedIn(old(s).sweeps, t, id))
    {
      Do(SweepMark(t, id));
    }

    method FinishSweep(t: nat, pruned: set<Id>, scope: set<string>)
      requires Valid() && t in s.sweeps && s.sweeps[t].marked == s.sweeps[t].ids
      requires forall id :: id in pruned ==> Prunable(s, t, id, scope)
      modifies this
      ensures turns == old(turns)
      ensures Valid() && s == SweptState(old(s), t, pruned)
    {
      Do(CommitSweep(t, pruned, scope));
    }

    method DropSweep(t: nat)
      requires Valid() && t in s.sweeps
      modifies this
      ensures turns == old(turns)
      ensures Valid() && s == old(s).(sweeps := old(s).sweeps - {t})
    {
      Do(AbortSweep(t));
    }

    /** The version a restore replaces is older than any yet to come. */
    lemma SourceIsOlder(m: Manifest, bytes: Bytes)
      requires Valid() && RestoreReady(m, bytes) in s.soup
      ensures s.now < m.source.expiresAt ==> m.source.version < s.next
    {
      Reached();
      ReachableNumbered(s);
      assert FactOk(RestoreReady(m, bytes), s);
    }

    lemma Unused()
      requires Valid()
      ensures s.next !in s.primary && s.next !in s.backup
    {
      Reached();
      assert PrimaryOk(s.born, s.primary, s.next) && BackupsOk(s.now, s.backup, s.ledger, s.next);
    }

    lemma Reached()
      requires Valid()
      ensures Reachable(s) && Inv(s)
    {
      ReachableOk(s);
    }
  }

  /** A GET without a version: the newest version under the key, if any. */
  method FindLatest(bucket: Bucket, id: Id) returns (found: Option<Version>)
    ensures found.None? <==> Empty(bucket, id)
    ensures found.Some? ==> Latest(bucket, id, found.value)
  {
    found := None;
    var rest := bucket.Keys;
    while rest != {}
      invariant rest <= bucket.Keys
      invariant found.None? ==> forall v :: v in bucket && v !in rest ==> bucket[v].id != id
      invariant found.Some? ==> found.value in bucket && bucket[found.value].id == id
      invariant found.Some? ==> forall v :: v in bucket && v !in rest && bucket[v].id == id ==> v <= found.value
      decreases |rest|
    {
      var v :| v in rest;
      if bucket[v].id == id && (found.None? || found.value < v) {
        found := Some(v);
      }
      rest := rest - {v};
    }
  }
}
