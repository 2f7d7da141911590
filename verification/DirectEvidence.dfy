/** The direct evidence service and its metadata: reservation under quotas, completion where the first version wins,
    bounded downloads. */
module DirectEvidence {
  import opened Basics
  import opened Hashing
  import opened Totals
  import opened EvidencePolicy
  import opened Evidence
  import opened EvidenceInvariants
  import opened EvidenceSystem
  import opened EvidenceTheorems

  datatype Context = Context(job: Job, provider: string, sha256: Digest, mediaType: string, sizeBytes: nat)

  datatype Post = Post(id: Id, seconds: nat, uploadExpiresAt: Time, expiresAt: Time)

  datatype Link = Link(version: Version, seconds: nat, validUntil: Time)

  const DOWNLOAD_SECONDS := 60

  predicate ValidContext(c: Context) {
    1 <= c.sizeBytes <= 8192 && ValidMedia(c.mediaType) && ValidJobId(c.job.jobId)
  }

  /** The link is valid for as many whole seconds as are left, at least one, and at most `cap`. */
  predicate LongestLink(now: Time, until: Time, seconds: nat, cap: nat) {
    && 1 <= seconds <= cap && now + 1000 * seconds <= until
    && (seconds < cap ==> until < now + 1000 * (seconds + 1))
  }

  /** A context the service takes: of the two types, one to 8192 bytes, and a positive job id of 128 bits. */
  predicate Acceptable(c: Context) {
    && c.mediaType in {"text/plain", "application/json"} && 1 <= c.sizeBytes <= 8192
    && 0 < c.job.jobId < 0x1_0000_0000_0000_0000_0000_0000_0000_0000
  }

  /** Nothing but one record was inserted. */
  ghost predicate Inserts(before: State, after: State, id: Id, spec: Spec) {
    && before.now <= after.now && id !in before.rows && after.rows == before.rows[id := Row(spec, None, None)]
    && QuotaAdmits(before.rows, spec) && after.primary == before.primary && after.ledger == before.ledger
       && after.backup == before.backup
  }

  /** Nothing but one record's first version was set. */
  ghost predicate Completes(before: State, after: State, id: Id) {
    && before.now <= after.now && id in before.rows && id in after.rows
    && after.rows == before.rows[id := before.rows[id].(versionId := after.rows[id].versionId)]
    && (before.rows[id].versionId.Some? ==> after.rows[id].versionId == before.rows[id].versionId)
    && after.primary == before.primary && after.ledger == before.ledger && after.backup == before.backup
  }

  ghost predicate Unchanged(before: State, after: State) {
    && before.now <= after.now && after.rows == before.rows
    && after.primary == before.primary && after.ledger == before.ledger && after.backup == before.backup
  }

  /** What the completing UPDATE requires of the row. */
  predicate Finalizable(s: State, id: Id) {
    && id in s.rows && s.rows[id].purgedAt.None? && s.now < s.rows[id].spec.expiresAt
    && (s.rows[id].versionId.Some? || s.now < s.rows[id].spec.uploadExpiresAt)
  }

  /** Cleanup never holds a row that can still be completed or is live. */
  lemma OpenIsUnlocked(s: State, id: Id)
    requires Inv(s)
    ensures Finalizable(s, id) ==> !Locked(s.sweeps, id)
  {
  }

  /** Every upload that can be found matches its row. */
  lemma UploadsMatch(s: State, id: Id, v: Version)
    requires Inv(s) && id in s.rows && v in s.primary && s.primary[v].id == id
    ensures var o, spec := s.primary[v], s.rows[id].spec;
      |o.bytes| == spec.sizeBytes && o.mediaType == spec.mediaType && Sha256(o.bytes) == spec.sha256
  {
    assert ObjectOk(s.primary[v], s.born);
  }

  /** What a completion needs when nothing disturbs it. */
  predicate Completable(s: State, id: Id, authorized: bool, authorizedAgain: bool, authorizedLast: bool) {
    && id in s.rows && s.rows[id].purgedAt.None? && s.now < s.rows[id].spec.expiresAt && authorized && authorizedLast
    && (s.rows[id].versionId.None? ==>
          authorizedAgain && s.now < s.rows[id].spec.uploadExpiresAt && !Empty(s.primary, id))
  }

  class DirectEvidenceService {
    const sys: System
    const retentionSeconds: nat

    constructor (sys: System, retentionSeconds: nat)
      requires 600 <= retentionSeconds <= 31536000
      ensures this.sys == sys && this.retentionSeconds == retentionSeconds
    {
      this.sys, this.retentionSeconds := sys, retentionSeconds;
    }

    /** The four sums of the reservation, and its four comparisons. */
    static method CheckQuotas(rows: map<Id, Row>, spec: Spec) returns (admitted: bool)
      ensures admitted == QuotaAdmits(rows, spec)
      ensures admitted <==>
              && |Counted(rows)| + 1 <= 100000 && TotalBytes(rows, Counted(rows)) + spec.sizeBytes <= 0x4000_0000
              && |CountedFor(rows, spec.job)| + 1 <= 5
              && TotalBytes(rows, CountedFor(rows, spec.job)) + spec.sizeBytes <= 16000
    {
      QuotaAdmitsIff(rows, spec);
      hide Counted, CountedFor, TotalBytes;
      var usage, jobUsage := Usage(rows), JobUsage(rows, spec.job);
      var bytes := Sum(usage);
      var jobBytes := Sum(jobUsage);
      admitted := !(|usage| >= MAX_ROWS || bytes + spec.sizeBytes > MAX_BYTES || |jobUsage| >= JOB_ROWS
          || jobBytes + spec.sizeBytes > JOB_BYTES);
    }

    /** metadata.reserve: both quotas are checked under the capacity lock, then the row is inserted. */
    method Reserve(id: Id, c: Context, started: Time) returns (ok: bool)
      requires sys.Valid() && 600 <= retentionSeconds <= 31536000 && ValidContext(c) && started <= sys.s.now
          && id !in sys.s.born
      modifies sys
      ensures sys.Valid()
      ensures var spec := NewSpec(c.job, c.provider, c.sha256, c.sizeBytes, c.mediaType, started, retentionSeconds);
        && (Unchanged(old(sys.s), sys.s) || (Inserts(old(sys.s), sys.s, id, spec) && id in sys.s.born
           && sys.s.born[id] == spec))
        && (ok ==> Inserts(old(sys.s), sys.s, id, spec))
        && (!QuotaAdmits(old(sys.s.rows), spec) ==> !ok)
        && (old(sys.turns) == [] ==> (ok <==> QuotaAdmits(old(sys.s.rows), spec)))
      ensures Prompt(old(sys.turns), sys.turns, old(sys.s), sys.s)
    {
      hide Run, After, QuotaAdmits;
      var arrives, answered := sys.Await();
      if !arrives {
        return false;
      }
      sys.Reached();
      BornFirst(sys.s);
      hide Inv;
      var admitted := CheckQuotas(sys.s.rows, NewSpec(c.job, c.provider, c.sha256, c.sizeBytes, c.mediaType, started,
          retentionSeconds));
      if !admitted {
        return false;
      }
      sys.InsertRow(id, c.job, c.provider, c.sha256, c.sizeBytes, c.mediaType, started, retentionSeconds);
      ok := answered;
    }

    lemma BornFirst(s: State)
      requires Inv(s)
      ensures forall id :: id in s.rows ==> id in s.born
    {
    }

    method PrepareUpload(id: Id, c: Context, authorized: bool, authorizedAgain: bool) returns (r: Result<Post>)
      requires sys.Valid() && 600 <= retentionSeconds <= 31536000 && id !in sys.s.born
      modifies sys
      ensures sys.Valid()
      ensures r.Ok? ==>
                && Acceptable(c) && authorized && authorizedAgain
                && r.value.id == id && r.value.uploadExpiresAt == old(sys.s.now) + 300000
                && r.value.expiresAt == old(sys.s.now) + 1000 * retentionSeconds
                && LongestLink(sys.s.now, r.value.uploadExpiresAt, r.value.seconds, 300)
                && CanUpload(id) in sys.s.soup
                && Inserts(old(sys.s), sys.s, id, Spec(c.job, c.provider, c.sha256, c.sizeBytes, c.mediaType,
                   r.value.uploadExpiresAt, r.value.expiresAt))
      ensures old(sys.turns) == [] ==>
                (r.Ok? <==>
                 && Acceptable(c) && authorized && authorizedAgain
                 && QuotaAdmits(old(sys.s.rows), NewSpec(c.job, c.provider, c.sha256, c.sizeBytes, c.mediaType,
                    old(sys.s.now), retentionSeconds)))
    {
      hide Run, After, QuotaAdmits;
      if !ValidContext(c) || !authorized {
        return Thrown;
      }
      var started := sys.s.now;
      var reserved := Reserve(id, c, started);
      if !reserved || sys.s.now > started + UPLOAD {
        return Thrown;
      }
      var remaining := Min(300, (started + UPLOAD - sys.s.now) / 1000);
      if remaining < 1 {
        return Thrown;
      }
      sys.LearnUpload(id);
      if !authorizedAgain || started + UPLOAD <= sys.s.now {
        return Thrown;
      }
      r := Ok(Post(id, remaining, started + UPLOAD, started + 1000 * retentionSeconds));
    }

    /** metadata.finalize: a compare-and-set that the first version wins. */
    method FinalizeVersion(id: Id, v: Version) returns (ok: bool)
      requires sys.Valid() && Headed(id, v) in sys.s.soup
      modifies sys
      ensures sys.Valid() && (Unchanged(old(sys.s), sys.s) || Completes(old(sys.s), sys.s, id))
      ensures ok ==>
                && Completes(old(sys.s), sys.s, id) && sys.s.now < sys.s.rows[id].spec.expiresAt
                && sys.s.rows[id].versionId == Coalesce(old(sys.s.rows[id].versionId), v)
      ensures Prompt(old(sys.turns), sys.turns, old(sys.s), sys.s)
      ensures old(sys.turns) == [] ==>
                (ok <==>
                 && id in old(sys.s.rows) && old(sys.s.rows)[id].purgedAt.None?
                 && old(sys.s.now) < old(sys.s.rows)[id].spec.expiresAt
                 && (old(sys.s.rows)[id].versionId.None? ==>
                    old(sys.s.now) < old(sys.s.rows)[id].spec.uploadExpiresAt))
    {
      hide Run, After, Inv, Locked;
      sys.Reached();
      OpenIsUnlocked(sys.s, id);
      var arrives, answered := sys.Await();
      if !arrives || !Finalizable(sys.s, id) || Locked(sys.s.sweeps, id) {
        return false;
      }
      sys.Pin(id, v);
      ok := answered;
    }

    /** complete: pins the uploaded version if none is pinned yet; a retry changes nothing. */
    method CompleteUpload(id: Id, authorized: bool, authorizedAgain: bool, authorizedLast: bool)
        returns (r: Result<Time>)
      requires sys.Valid()
      modifies sys
      ensures sys.Valid() && (Unchanged(old(sys.s), sys.s) || Completes(old(sys.s), sys.s, id))
      ensures id in old(sys.s.rows) && old(sys.s.rows[id].versionId).Some? ==> Unchanged(old(sys.s), sys.s)
      ensures r.Ok? ==>
                && id in sys.s.rows && sys.s.rows[id].versionId.Some? && sys.s.rows[id].purgedAt.None?
                && r.value == sys.s.rows[id].spec.expiresAt && sys.s.now < r.value
      ensures old(sys.turns) == [] ==>
          (r.Ok? <==> Completable(old(sys.s), id, authorized, authorizedAgain, authorizedLast))
    {
      hide Run, After;
      var arrives, answered := sys.Await();
      if !answered || id !in sys.s.rows || sys.s.rows[id].purgedAt.Some? || sys.s.rows[id].spec.expiresAt <= sys.s.now
          || !authorized {
        return Thrown;
      }
      var row := sys.s.rows[id];
      if row.versionId.None? {
        var headed := VerifyUpload(id);
        if headed.Thrown? || !authorizedAgain {
          return Thrown;
        }
        var ok := FinalizeVersion(id, headed.value);
        if !ok {
          return Thrown;
        }
      }
      if !authorizedLast || row.spec.expiresAt <= sys.s.now {
        return Thrown;
      }
      r := Ok(row.spec.expiresAt);
    }

    /** HEAD of the newest version, checked against the row. */
    method VerifyUpload(id: Id) returns (r: Result<Version>)
      requires sys.Valid() && id in sys.s.rows && sys.s.rows[id].purgedAt.None?
      modifies sys
      ensures sys.Valid() && Unchanged(old(sys.s), sys.s)
      ensures r.Ok? ==> Headed(id, r.value) in sys.s.soup
      ensures Prompt(old(sys.turns), sys.turns, old(sys.s), sys.s) && sys.s.sweeps == old(sys.s.sweeps)
      ensures old(sys.turns) == [] ==>
          (r.Ok? <==> sys.s.now < sys.s.rows[id].spec.uploadExpiresAt && !Empty(sys.s.primary, id))
    {
      hide Run, After;
      var row := sys.s.rows[id];
      if row.spec.uploadExpiresAt <= sys.s.now {
        return Thrown;
      }
      var arrives, answered := sys.Await();
      var latest := FindLatest(sys.s.primary, id);
      if !answered || latest.None? || row.spec.uploadExpiresAt <= sys.s.now {
        return Thrown;
      }
      var o := sys.s.primary[latest.value];
      sys.Reached();
      UploadsMatch(sys.s, id, latest.value);
      hide Inv;
      if |o.bytes| != row.spec.sizeBytes || o.mediaType != row.spec.mediaType || Sha256(o.bytes) != row.spec.sha256 {
        return Thrown;
      }
      sys.LearnHeaded(id, latest.value);
      r := Ok(latest.value);
    }

    /** download: a link to the pinned version that never outlives the record. */
    method Download(id: Id, authorized: bool, authorizedAgain: bool) returns (r: Result<Link>)
      requires sys.Valid()
      modifies sys
      ensures sys.Valid() && OnlyWaited(old(sys.s), sys.s)
      ensures r.Ok? ==>
                && id in sys.s.rows && sys.s.rows[id].versionId == Some(r.value.version)
                   && sys.s.rows[id].purgedAt.None?
                && LongestLink(sys.s.now, sys.s.rows[id].spec.expiresAt, r.value.seconds, 60)
                && r.value.validUntil == sys.s.now + 1000 * r.value.seconds
                && (r.value.version !in sys.s.lost ==>
                      && r.value.version in sys.s.primary && sys.s.primary[r.value.version].id == id
                      && Sha256(sys.s.primary[r.value.version].bytes) == sys.s.rows[id].spec.sha256)
      ensures old(sys.turns) == [] ==>
                (r.Ok? <==>
                 && authorized && authorizedAgain && id in sys.s.rows && sys.s.rows[id].purgedAt.None?
                 && sys.s.rows[id].versionId.Some? && sys.s.now + 1000 <= sys.s.rows[id].spec.expiresAt)
    {
      hide Run, After;
      var arrives, answered := sys.Await();
      if !answered || id !in sys.s.rows || sys.s.rows[id].purgedAt.Some? || sys.s.rows[id].spec.expiresAt <= sys.s.now
          || !authorized {
        return Thrown;
      }
      var row := sys.s.rows[id];
      var seconds := Min(DOWNLOAD_SECONDS, (row.spec.expiresAt - sys.s.now) / 1000);
      if row.versionId.None? || seconds < 1 || !authorizedAgain {
        return Thrown;
      }
      sys.Reached();
      PinIsThere(sys.s, id);
      hide Inv;
      r := Ok(Link(row.versionId.value, seconds, sys.s.now + 1000 * seconds));
    }
  }

  lemma PinIsThere(s: State, id: Id)
    requires Inv(s) && id in s.rows && s.rows[id].versionId.Some? && s.now < s.rows[id].spec.expiresAt
    ensures var v := s.rows[id].versionId.value;
      v !in s.lost ==> v in s.primary && s.primary[v].id == id && Sha256(s.primary[v].bytes) == s.rows[id].spec.sha256
  {
    var v := s.rows[id].versionId.value;
    assert v in s.primary ==> ObjectOk(s.primary[v], s.born);
  }
}
