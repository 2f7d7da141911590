/** The pending-backup batch: reserve, copy, read back and verify each candidate, counting what failed. */
module BackupReconcile {
  import opened Basics
  import opened Hashing
  import opened EvidencePolicy
  import opened Evidence
  import opened EvidenceInvariants
  import opened EvidenceSystem
  import opened Deletion
  import opened BackupLedger
  import opened BackupS3
  import BackupQueue

  datatype Report = Report(dryRun: bool, busy: bool, eligible: nat, verified: nat, failed: nat)

  /** Live records of the scope without a verified backup. */
  function Candidates(s: State, contracts: set<string>): set<Id> {
    set id | id in s.rows && InScope(s.rows[id].spec.job, contracts) && s.rows[id].purgedAt.None?
        && s.rows[id].versionId.Some?
             && s.now < s.rows[id].spec.expiresAt
             && (id !in s.ledger || (s.ledger[id].manifest.None?
                && s.ledger[id].contract == s.rows[id].spec.job.contract))
  }

  /** Records and primary objects are untouched; ledger rows and copies only came or advanced, and only for these
      ids. */
  ghost predicate Reconciled(before: State, after: State, ids: set<Id>) {
    && before.now <= after.now && after.rows == before.rows && after.primary == before.primary
       && after.sweeps == before.sweeps
    && Extends(before.backup, after.backup)
    && (forall v :: v in after.backup && v !in before.backup ==> after.backup[v].id in ids)
    && (forall k :: k in before.ledger ==> k in after.ledger && BackupAdvances(before.ledger[k], after.ledger[k]))
    && (forall k :: k !in ids ==>
       (k in after.ledger <==> k in before.ledger) && (k in before.ledger ==> after.ledger[k] == before.ledger[k]))
  }

  lemma ReconciledChain(s: State, t: State, u: State, ids: set<Id>, more: set<Id>)
    requires Reconciled(s, t, ids) && Reconciled(t, u, more)
    ensures Reconciled(s, u, ids + more)
  {
  }

  lemma ReconciledFrom(s: State, t: State, id: Id)
    ensures Reconciled(s, s, {})
    ensures OnlyEntry(s, t, id) && (id in s.ledger ==> id in t.ledger && BackupAdvances(s.ledger[id], t.ledger[id])) ==>
              Reconciled(s, t, {id})
    ensures TablesKept(s, t) && t.primary == s.primary && OnlyCopied(s.backup, t.backup, id) ==> Reconciled(s, t, {id})
    ensures TablesKept(s, t) && t.primary == s.primary && t.backup == s.backup ==> Reconciled(s, t, {id})
  {
  }

  /** A live record can be backed up unless its intent names another version, or its object is gone and was never
      copied. */
  ghost predicate BackupPossible(s: State, id: Id, contracts: set<string>) {
    && Reservable(s, id, contracts)
    && (Empty(s.backup, id) ==>
       s.rows[id].versionId.value in s.primary && s.primary[s.rows[id].versionId.value].id == id)
  }

  /** A candidate's intent can be recorded exactly when no more than thirty days are left until the record expires: a
      record kept for longer fails before any intent exists. */
  lemma CandidateReservableIff(s: State, id: Id, contracts: set<string>)
    requires Inv(s) && id in Candidates(s, contracts)
    ensures Reservable(s, id, contracts) <==>
            s.rows[id].spec.expiresAt - s.now <= RETENTION && s.rows[id].spec.expiresAt + GRACE <= MAX_TIMESTAMP
  {
    assert !Locked(s.sweeps, id);
    assert SpecOk(s.born[id]);
    if id in s.ledger {
      assert EntryOk(s.now, s.born, s.rows, s.backup, id, s.ledger[id]);
      assert s.ledger[id].restoredVersion.None?;
    }
  }

  /** The queue of pending backups shows the records of this scope as they are. */
  ghost predicate Shows(s: State, q: BackupQueue.State, contracts: set<string>) {
    && q.now == s.now
    && (forall id :: id in q.rows <==>
          && id in s.rows && s.rows[id].purgedAt.None?
          && s.rows[id].spec.job.network == Testnet && s.rows[id].spec.job.contract in contracts)
    && forall id :: id in q.rows ==> ShowsRow(s, id, q.rows[id])
  }

  predicate ShowsRow(s: State, id: Id, row: BackupQueue.Row)
    requires id in s.rows
  {
    && row.uploadExpiresAt == s.rows[id].spec.uploadExpiresAt && row.expiresAt == s.rows[id].spec.expiresAt
    && (row.pinned <==> s.rows[id].versionId.Some?)
    && (row.intent.Some? <==> id in s.ledger) && (row.verified <==> Verified(s, id))
  }

  /** The queue's candidates are the batch's, and its stuck rows are exactly those whose reservation must fail with
      nothing recorded. */
  lemma QueueIsFaithful(s: State, q: BackupQueue.State, contracts: set<string>, id: Id)
    requires Inv(s) && Shows(s, q, contracts)
    ensures BackupQueue.Candidate(q, id) <==> id in Candidates(s, contracts)
    ensures id in Candidates(s, contracts) ==>
              && (BackupQueue.Reservable(q.rows[id], q.now) <==> Reservable(s, id, contracts))
              && (BackupQueue.Stuck(q.rows[id], q.now) <==> !Reservable(s, id, contracts) && id !in s.ledger)
  {
    hide Reservable;
    if id in Candidates(s, contracts) {
      CandidateReservableIff(s, id, contracts);
    }
    if id in s.rows && id in s.ledger {
      assert EntryOk(s.now, s.born, s.rows, s.backup, id, s.ledger[id]);
      assert s.rows[id].spec == s.born[id];
    }
  }

  lemma CopyPossible(s: State, id: Id, contracts: set<string>)
    requires Inv(s) && Reservable(s, id, contracts) && id in s.ledger
    ensures var e := SnapshotOf(id, s.rows[id].spec, s.rows[id].versionId.value);
      BackupPossible(s, id, contracts) <==>
      && ValidManifest(Draft(e, s.now))
      && if Empty(s.backup, id) then SourceReadable(s.primary, s.now, e, Draft(e, s.now))
         else CopyAccepted(s.backup, s.now, e)
  {
    var e := SnapshotOf(id, s.rows[id].spec, s.rows[id].versionId.value);
    if Empty(s.backup, id) {
      PinnedMatches(s, id);
    } else {
      CopyStands(s, id);
    }
  }

  lemma PinnedMatches(s: State, id: Id)
    requires Inv(s) && id in s.rows && s.rows[id].versionId.Some?
    ensures var v := s.rows[id].versionId.value;
      v in s.primary && s.primary[v].id == id ==>
        BytesMatch(SnapshotOf(id, s.rows[id].spec, v), s.primary[v].bytes)
            && s.primary[v].mediaType == s.rows[id].spec.mediaType
  {
    var v := s.rows[id].versionId.value;
    if v in s.primary && s.primary[v].id == id {
      assert ObjectOk(s.primary[v], s.born);
    }
  }

  lemma CopyStands(s: State, id: Id)
    requires Inv(s) && id in s.ledger && !Empty(s.backup, id) && s.now < s.ledger[id].expected.expiresAt
    ensures CopyAccepted(s.backup, s.now, s.ledger[id].expected)
  {
    var v :| v in s.backup && s.backup[v].id == id;
    assert CopyOk(v, s.backup[v], s.ledger) && s.backup[v].tag.draft.capturedAt <= s.now;
    assert Latest(s.backup, id, v);
    assert s.ledger[id].expected.key == id;
    assert Acceptable(s.backup[v], v, s.now, s.ledger[id].expected);
  }

  lemma ReadPossible(s: State, m: Manifest)
    requires Inv(s) && Copied(m) in s.soup && s.now < m.source.expiresAt
    ensures Readable(s.backup, s.now, m)
  {
    assert FactOk(Copied(m), s);
  }

  lemma VerifyPossible(s: State, id: Id, contracts: set<string>, m: Manifest, bytes: Bytes)
    requires Inv(s) && ReadBack(m, bytes) in s.soup && LiveUnder(s, id, contracts) && id in s.ledger
    requires s.ledger[id].expected == m.source == SnapshotOf(id, s.rows[id].spec, s.rows[id].versionId.value)
    ensures Verifiable(s, id, contracts, m, bytes)
  {
    assert FactOk(ReadBack(m, bytes), s);
    if s.ledger[id].manifest.Some? {
      SameCopy(s, id, m);
    }
  }

  lemma SameCopy(s: State, id: Id, m: Manifest)
    requires Inv(s) && id in s.ledger && s.ledger[id].manifest.Some? && Kept(s.now, s.backup, m) && m.source.key == id
    requires !Due(s.now, m.source) && s.ledger[id].expected == m.source
    ensures s.ledger[id].manifest.value == m
  {
    assert EntryOk(s.now, s.born, s.rows, s.backup, id, s.ledger[id]);
    var u, v := s.ledger[id].manifest.value.backupVersion.value, m.backupVersion.value;
    assert s.backup[u].id == s.backup[v].id;
    hide Decode;
  }

  /** One candidate; any failure on the way counts as failed. Undisturbed, it fails only where no backup is possible. */
  method BackUpOne(id: Id, ledger: EvidenceBackupLedger, objects: S3EvidenceBackup) returns (ok: bool)
    requires ledger.sys == objects.sys && ledger.sys.Valid()
    modifies ledger.sys
    ensures ledger.sys.Valid() && Reconciled(old(ledger.sys.s), ledger.sys.s, {id})
    ensures Prompt(old(ledger.sys.turns), ledger.sys.turns, old(ledger.sys.s), ledger.sys.s)
    ensures ok ==> Verified(ledger.sys.s, id) && LiveUnder(ledger.sys.s, id, ledger.contracts)
    ensures old(ledger.sys.turns) == [] ==> (ok <==> BackupPossible(old(ledger.sys.s), id, ledger.contracts))
  {
    hide Run, After, Reconciled, OnlyEntry, TablesKept, OnlyCopied, LiveUnder, BytesMatch, Reservable, BackupPossible,
        Inv;
    hide Readable, CopyAccepted, SourceReadable, Verifiable, ValidManifest, Empty;
    var sys := ledger.sys;
    ghost var s0 := sys.s;
    ghost var quiet := sys.turns == [];
    PossibleIsReservable(s0, id, ledger.contracts);
    var expected := ledger.Reserve(id);
    ghost var s1 := sys.s;
    ReconciledFrom(s0, s1, id);
    if expected.Thrown? {
      return false;
    }
    sys.Reached();
    if quiet {
      ReservedThen(s0, s1, id, ledger.contracts);
      CopyPossible(s1, id, ledger.contracts);
    }
    var m := objects.Copy(expected.value);
    ghost var s2 := sys.s;
    ReconciledFrom(s1, s2, id);
    ReconciledChain(s0, s1, s2, {id}, {id});
    assert {id} + {id} == {id};
    if m.Thrown? {
      return false;
    }
    sys.Reached();
    if quiet {
      LiveSource(s1, s2, id, ledger.contracts);
      ReadPossible(s2, m.value);
    }
    var bytes := objects.ReadBackup(m.value);
    ghost var s3 := sys.s;
    ReconciledFrom(s2, s3, id);
    ReconciledChain(s0, s2, s3, {id}, {id});
    if bytes.Thrown? {
      return false;
    }
    sys.Reached();
    if quiet {
      LiveSource(s2, s3, id, ledger.contracts);
      VerifyPossible(s3, id, ledger.contracts, m.value, bytes.value);
    }
    var verified := ledger.Verify(id, m.value, bytes.value);
    ReconciledFrom(s3, sys.s, id);
    ReconciledChain(s0, s3, sys.s, {id}, {id});
    ok := verified.Ok?;
  }

  lemma PossibleIsReservable(s: State, id: Id, contracts: set<string>)
    ensures BackupPossible(s, id, contracts) ==> Reservable(s, id, contracts)
  {
  }

  lemma ReservedThen(s: State, t: State, id: Id, contracts: set<string>)
    requires OnlyEntry(s, t, id) && Reservable(s, id, contracts) && t.now == s.now && id in t.ledger
    requires t.ledger[id].expected == SnapshotOf(id, s.rows[id].spec, s.rows[id].versionId.value)
    requires id in s.ledger ==> t.ledger[id] == s.ledger[id]
    requires Inv(t)
    ensures Reservable(t, id, contracts)
    ensures BackupPossible(s, id, contracts) <==> BackupPossible(t, id, contracts)
  {
    assert EntryOk(t.now, t.born, t.rows, t.backup, id, t.ledger[id]);
    hide ValidManifest;
  }

  /** Nothing about a live record changes while its copy is made and read. */
  lemma LiveSource(s: State, t: State, id: Id, contracts: set<string>)
    requires TablesKept(s, t) && t.now == s.now && LiveUnder(s, id, contracts)
    ensures LiveUnder(t, id, contracts) && t.now < t.rows[id].spec.expiresAt && t.rows == s.rows && t.ledger == s.ledger
  {
  }

  /** The loop of a batch: each candidate is tried once, whatever becomes of the others. */
  method BackUpAll(ledger: EvidenceBackupLedger, objects: S3EvidenceBackup, candidates: set<Id>)
    returns (verified: nat, failed: nat, ghost done: set<Id>)
    requires ledger.sys == objects.sys && ledger.sys.Valid()
    modifies ledger.sys
    ensures ledger.sys.Valid() && Reconciled(old(ledger.sys.s), ledger.sys.s, candidates)
    ensures Prompt(old(ledger.sys.turns), ledger.sys.turns, old(ledger.sys.s), ledger.sys.s)
    ensures done <= candidates && verified == |done| && verified + failed == |candidates|
    ensures forall id :: id in done ==> Verified(ledger.sys.s, id)
    ensures old(ledger.sys.turns) == [] ==>
              forall id :: id in candidates ==>
                  (id in done <==> BackupPossible(old(ledger.sys.s), id, ledger.contracts))
  {
    hide Run, After, Reconciled, Verified, BackupPossible;
    var sys := ledger.sys;
    ghost var s0 := sys.s;
    ghost var tried: set<Id> := {};
    ReconciledFrom(s0, s0, 0);
    verified, failed, done := 0, 0, {};
    var rest := candidates;
    while rest != {}
      invariant sys.Valid() && Reconciled(s0, sys.s, tried) && tried + rest == candidates && tried !! rest
      invariant done <= tried && forall id :: id in done ==> Verified(sys.s, id)
      invariant verified == |done| && verified + failed + |rest| == |candidates|
      invariant Prompt(old(ledger.sys.turns), sys.turns, s0, sys.s)
      invariant old(ledger.sys.turns) == [] ==>
          forall id :: id in tried ==> (id in done <==> BackupPossible(s0, id, ledger.contracts))
      decreases |rest|
    {
      var id :| id in rest;
      ghost var before := sys.s;
      if old(ledger.sys.turns) == [] {
        StillPossible(s0, before, tried, id, ledger.contracts);
      }
      var ok := BackUpOne(id, ledger, objects);
      ReconciledChain(s0, before, sys.s, tried, {id});
      StaysVerified(before, sys.s, {id}, done);
      if ok {
        verified, done := verified + 1, done + {id};
      } else {
        failed := failed + 1;
      }
      tried, rest := tried + {id}, rest - {id};
    }
    assert tried == candidates;
  }

  /** Trying other candidates neither helps nor hinders this one. */
  lemma StillPossible(s: State, t: State, tried: set<Id>, id: Id, contracts: set<string>)
    requires Reconciled(s, t, tried) && id !in tried && t.now == s.now
    ensures BackupPossible(t, id, contracts) <==> BackupPossible(s, id, contracts)
  {
    hide ValidManifest;
  }

  /** createPendingBackupReconciliation: the counts say how many candidates now have a verified backup and how many
      failed. */
  method ReconcilePending(ledger: EvidenceBackupLedger, objects: S3EvidenceBackup, limit: nat, execute: bool,
      acquired: bool)
    returns (r: Result<Report>, candidates: set<Id>, ghost done: set<Id>)
    requires ledger.sys == objects.sys && ledger.sys.Valid()
    modifies ledger.sys
    ensures ledger.sys.Valid() && Reconciled(old(ledger.sys.s), ledger.sys.s, candidates)
    ensures !execute || !acquired || r.Thrown? ==> OnlyWaited(old(ledger.sys.s), ledger.sys.s)
    ensures done <= candidates && forall id :: id in done ==> Verified(ledger.sys.s, id)
    ensures forall id :: id in candidates ==>
              && id in ledger.sys.s.rows
              && var row := ledger.sys.s.rows[id];
              && row.spec.job.network == Testnet && row.spec.job.contract in ledger.contracts
              && row.purgedAt.None? && row.versionId.Some? && old(ledger.sys.s.now) < row.spec.expiresAt
    ensures r.Ok? ==>
              && 1 <= limit <= 10 && r.value.dryRun == !execute && r.value.busy == !acquired
                 && r.value.eligible == |candidates| <= limit
              && r.value.verified == |done|
              && r.value.verified + r.value.failed == (if execute then |candidates| else 0)
    ensures old(ledger.sys.turns) == [] ==> (r.Ok? <==> 1 <= limit <= 10)
    ensures old(ledger.sys.turns) == [] && 1 <= limit <= 10 && acquired ==>
              && |candidates| == Min(limit, |Candidates(old(ledger.sys.s), ledger.contracts)|)
              && (execute ==> forall id :: id in candidates ==>
                 (id in done <==> BackupPossible(old(ledger.sys.s), id, ledger.contracts)))
  {
    hide Run, After, Reconciled, Verified, BackupPossible;
    var sys := ledger.sys;
    candidates, done := {}, {};
    ghost var s0 := sys.s;
    ReconciledFrom(s0, s0, 0);
    if limit < 1 || limit > 10 {
      return Thrown, candidates, done;
    }
    if !acquired {
      return Ok(Report(!execute, true, 0, 0, 0)), candidates, done;
    }
    var arrives, answered := sys.Await();
    ghost var s1 := sys.s;
    JustWaited(s0, s1);
    if !answered {
      return Thrown, candidates, done;
    }
    candidates := Pick(Candidates(sys.s, ledger.contracts), limit);
    var verified, failed := 0, 0;
    if execute {
      verified, failed, done := BackUpAll(ledger, objects, candidates);
      ReconciledChain(s0, s1, sys.s, {}, candidates);
      assert {} + candidates == candidates;
    } else {
      WiderReconciled(s0, sys.s, candidates);
    }
    r := Ok(Report(!execute, false, |candidates|, verified, failed));
  }

  lemma JustWaited(s: State, t: State)
    requires OnlyWaited(s, t)
    ensures Reconciled(s, t, {})
  {
  }

  lemma WiderReconciled(s: State, t: State, ids: set<Id>)
    requires Reconciled(s, t, {})
    ensures Reconciled(s, t, ids)
  {
  }

  lemma StaysVerified(s: State, t: State, ids: set<Id>, done: set<Id>)
    requires Reconciled(s, t, ids) && forall id :: id in done ==> Verified(s, id)
    ensures forall id :: id in done ==> Verified(t, id)
  {
  }
}
