/** The backup ledger's transactions, and recovery as the three calls that use them. */
module BackupLedger {
  import opened Basics
  import opened Hashing
  import opened EvidencePolicy
  import opened Evidence
  import opened EvidenceInvariants
  import opened EvidenceRuns
  import opened EvidenceSystem
  import opened EvidenceTheorems
  import opened EvidenceRecovery
  import opened EvidenceAttempts
  import BackupS3

  /** A transaction that touched nothing but this ledger row. */
  ghost predicate OnlyEntry(before: State, after: State, id: Id) {
    && before.now <= after.now && after.rows == before.rows && after.primary == before.primary
       && after.backup == before.backup
    && after.born == before.born && after.lost == before.lost && before.soup <= after.soup
       && after.sweeps == before.sweeps
    && forall k :: k != id ==>
       (k in after.ledger <==> k in before.ledger) && (k in before.ledger ==> after.ledger[k] == before.ledger[k])
  }

  /** The record was rebound to this version in this transaction; its expiry and everything else about it stayed. */
  ghost predicate Rebinds(before: State, after: State, id: Id, v: Version) {
    && id in before.rows && id in before.ledger && id in after.ledger
    && after.rows == before.rows[id := before.rows[id].(versionId := Some(v))]
    && after.ledger == before.ledger[id := before.ledger[id].(restoredVersion := Some(v))]
    && after.primary == before.primary && after.backup == before.backup && after.soup == before.soup
    && before.rows[id].purgedAt.None? && before.now <= after.now < before.rows[id].spec.expiresAt
    && Rebindable(before.ledger[id], before.rows[id], v)
  }

  /* What decides each transaction when nothing disturbs it. */

  ghost predicate Reservable(s: State, id: Id, contracts: set<string>) {
    && LiveUnder(s, id, contracts)
    && ValidManifest(Draft(SnapshotOf(id, s.rows[id].spec, s.rows[id].versionId.value), s.now))
    && (id in s.ledger ==>
          && s.ledger[id].contract == s.rows[id].spec.job.contract
          && s.ledger[id].expected == SnapshotOf(id, s.rows[id].spec, s.rows[id].versionId.value))
  }

  ghost predicate Verifiable(s: State, id: Id, contracts: set<string>, m: Manifest, bytes: Bytes) {
    && LiveUnder(s, id, contracts) && id in s.ledger
    && s.ledger[id].expected == SnapshotOf(id, s.rows[id].spec, s.rows[id].versionId.value)
    && VerifyRecovery(m, bytes, s.ledger[id].expected, s.now)
    && (s.ledger[id].manifest.Some? ==> s.ledger[id].manifest.value == m)
  }

  /** The further checks of loadRecovery never fail on a live, verified row. */
  lemma LoadableIff(s: State, id: Id)
    requires Inv(s)
    ensures Verified(s, id) && id in s.rows ==>
              var saved := s.ledger[id];
              && ValidManifest(saved.manifest.value) && saved.manifest.value.source == saved.expected
              && SnapshotOf(id, s.rows[id].spec, saved.expected.version) == saved.expected
              && s.rows[id].versionId == Coalesce(saved.restoredVersion, saved.expected.version)
  {
    if Verified(s, id) {
      assert EntryOk(s.now, s.born, s.rows, s.backup, id, s.ledger[id]);
    }
  }

  /** What every transaction of the ledger locks and checks first is that the record is live. */
  lemma LiveIff(s: State, id: Id, contracts: set<string>)
    ensures Sourced(s, id, contracts) <==> LiveUnder(s, id, contracts)
  {
  }

  /** What commitRestore checks under its locks. */
  predicate Committable(s: State, id: Id, contracts: set<string>, v: Version, bytes: Bytes) {
    && Sourced(s, id, contracts) && Verified(s, id)
    && VerifyRecovery(s.ledger[id].manifest.value, bytes, s.ledger[id].expected, s.now)
    && SnapshotOf(id, s.rows[id].spec, s.ledger[id].expected.version) == s.ledger[id].expected
    && Rebindable(s.ledger[id], s.rows[id], v)
  }

  /** What the invariant says of a readback of an unexpired, verified row. */
  lemma ReadbackChecksOut(s: State, m: Manifest, v: Version, bytes: Bytes)
    requires Inv(s) && Restored(m, v, bytes) in s.soup && m.source.key in s.rows && Verified(s, m.source.key)
    requires s.now < s.rows[m.source.key].spec.expiresAt
    ensures var id, saved := m.source.key, s.ledger[m.source.key];
      && saved.manifest == Some(m) && m.source == saved.expected
      && VerifyRecovery(m, bytes, m.source, s.now)
      && SnapshotOf(id, s.rows[id].spec, saved.expected.version) == saved.expected
  {
    assert FactOk(Restored(m, v, bytes), s);
    assert EntryOk(s.now, s.born, s.rows, s.backup, m.source.key, s.ledger[m.source.key]);
    hide SweepsOk, TombsOk, PurgesOk, WithinQuotas, BackupsOk, PrimaryOk, Decode;
  }

  /** For a readback of a live, verified row its checks of bytes and snapshot never fail. */
  lemma CommittableIff(s: State, m: Manifest, v: Version, bytes: Bytes, contracts: set<string>)
    requires Inv(s) && Restored(m, v, bytes) in s.soup
    ensures var id := m.source.key;
      Committable(s, id, contracts, v, bytes) <==>
          Attemptable(s, id, contracts) && Rebindable(s.ledger[id], s.rows[id], v)
  {
    hide Inv, VerifyRecovery, Rebindable, SnapshotOf;
    LiveIff(s, m.source.key, contracts);
    if Attemptable(s, m.source.key, contracts) {
      ReadbackChecksOut(s, m, v, bytes);
    }
  }

  lemma RebindingIs(s: State, t: State, id: Id, contracts: set<string>, v: Version, bytes: Bytes)
    requires Committable(t, id, contracts, v, bytes) && OnlyWaited(s, t)
    ensures Rebinds(s, RestoredState(t, id, v), id, v)
  {
    hide VerifyRecovery;
  }

  lemma VerifiableIff(s: State, t: State, id: Id, contracts: set<string>, m: Manifest, bytes: Bytes)
    requires OnlyWaited(s, t)
    ensures OnlyEntry(s, t, id)
    ensures Verifiable(t, id, contracts, m, bytes) <==>
            && Sourced(t, id, contracts) && id in t.ledger
            && t.ledger[id].expected == SnapshotOf(id, t.rows[id].spec, t.rows[id].versionId.value)
            && VerifyRecovery(m, bytes, t.ledger[id].expected, t.now)
            && (t.ledger[id].manifest.Some? ==> t.ledger[id].manifest.value == m)
  {
    LiveIff(t, id, contracts);
    hide VerifyRecovery, LiveUnder;
  }

  lemma VerifiedThen(s: State, t: State, u: State, id: Id, contracts: set<string>, m: Manifest, bytes: Bytes)
    requires OnlyWaited(s, t) && Verifiable(t, id, contracts, m, bytes)
    requires u == t.(ledger := t.ledger[id := t.ledger[id].(manifest := Some(m))])
    ensures OnlyEntry(s, u, id) && LiveUnder(u, id, contracts) && Snapshots(m.source, id, u.rows[id])
    ensures u.ledger[id].expected == m.source
  {
    hide PhaseOf, BytesMatch;
  }

  class EvidenceBackupLedger {
    const sys: System
    const contracts: set<string>

    constructor (sys: System, contracts: set<string>)
      ensures this.sys == sys && this.contracts == contracts
    {
      this.sys, this.contracts := sys, contracts;
    }

    method Reserve(id: Id) returns (r: Result<Source>)
      requires sys.Valid()
      modifies sys
      ensures sys.Valid() && OnlyEntry(old(sys.s), sys.s, id)
      ensures r.Ok? ==>
                && LiveUnder(sys.s, id, contracts) && Snapshots(r.value, id, sys.s.rows[id])
                && id in sys.s.ledger && sys.s.ledger[id].expected == r.value && Reserved(r.value) in sys.s.soup
                && (id !in old(sys.s.ledger) ==>
                      sys.s.ledger[id] == Backup(r.value, sys.s.rows[id].spec.job.contract, None, None))
      ensures id in old(sys.s.ledger) ==> id in sys.s.ledger && sys.s.ledger[id] == old(sys.s.ledger[id])
      ensures Prompt(old(sys.turns), sys.turns, old(sys.s), sys.s)
      ensures old(sys.turns) == [] ==> (r.Ok? <==> Reservable(old(sys.s), id, contracts))
    {
      hide Run, After;
      var arrives, answered := sys.Await();
      if !arrives || !Sourced(sys.s, id, contracts) {
        return Thrown;
      }
      var row := sys.s.rows[id];
      var expected := SnapshotOf(id, row.spec, row.versionId.value);
      if !ValidManifest(Draft(expected, sys.s.now)) {
        return Thrown;
      }
      if id in sys.s.ledger && (sys.s.ledger[id].contract != row.spec.job.contract
          || sys.s.ledger[id].expected != expected) {
        return Thrown;
      }
      sys.InsertIntent(id, contracts);
      r := if answered then Ok(expected) else Thrown;
    }

    method Verify(id: Id, m: Manifest, bytes: Bytes) returns (r: Result<()>)
      requires sys.Valid() && ReadBack(m, bytes) in sys.s.soup && m.source.key == id
      modifies sys
      ensures sys.Valid() && OnlyEntry(old(sys.s), sys.s, id)
      ensures r.Ok? ==>
                && LiveUnder(sys.s, id, contracts) && Snapshots(m.source, id, sys.s.rows[id])
                && id in sys.s.ledger && sys.s.ledger[id].manifest == Some(m) && sys.s.ledger[id].expected == m.source
      ensures id in old(sys.s.ledger) ==> id in sys.s.ledger && BackupAdvances(old(sys.s.ledger[id]), sys.s.ledger[id])
      ensures Prompt(old(sys.turns), sys.turns, old(sys.s), sys.s)
      ensures old(sys.turns) == [] ==> (r.Ok? <==> Verifiable(old(sys.s), id, contracts, m, bytes))
    {
      hide Run, After, VerifyRecovery, LiveUnder, Verifiable, OnlyEntry, Locked;
      ghost var s0 := sys.s;
      var arrives, answered := sys.Await();
      ghost var s1 := sys.s;
      VerifiableIff(s0, s1, id, contracts, m, bytes);
      if !arrives || !Sourced(sys.s, id, contracts) || id !in sys.s.ledger {
        return Thrown;
      }
      var row, saved := sys.s.rows[id], sys.s.ledger[id];
      if saved.expected != SnapshotOf(id, row.spec, row.versionId.value)
          || !VerifyRecovery(m, bytes, saved.expected, sys.s.now)
         || (saved.manifest.Some? && saved.manifest.value != m) {
        return Thrown;
      }
      sys.SetManifest(m, bytes, contracts);
      VerifiedThen(s0, s1, sys.s, id, contracts, m, bytes);
      r := if answered then Ok(()) else Thrown;
    }

    method LoadRecovery(id: Id) returns (r: Result<Manifest>)
      requires sys.Valid()
      modifies sys
      ensures sys.Valid() && BackupS3.TablesKept(old(sys.s), sys.s)
      ensures sys.s.primary == old(sys.s.primary) && sys.s.backup == old(sys.s.backup) && sys.s.next == old(sys.s.next)
      ensures r.Ok? ==>
                && LiveUnder(sys.s, id, contracts) && Loaded(r.value) in sys.s.soup && r.value.source.key == id
                && id in sys.s.ledger && sys.s.ledger[id].manifest == Some(r.value)
      ensures Prompt(old(sys.turns), sys.turns, old(sys.s), sys.s)
      ensures old(sys.turns) == [] ==> (r.Ok? <==> Attemptable(old(sys.s), id, contracts))
    {
      hide Run, After, Inv, ValidManifest;
      sys.Reached();
      LoadableIff(sys.s, id);
      var arrives, answered := sys.Await();
      if !answered || !Sourced(sys.s, id, contracts) || !Verified(sys.s, id) {
        return Thrown;
      }
      var row, saved := sys.s.rows[id], sys.s.ledger[id];
      var m := saved.manifest.value;
      if !ValidManifest(m) || m.source != saved.expected
          || SnapshotOf(id, row.spec, saved.expected.version) != saved.expected
         || row.versionId != Coalesce(saved.restoredVersion, saved.expected.version) {
        return Thrown;
      }
      sys.LearnLoaded(id, contracts);
      r := Ok(m);
    }

    method CommitRestore(id: Id, m: Manifest, v: Version, bytes: Bytes) returns (r: Result<()>)
      requires sys.Valid() && Restored(m, v, bytes) in sys.s.soup && m.source.key == id
      modifies sys
      ensures sys.Valid()
      ensures OnlyWaited(old(sys.s), sys.s) || Rebinds(old(sys.s), sys.s, id, v)
      ensures r.Ok? ==> LiveUnder(sys.s, id, contracts) && Rebinds(old(sys.s), sys.s, id, v)
      ensures sys.s.primary == old(sys.s.primary) && sys.s.backup == old(sys.s.backup)
      ensures Prompt(old(sys.turns), sys.turns, old(sys.s), sys.s)
      ensures old(sys.turns) == [] ==>
                (r.Ok? <==>
                    Attemptable(old(sys.s), id, contracts) && Rebindable(old(sys.s).ledger[id], old(sys.s).rows[id], v))
    {
      hide Run, After, Inv, VerifyRecovery, Rebinds;
      sys.Reached();
      CommittableIff(sys.s, m, v, bytes, contracts);
      hide Attemptable, Rebindable;
      ghost var s0 := sys.s;
      var arrives, answered := sys.Await();
      if !arrives || !Committable(sys.s, id, contracts, v, bytes) {
        return Thrown;
      }
      RebindingIs(s0, sys.s, id, contracts, v, bytes);
      sys.Rebind(m, v, bytes, contracts);
      r := if answered then Ok(()) else Thrown;
    }
  }

  /** What one recovery, however it ends, may have done: nothing to the tables, or one rebinding of this record. */
  ghost predicate Recovers(before: State, after: State, id: Id) {
    && Extends(before.primary, after.primary) && after.backup == before.backup
    && ((after.rows == before.rows && after.ledger == before.ledger) || exists v :: Rebound(before, after, id, v))
  }

  ghost predicate Rebound(before: State, after: State, id: Id, v: Version) {
    && id in before.rows && id in before.ledger && id in after.ledger
    && after.rows == before.rows[id := before.rows[id].(versionId := Some(v))]
    && after.ledger == before.ledger[id := before.ledger[id].(restoredVersion := Some(v))]
    && before.rows[id].purgedAt.None? && before.now <= after.now < before.rows[id].spec.expiresAt
    && Rebindable(before.ledger[id], before.rows[id], v)
    && v in after.primary && after.primary[v].id == id && BytesMatch(after.ledger[id].expected, after.primary[v].bytes)
  }

  /** The first two calls succeed together exactly when no upload is on top. */
  lemma AttemptReadable(s: State, id: Id, contracts: set<string>)
    requires Reachable(s) && Attemptable(s, id, contracts)
    ensures var m := TheManifest(s, id);
      && m.source.key == id && BackupS3.Readable(s.backup, s.now, m)
      && (Empty(s.primary, id) || BackupS3.RestoreSeen(s.primary, s.now, m) <==> !UploadOnTop(s.primary, id))
  {
    var bytes := AttemptReads(s, id, contracts);
    var m := TheManifest(s, id);
    KnownBefore(s, id, contracts, bytes);
    hide Inv, Numbered, Attemptable, Decode, PhaseOf, ValidManifest, Reachable, VerifyRecovery;
    if !Empty(s.primary, id) {
      var v := LatestExists(s.primary, s.primary.Keys, id);
      assert Latest(s.primary, id, v);
      BackupS3.SeenIff(s.primary, s.now, m);
      if s.primary[v].tag.RestoreOf? {
        TopReadback(s, m, v);
      }
      forall w | Latest(s.primary, id, w) ensures w == v {
      }
    }
  }

  /** The last call then succeeds exactly when nothing else was committed before. */
  lemma AttemptRebindable(s: State, t: State, id: Id, contracts: set<string>, m: Manifest, v: Version, bytes: Bytes)
    requires Reachable(s) && Attemptable(s, id, contracts) && m == TheManifest(s, id) && m.source.key == id
    requires t.rows == s.rows && t.ledger == s.ledger && t.now == s.now && t.sweeps == s.sweeps && Inv(t)
    requires BackupS3.OnlyRestored(s.primary, t.primary, s.next, m) && Latest(t.primary, id, v)
        && Restored(m, v, bytes) in t.soup
    ensures Attemptable(t, id, contracts)
    ensures Rebindable(t.ledger[id], t.rows[id], v) <==>
            (s.ledger[id].restoredVersion.Some? ==> Latest(s.primary, id, s.ledger[id].restoredVersion.value))
  {
    hide Inv, Reachable, Latest, BackupS3.OnlyRestored;
    BoundedPin(s, t, id, m, v, bytes);
    if s.ledger[id].restoredVersion.Some? {
      SameTop(s.primary, t.primary, s.next, m, s.ledger[id].restoredVersion.value, v);
    }
  }

  lemma BoundedPin(s: State, t: State, id: Id, m: Manifest, v: Version, bytes: Bytes)
    requires Reachable(s) && id in s.rows && id in s.ledger && m.source.key == id
    requires Inv(t) && Restored(m, v, bytes) in t.soup && t.ledger == s.ledger && t.now == s.now
        && s.now < s.rows[id].spec.expiresAt
    ensures s.rows[id].versionId == Coalesce(s.ledger[id].restoredVersion, s.ledger[id].expected.version)
    ensures s.ledger[id].restoredVersion.Some? ==> s.ledger[id].restoredVersion.value < s.next
    ensures v != s.ledger[id].expected.version
  {
    ReachableNumbered(s);
    PinIsLedgers(s, id);
    SourceIsLedgers(t, id, m, v, bytes);
    EntryIsOfSpec(s, id);
    assert s.rows[id].versionId.value < s.next && s.rows[id].spec == s.born[id];
  }

  lemma SourceIsLedgers(t: State, id: Id, m: Manifest, v: Version, bytes: Bytes)
    requires Inv(t) && Restored(m, v, bytes) in t.soup && m.source.key == id && id in t.ledger
    ensures v != m.source.version && (!Due(t.now, t.ledger[id].expected) ==> m.source == t.ledger[id].expected)
  {
    assert FactOk(Restored(m, v, bytes), t);
    EntryIsOfSpec(t, id);
  }

  lemma SameTop(before: Bucket, after: Bucket, next: Version, m: Manifest, w: Version, v: Version)
    requires BackupS3.OnlyRestored(before, after, next, m) && Latest(after, m.source.key, v) && w < next
    ensures v == w <==> Latest(before, m.source.key, w)
  {
    if v == w {
      assert v in before;
    }
    if Latest(before, m.source.key, w) {
      assert !Empty(before, m.source.key);
      assert after[w].id == m.source.key && v in before;
    }
  }

  /** recoverPrivateEvidence: on success the record is bound to the returned version, which holds the ledger's bytes;
      a failure leaves it as it was, or bound although the answer was lost. No version is ever removed. */
  method RecoverPrivateEvidence(id: Id, ledger: EvidenceBackupLedger, objects: BackupS3.S3EvidenceBackup)
      returns (r: Result<Version>)
    requires ledger.sys == objects.sys && ledger.sys.Valid()
    modifies ledger.sys
    ensures ledger.sys.Valid()
    ensures Recovers(old(ledger.sys.s), ledger.sys.s, id)
    ensures r.Ok? ==> LiveUnder(ledger.sys.s, id, ledger.contracts)
    ensures r.Ok? ==> Rebound(old(ledger.sys.s), ledger.sys.s, id, r.value)
    ensures old(ledger.sys.turns) == [] ==> (r.Ok? <==> Recoverable(old(ledger.sys.s), id, ledger.contracts))
  {
    hide Run, After, LiveUnder, Recoverable, Attemptable, Rebindable, BackupS3.Readable, BackupS3.RestoreSeen, Latest,
        Empty,
        UploadOnTop, Inv, Rebinds, Rebound, Recovers, BackupS3.OnlyRestored, BackupS3.IsRestored, OnlyWaited,
        BackupS3.TablesKept;
    var sys := ledger.sys;
    ghost var s0 := sys.s;
    sys.Reached();
    var m := ledger.LoadRecovery(id);
    ghost var s1 := sys.s;
    SameAttempt(s0, s1, id, ledger.contracts);
    if m.Thrown? {
      NothingDone(s0, s1, id);
      return Thrown;
    }
    var recovered := objects.Restore(m.value);
    ghost var s2 := sys.s;
    sys.Reached();
    if old(ledger.sys.turns) == [] {
      AttemptDecided(s0, s1, s2, id, ledger.contracts, m.value, recovered);
    }
    if recovered.Thrown? {
      RestoredOnly(s0, s1, s2, id, m.value);
      return Thrown;
    }
    var v, bytes := recovered.value.0, recovered.value.1;
    var done := ledger.CommitRestore(id, m.value, v, bytes);
    sys.Reached();
    Summed(s0, s1, s2, sys.s, m.value, v, bytes);
    r := if done.Ok? then Ok(v) else Thrown;
  }

  lemma SameAttempt(s: State, t: State, id: Id, contracts: set<string>)
    ensures !Attemptable(s, id, contracts) ==> !Recoverable(s, id, contracts)
  {
  }

  lemma AttemptDecided(s: State, t: State, u: State, id: Id, contracts: set<string>, m: Manifest,
      r: Result<(Version, Bytes)>)
    requires Reachable(s) && Attemptable(s, id, contracts)
    requires BackupS3.TablesKept(s, t) && t.primary == s.primary && t.backup == s.backup && t.next == s.next
        && t.now == s.now
    requires id in t.ledger && t.ledger[id].manifest == Some(m)
    requires BackupS3.TablesKept(t, u) && u.backup == t.backup && BackupS3.OnlyRestored(t.primary, u.primary, t.next, m)
        && u.now == t.now
    requires Inv(u)
    ensures r.Thrown? && (r.Ok? <==>
        BackupS3.Readable(u.backup, u.now, m) && (Empty(t.primary, m.source.key)
        || BackupS3.RestoreSeen(t.primary, u.now, m)))
            ==> !Recoverable(s, id, contracts)
    ensures r.Ok? && (r.Ok? <==>
        BackupS3.Readable(u.backup, u.now, m) && (Empty(t.primary, m.source.key)
        || BackupS3.RestoreSeen(t.primary, u.now, m)))
            && Restored(m, r.value.0, r.value.1) in u.soup && Latest(u.primary, id, r.value.0)
            ==>
                (Recoverable(s, id, contracts) <==>
                Attemptable(u, id, contracts) && Rebindable(u.ledger[id], u.rows[id], r.value.0))
  {
    AttemptReadable(s, id, contracts);
    hide Inv, Reachable, BackupS3.Readable, BackupS3.RestoreSeen, Empty, UploadOnTop, Rebindable, BackupS3.OnlyRestored,
        Latest;
    if r.Ok? && Restored(m, r.value.0, r.value.1) in u.soup && Latest(u.primary, id, r.value.0) {
      AttemptRebindable(s, u, id, contracts, m, r.value.0, r.value.1);
    }
  }

  lemma NothingDone(s: State, t: State, id: Id)
    requires BackupS3.TablesKept(s, t) && t.primary == s.primary && t.backup == s.backup
    ensures Recovers(s, t, id)
  {
  }

  lemma RestoredOnly(s: State, t: State, u: State, id: Id, m: Manifest)
    requires BackupS3.TablesKept(s, t) && t.primary == s.primary && t.backup == s.backup
    requires BackupS3.TablesKept(t, u) && u.backup == t.backup && BackupS3.OnlyRestored(t.primary, u.primary, t.next, m)
    ensures Recovers(s, u, id)
  {
  }

  /** The three calls together, as seen from before the first. */
  lemma Summed(s: State, t: State, u: State, w: State, m: Manifest, v: Version, bytes: Bytes)
    requires BackupS3.TablesKept(s, t) && t.primary == s.primary && t.backup == s.backup
    requires BackupS3.TablesKept(t, u) && u.backup == t.backup && BackupS3.OnlyRestored(t.primary, u.primary, t.next, m)
    requires Restored(m, v, bytes) in u.soup && BackupS3.IsRestored(u.primary, m, v, bytes)
    requires OnlyWaited(u, w) || Rebinds(u, w, m.source.key, v)
    requires Inv(w)
    ensures Recovers(s, w, m.source.key)
    ensures Rebinds(u, w, m.source.key, v) ==> Rebound(s, w, m.source.key, v)
  {
    if Rebinds(u, w, m.source.key, v) {
      BoundHolds(u, w, m, v, bytes);
      hide Inv, BytesMatch;
      assert Rebound(s, w, m.source.key, v);
    } else {
      RestoredOnly(s, t, u, m.source.key, m);
    }
  }

  lemma BoundHolds(t: State, u: State, m: Manifest, v: Version, bytes: Bytes)
    requires Inv(u) && Restored(m, v, bytes) in u.soup && Rebinds(t, u, m.source.key, v)
    ensures BytesMatch(u.ledger[m.source.key].expected, bytes)
  {
    assert FactOk(Restored(m, v, bytes), u);
    assert EntryOk(u.now, u.born, u.rows, u.backup, m.source.key, u.ledger[m.source.key]);
  }
}
