/** When one undisturbed recovery attempt commits, exactly, and the two ways a recovery can be blocked. */
module EvidenceAttempts {
  import opened Basics
  import opened Hashing
  import opened EvidencePolicy
  import opened Evidence
  import opened EvidenceInvariants
  import opened EvidenceRuns
  import opened EvidenceTheorems
  import opened EvidenceEffects
  import opened EvidenceRecovery

  lemma {:induction false} LatestExists(bucket: Bucket, keys: set<Version>, id: Id) returns (v: Version)
    requires keys <= bucket.Keys && exists u :: u in keys && bucket[u].id == id
    ensures v in keys && bucket[v].id == id && forall u :: u in keys && bucket[u].id == id ==> u <= v
    decreases |keys|
  {
    var u :| u in keys && bucket[u].id == id;
    if exists w :: w in keys - {u} && bucket[w].id == id {
      var w := LatestExists(bucket, keys - {u}, id);
      v := if w < u then u else w;
    } else {
      v := u;
    }
  }

  ghost predicate UploadOnTop(primary: Bucket, id: Id) {
    exists v :: Latest(primary, id, v) && primary[v].tag.Upload?
  }

  /** What an attempt works from: the record it may restore and the manifest it will load. */
  ghost predicate Attemptable(s: State, id: Id, scope: set<string>) {
    LiveUnder(s, id, scope) && Verified(s, id)
  }

  function TheManifest(s: State, id: Id): Manifest
    requires Verified(s, id)
  {
    s.ledger[id].manifest.value
  }

  /** A live, verified record is recovered by one undisturbed attempt exactly when no plain upload is on top of its key,
      and a version committed earlier is still the newest there. */
  ghost predicate Recoverable(s: State, id: Id, contracts: set<string>) {
    && Attemptable(s, id, contracts) && !UploadOnTop(s.primary, id)
    && (s.ledger[id].restoredVersion.Some? ==> Latest(s.primary, id, s.ledger[id].restoredVersion.value))
  }

  /** The manifest is current, and its copy can be read back. */
  lemma AttemptReads(s: State, id: Id, scope: set<string>) returns (bytes: Bytes)
    requires Reachable(s) && Attemptable(s, id, scope)
    ensures id in s.rows && Verified(s, id)
    ensures var m := TheManifest(s, id);
      && m.source == s.ledger[id].expected && m.source.key == id && m.backupKey == id && ValidManifest(m)
      && id in s.born && s.rows[id].spec == s.born[id] && OfSpec(m.source, s.born[id])
      && ReadsBack(s, m, bytes) && VerifyRecovery(m, bytes, m.source, s.now)
      && s.rows[id].versionId == Coalesce(s.ledger[id].restoredVersion, m.source.version)
  {
    ReachableOk(s);
    var m := TheManifest(s, id);
    assert EntryOk(s.now, s.born, s.rows, s.backup, id, s.ledger[id]) && Kept(s.now, s.backup, m);
    bytes := s.backup[m.backupVersion.value].bytes;
  }

  function Prepared(s: State, m: Manifest, bytes: Bytes): State {
    Learn(Learn(s, Loaded(m)), RestoreReady(m, bytes))
  }

  /** loadRecovery and the checks before the conditional write. */
  lemma AttemptBegins(s: State, id: Id, scope: set<string>, bytes: Bytes) returns (es: seq<Event>)
    requires Attemptable(s, id, scope)
    requires var m := TheManifest(s, id);
      && m.source == s.ledger[id].expected && ValidManifest(m) && m.source.key == id
         && OfSpec(m.source, s.rows[id].spec)
      && ReadsBack(s, m, bytes) && s.rows[id].versionId == Coalesce(s.ledger[id].restoredVersion, m.source.version)
    ensures Run(s, es) && After(s, es) == Prepared(s, TheManifest(s, id), bytes)
    ensures forall e :: e in es ==> !e.Lose?
  {
    var m := TheManifest(s, id);
    var s1 := Learn(s, Loaded(m));
    assert Enabled(s, LoadRecovery(id, scope)) && Step(s, LoadRecovery(id, scope)) == s1;
    assert Enabled(s1, CheckRestore(m, bytes)) && Step(s1, CheckRestore(m, bytes)) == Prepared(s, m, bytes);
    es := [LoadRecovery(id, scope), CheckRestore(m, bytes)];
    hide Enabled, Step, ReadsBack, Attemptable;
    TwoSteps(s, es[0], es[1]);
  }

  lemma TwoSteps(s: State, d: Event, e: Event)
    requires Enabled(s, d) && Enabled(Step(s, d), e)
    ensures Run(s, [d, e]) && After(s, [d, e]) == Step(Step(s, d), e)
  {
    hide Enabled, Step;
    assert [d, e][1..] == [e] && [e][1..] == [];
    assert Run(Step(Step(s, d), e), []);
    assert Run(Step(s, d), [e]) && After(Step(s, d), [e]) == Step(Step(s, d), e);
  }

  /** The conditional write and the latest version after it. */
  function Written(s: State, m: Manifest, bytes: Bytes): State {
    if Empty(s.primary, m.source.key) then PutPrimary(s, Object(m.source.key, bytes, m.source.mediaType, RestoreTag(m)))
        else s
  }

  lemma FreshReadback(s: State, m: Manifest, bytes: Bytes)
    requires Loaded(m) in s.soup && Empty(s.primary, m.source.key) && s.next !in s.primary && m.source.version < s.next
    requires VerifyRecovery(m, bytes, m.source, s.now)
    ensures Enabled(Written(s, m, bytes), SeeRestore(m, s.next))
  {
    var t := Written(s, m, bytes);
    assert Latest(t.primary, m.source.key, s.next);
  }

  lemma TopReadback(s: State, m: Manifest, v: Version)
    requires Inv(s) && Numbered(s) && Latest(s.primary, m.source.key, v) && s.primary[v].tag.RestoreOf?
    requires m.source.key in s.ledger && s.ledger[m.source.key].manifest == Some(m)
        && s.ledger[m.source.key].expected == m.source
    requires m.source.key in s.born && OfSpec(m.source, s.born[m.source.key]) && PhaseOf(m, s.now) == Some(Restorable)
    ensures v != m.source.version && s.primary[v].mediaType == m.source.mediaType && s.primary[v].tag == RestoreTag(m)
    ensures VerifyRecovery(m, s.primary[v].bytes, m.source, s.now)
  {
    assert ObjectOk(s.primary[v], s.born) && TagOk(s.now, s.born, s.ledger, v, s.primary[v]);
  }

  lemma SeesTop(s: State, m: Manifest, v: Version)
    requires Loaded(m) in s.soup && Latest(s.primary, m.source.key, v) && v != m.source.version
    requires s.primary[v].mediaType == m.source.mediaType && s.primary[v].tag == RestoreTag(m)
    requires VerifyRecovery(m, s.primary[v].bytes, m.source, s.now)
    ensures Enabled(s, SeeRestore(m, v))
  {
  }

  lemma SeesOnlyTop(s: State, m: Manifest, v: Version)
    ensures Enabled(s, SeeRestore(m, v)) ==> Latest(s.primary, m.source.key, v) && s.primary[v].tag.RestoreOf?
  {
  }

  lemma KnownBefore(s: State, id: Id, scope: set<string>, bytes: Bytes)
    requires Reachable(s) && Attemptable(s, id, scope) && ReadsBack(s, TheManifest(s, id), bytes)
    ensures var m := TheManifest(s, id);
      && Inv(s) && Numbered(s) && s.next !in s.primary && m.source.version < s.next
      && m.source.key == id && id in s.born && OfSpec(m.source, s.born[id]) && s.ledger[id].expected == m.source
      && PhaseOf(m, s.now) == Some(Restorable) && VerifyRecovery(m, bytes, m.source, s.now)
      && forall v :: v in s.primary ==> !s.primary[v].tag.CopyOf?
  {
    ReachableNumbered(s);
    var b := AttemptReads(s, id, scope);
    hide Numbered, RowsOk, BackupsOk, LedgerOk, SweepsOk, TombsOk, PurgesOk, WithinQuotas, FactsOk;
    assert s.next !in s.primary && forall v :: v in s.primary ==> ObjectOk(s.primary[v], s.born);
    NumberedLedger(s, id);
  }

  lemma NumberedLedger(s: State, id: Id)
    requires Numbered(s) && id in s.ledger
    ensures s.ledger[id].expected.version < s.next
  {
  }

  /** The readback after the write succeeds exactly when no plain upload is the key's latest version. */
  lemma ReadbackSucceedsIff(s: State, id: Id, scope: set<string>, bytes: Bytes)
    requires Reachable(s) && Attemptable(s, id, scope)
    requires ReadsBack(s, TheManifest(s, id), bytes)
    ensures var m := TheManifest(s, id);
      (exists v :: Enabled(Written(Prepared(s, m, bytes), m, bytes), SeeRestore(m, v))) <==> !UploadOnTop(s.primary, id)
  {
    KnownBefore(s, id, scope, bytes);
    var m := TheManifest(s, id);
    var t := Prepared(s, m, bytes);
    hide Attemptable, ReadsBack, VerifyRecovery, PhaseOf, OfSpec, Inv, Numbered, Enabled;
    if Empty(s.primary, id) {
      FreshReadback(t, m, bytes);
    } else {
      var v := LatestExists(s.primary, s.primary.Keys, id);
      assert Latest(s.primary, id, v);
      if s.primary[v].tag.RestoreOf? {
        TopReadback(s, m, v);
        SeesTop(t, m, v);
        forall w | Latest(s.primary, id, w) ensures w == v {
        }
      } else {
        forall w ensures !Enabled(t, SeeRestore(m, w)) {
          SeesOnlyTop(t, m, w);
          assert Latest(s.primary, id, w) ==> w == v;
        }
      }
    }
  }

  /** An attempt that nothing disturbs commits, from every recoverable state. */
  lemma UndisturbedAttemptCommits(s: State, id: Id, scope: set<string>) returns (es: seq<Event>, v: Version)
    requires Reachable(s) && Recoverable(s, id, scope)
    ensures Run(s, es) && forall e :: e in es ==> !e.Lose?
    ensures var t := After(s, es);
      && t.now == s.now
      && id in t.ledger && t.ledger[id].restoredVersion == Some(v) && t.ledger[id].expected == s.ledger[id].expected
      && id in t.rows && t.rows[id] == s.rows[id].(versionId := Some(v))
      && v in t.primary && t.primary[v].id == id && BytesMatch(s.ledger[id].expected, t.primary[v].bytes)
  {
    hide Attemptable, ReadsBack, UploadOnTop, Enabled, Step, Run, After, VerifyRecovery, OfSpec, Latest, Rebindable,
        Reachable, Empty;
    hide Written, Prepared;
    var bytes := AttemptReads(s, id, scope);
    var m := TheManifest(s, id);
    es := AttemptWrites(s, id, scope, bytes);
    ReadbackSucceedsIff(s, id, scope, bytes);
    var t := Written(Prepared(s, m, bytes), m, bytes);
    v :| Enabled(t, SeeRestore(m, v));
    SeenIsRebindable(s, m, bytes, v);
    PreparedStays(s, m, bytes, id, scope);
    SeenThenCommitted(t, m, v, scope);
    TwoMore(s, es, SeeRestore(m, v), CommitRestore(m, v, t.primary[v].bytes, scope));
    es := es + [SeeRestore(m, v)] + [CommitRestore(m, v, t.primary[v].bytes, scope)];
  }

  /** The attempt up to its conditional write. */
  lemma AttemptWrites(s: State, id: Id, scope: set<string>, bytes: Bytes) returns (es: seq<Event>)
    requires Attemptable(s, id, scope)
    requires var m := TheManifest(s, id);
      && m.source == s.ledger[id].expected && ValidManifest(m) && m.source.key == id
         && OfSpec(m.source, s.rows[id].spec)
      && ReadsBack(s, m, bytes) && s.rows[id].versionId == Coalesce(s.ledger[id].restoredVersion, m.source.version)
    ensures var m := TheManifest(s, id); Run(s, es) && After(s, es) == Written(Prepared(s, m, bytes), m, bytes)
    ensures forall e :: e in es ==> !e.Lose?
  {
    es := AttemptBegins(s, id, scope, bytes);
    hide Attemptable, ReadsBack, Enabled, Step, Run, After, OfSpec;
    var m := TheManifest(s, id);
    WriteIsEnabled(s, m, bytes);
    if Empty(s.primary, id) {
      RunThen(s, es, RestoreLands(m, bytes));
      es := es + [RestoreLands(m, bytes)];
    }
  }

  lemma TwoMore(s: State, es: seq<Event>, d: Event, e: Event)
    requires Run(s, es) && Enabled(After(s, es), d) && Enabled(Step(After(s, es), d), e)
    ensures Run(s, es + [d] + [e]) && After(s, es + [d] + [e]) == Step(Step(After(s, es), d), e)
    ensures forall x :: x in es + [d] + [e] ==> x in es || x == d || x == e
  {
    hide Enabled, Step, Run, After;
    RunThen(s, es, d);
    RunThen(s, es + [d], e);
  }

  lemma PreparedStays(s: State, m: Manifest, bytes: Bytes, id: Id, scope: set<string>)
    ensures var t := Written(Prepared(s, m, bytes), m, bytes);
      && t.rows == s.rows && t.ledger == s.ledger && t.now == s.now && t.born == s.born
      && (Attemptable(s, id, scope) ==> Attemptable(t, id, scope))
  {
  }

  lemma WriteIsEnabled(s: State, m: Manifest, bytes: Bytes)
    ensures Empty(s.primary, m.source.key) ==>
              var t := Prepared(s, m, bytes);
              Enabled(t, RestoreLands(m, bytes)) && Step(t, RestoreLands(m, bytes)) == Written(t, m, bytes)
  {
  }

  /** What the attempt reads back is the first replacement, or what was committed before. */
  lemma SeenIsRebindable(s: State, m: Manifest, bytes: Bytes, v: Version)
    requires m.source.key in s.ledger && m.source.key in s.rows && s.ledger[m.source.key].expected == m.source
    requires s.rows[m.source.key].versionId == Coalesce(s.ledger[m.source.key].restoredVersion, m.source.version)
    requires s.ledger[m.source.key].restoredVersion.Some? ==>
        Latest(s.primary, m.source.key, s.ledger[m.source.key].restoredVersion.value)
    requires Enabled(Written(Prepared(s, m, bytes), m, bytes), SeeRestore(m, v))
    ensures Rebindable(s.ledger[m.source.key], s.rows[m.source.key], v)
  {
    var t := Written(Prepared(s, m, bytes), m, bytes);
    assert Latest(t.primary, m.source.key, v);
    if s.ledger[m.source.key].restoredVersion.Some? {
      assert !Empty(s.primary, m.source.key) && t.primary == s.primary;
    }
  }

  lemma SeenThenCommitted(s: State, m: Manifest, v: Version, scope: set<string>)
    requires Enabled(s, SeeRestore(m, v)) && Attemptable(s, m.source.key, scope)
    requires s.ledger[m.source.key].manifest == Some(m) && s.ledger[m.source.key].expected == m.source
    requires OfSpec(m.source, s.rows[m.source.key].spec)
    requires Rebindable(s.ledger[m.source.key], s.rows[m.source.key], v)
    ensures v in s.primary && s.primary[v].id == m.source.key && BytesMatch(m.source, s.primary[v].bytes)
    ensures var t := Step(s, SeeRestore(m, v));
      && Enabled(t, CommitRestore(m, v, s.primary[v].bytes, scope))
      && Step(t, CommitRestore(m, v, s.primary[v].bytes, scope)) == RestoredState(t, m.source.key, v)
      && t == Learn(s, Restored(m, v, s.primary[v].bytes))
  {
  }

  lemma {:induction false} RunThen(s: State, es: seq<Event>, e: Event)
    requires Run(s, es) && Enabled(After(s, es), e)
    ensures Run(s, es + [e]) && After(s, es + [e]) == Step(After(s, es), e)
    decreases |es|
  {
    hide Enabled, Step;
    if es == [] {
      assert [e][1..] == [];
    } else {
      RunThen(Step(s, es[0]), es[1..], e);
      assert (es + [e])[1..] == es[1..] + [e];
    }
  }

  /** A replayed upload on top of the key blocks every attempt: nothing can be read back as restored, and nothing can be
      written. */
  lemma UploadOnTopBlocks(s: State, id: Id, m: Manifest, v: Version, bytes: Bytes)
    requires UploadOnTop(s.primary, id) && m.source.key == id
    ensures !Enabled(s, SeeRestore(m, v)) && !Enabled(s, RestoreLands(m, bytes))
  {
    var u :| Latest(s.primary, id, u) && s.primary[u].tag.Upload?;
    assert Latest(s.primary, id, v) ==> v == u;
  }

  /** A readback from before a loss, committed late, binds the record to the lost version; no other version can then
      ever be committed. */
  lemma StaleReadbackBlocks(s: State, m: Manifest, v: Version, bytes: Bytes, scope: set<string>, w: Version,
      other: Bytes)
    requires Reachable(s) && Restored(m, v, bytes) in s.soup && v in s.lost && w != v
    requires Attemptable(s, m.source.key, scope) && s.ledger[m.source.key].restoredVersion.None?
    ensures Enabled(s, CommitRestore(m, v, bytes, scope))
    ensures var t := Step(s, CommitRestore(m, v, bytes, scope));
      && t.rows[m.source.key].versionId == Some(v) && v in t.lost
      && !Enabled(t, CommitRestore(m, w, other, scope))
  {
    var id := m.source.key;
    var read := AttemptReads(s, id, scope);
    ReachableOk(s);
    StaleIsTrusted(s, m, v, bytes);
    hide Inv, ReadsBack, Enabled, Step;
    StaleCommits(s, m, v, bytes, scope);
    OtherIsRefused(Step(s, CommitRestore(m, v, bytes, scope)), m, v, w, other, scope);
  }

  lemma OtherIsRefused(s: State, m: Manifest, v: Version, w: Version, bytes: Bytes, scope: set<string>)
    requires m.source.key in s.ledger && s.ledger[m.source.key].restoredVersion == Some(v) && w != v
    ensures !Enabled(s, CommitRestore(m, w, bytes, scope))
  {
  }

  lemma StaleCommits(s: State, m: Manifest, v: Version, bytes: Bytes, scope: set<string>)
    requires Restored(m, v, bytes) in s.soup && Attemptable(s, m.source.key, scope)
    requires s.ledger[m.source.key].manifest == Some(m) && s.ledger[m.source.key].expected == m.source
    requires OfSpec(m.source, s.rows[m.source.key].spec) && s.ledger[m.source.key].restoredVersion.None?
    requires s.rows[m.source.key].versionId == Some(m.source.version) && v != m.source.version
    requires BytesMatch(m.source, bytes) && PhaseOf(m, s.now) == Some(Restorable)
    ensures Enabled(s, CommitRestore(m, v, bytes, scope))
    ensures Step(s, CommitRestore(m, v, bytes, scope)) == RestoredState(s, m.source.key, v)
  {
  }

  /** A record is rebound once: after a committed restore, no later commit of another version is ever accepted. */
  lemma RestoreCommitsOnce(s: State, es: seq<Event>, m: Manifest, v: Version, w: Version, bytes: Bytes,
      scope: set<string>)
    requires Reachable(s) && m.source.key in s.ledger && s.ledger[m.source.key].restoredVersion == Some(v)
    requires Run(s, es) && w != v
    ensures !Enabled(After(s, es), CommitRestore(m, w, bytes, scope))
  {
    var id := m.source.key;
    ReachableOk(s);
    RunOk(s, es);
    RecordsOverRuns(s, es);
    var t := After(s, es);
    EntryIsOfSpec(s, id);
    hide Inv, Enabled, Run, After;
    if id in t.ledger && t.ledger[id].restoredVersion == Some(v) {
      OtherIsRefused(t, m, v, w, bytes, scope);
    } else {
      assert Due(t.now, s.ledger[id].expected);
      ExpiredIsRefused(s, t, m, w, bytes, scope);
    }
  }

  lemma ExpiredIsRefused(s: State, t: State, m: Manifest, w: Version, bytes: Bytes, scope: set<string>)
    requires m.source.key in s.ledger && m.source.key in s.born
        && OfSpec(s.ledger[m.source.key].expected, s.born[m.source.key])
    requires Grows(s, t) && Inv(t) && Due(t.now, s.ledger[m.source.key].expected)
    ensures !Enabled(t, CommitRestore(m, w, bytes, scope))
  {
    assert m.source.key in t.rows ==> t.rows[m.source.key].spec == t.born[m.source.key];
    hide Inv;
  }

  lemma StaleIsTrusted(s: State, m: Manifest, v: Version, bytes: Bytes)
    requires Inv(s) && Restored(m, v, bytes) in s.soup && Verified(s, m.source.key)
    requires m.source.key in s.rows && s.now < s.rows[m.source.key].spec.expiresAt
    ensures s.ledger[m.source.key].manifest == Some(m) && s.ledger[m.source.key].expected == m.source
    ensures BytesMatch(m.source, bytes) && v != m.source.version
  {
    assert FactOk(Restored(m, v, bytes), s);
  }

  /* ---------- agreement, exactly ---------- */

  /** In every run from here in which no restored version is lost from outside, all attempts agree until the record
      expires. */
  ghost predicate AlwaysAgrees(s: State, id: Id)
    requires id in s.born
  {
    forall es :: Run(s, es) && NeverLoses(s, es, id) && After(s, es).now < s.born[id].expiresAt ==>
        Agreed(After(s, es), id)
  }

  /** Attempts agree for good exactly when none of them holds a readback of a version that is no longer there. */
  lemma AttemptsAgreeIff(s: State, id: Id, scope: set<string>)
    requires Reachable(s) && Attemptable(s, id, scope) && id in s.born
    ensures AlwaysAgrees(s, id) <==> ReadbacksStand(s, id)
  {
    var bytes := AttemptReads(s, id, scope);
    hide ReadsBack, VerifyRecovery, OfSpec, Attemptable, Reachable, Agreed;
    LiveNow(s, id, scope);
    if ReadbacksStand(s, id) {
      hide ReadbacksStand, Run, After, NeverLoses;
      forall es | Run(s, es) && NeverLoses(s, es, id)
          && After(s, es).now < s.born[id].expiresAt ensures Agreed(After(s, es), id) {
        RecoveriesAgree(s, es, id);
      }
    } else {
      var f :| f in s.soup && !Stands(f, s.primary, id);
      StaleBreaks(s, id, scope, f);
    }
  }

  lemma LiveNow(s: State, id: Id, scope: set<string>)
    requires Attemptable(s, id, scope) && id in s.born && s.rows[id].spec == s.born[id]
    ensures s.now < s.born[id].expiresAt && id in s.ledger
  {
  }

  /** One late commit of a stale readback, or none if another version was committed before, ends the agreement. */
  lemma StaleBreaks(s: State, id: Id, scope: set<string>, f: Fact)
    requires Reachable(s) && Attemptable(s, id, scope) && id in s.born && s.now < s.born[id].expiresAt
    requires id in s.ledger && f in s.soup && Reads(f, id) && !Here(s.primary, id, f.version)
    ensures !AlwaysAgrees(s, id)
  {
    hide Attemptable, Reachable;
    if s.ledger[id].restoredVersion.None? {
      var e := CommitRestore(f.manifest, f.version, f.bytes, scope);
      StaleCommitRun(s, id, scope, f);
      assert Run(s, [e]) && NeverLoses(s, [e], id) && !Agreed(After(s, [e]), id);
    } else {
      assert Run(s, []) && NeverLoses(s, [], id) && After(s, []) == s;
      assert !Agreed(s, id);
    }
  }

  /** The late commit, as a run of one event. */
  lemma StaleCommitRun(s: State, id: Id, scope: set<string>, f: Fact)
    requires Reachable(s) && Attemptable(s, id, scope) && s.ledger[id].restoredVersion.None?
    requires f in s.soup && Reads(f, id) && !Here(s.primary, id, f.version)
    ensures var es := [CommitRestore(f.manifest, f.version, f.bytes, scope)];
      && Run(s, es) && NeverLoses(s, es, id) && After(s, es).now == s.now && id in After(s, es).ledger
      && After(s, es).ledger[id].restoredVersion == Some(f.version) && !Here(After(s, es).primary, id, f.version)
  {
    var e := CommitRestore(f.manifest, f.version, f.bytes, scope);
    var read := AttemptReads(s, id, scope);
    ReachableOk(s);
    assert f == Restored(f.manifest, f.version, f.bytes);
    StaleIsTrusted(s, f.manifest, f.version, f.bytes);
    hide Inv, ReadsBack, Reachable, Enabled, Step;
    StaleCommits(s, f.manifest, f.version, f.bytes, scope);
    assert [e][1..] == [];
    assert Run(Step(s, e), []) && After(Step(s, e), []) == Step(s, e);
  }

  /* ---------- an upload on top ---------- */

  lemma UploadStaysOnTop(s: State, e: Event, id: Id)
    requires Inv(s) && Enabled(s, e) && id in s.ledger && id in s.born && s.now < s.born[id].expiresAt
    requires UploadOnTop(s.primary, id) && !Takes(s, e, id)
    ensures UploadOnTop(Step(s, e).primary, id)
  {
    hide Inv, Enabled, Step, UploadOnTop, Latest, Empty;
    VersionsBelow(s);
    var u := TopUpload(s.primary, id);
    NothingLeaves(s, e, id, u);
    StepPrimary(s, e);
    VersionGuards(s, e);
    if Arriving(s, e).Some? {
      UploadStaysUnder(s.primary, s.next, Arriving(s, e).value, id);
    } else if Removes(e) {
      UploadStaysWithout(s.primary, e.version, u, id);
    }
  }

  lemma TopUpload(primary: Bucket, id: Id) returns (u: Version)
    requires UploadOnTop(primary, id)
    ensures Latest(primary, id, u) && primary[u].tag.Upload? && !Empty(primary, id) && Here(primary, id, u)
  {
    u :| Latest(primary, id, u) && primary[u].tag.Upload?;
  }

  lemma UploadStaysUnder(primary: Bucket, next: Version, o: Object, id: Id)
    requires UploadOnTop(primary, id) && (forall v :: v in primary ==> v < next)
    requires o.tag.RestoreOf? && o.id == id ==> Empty(primary, id)
    requires o.tag.RestoreOf? || o.tag.Upload?
    ensures UploadOnTop(primary[next := o], id)
  {
    var u := TopUpload(primary, id);
    var v := if o.id == id then next else u;
    assert Latest(primary[next := o], id, v) && primary[next := o][v].tag.Upload?;
  }

  lemma UploadStaysWithout(primary: Bucket, gone: Version, u: Version, id: Id)
    requires Latest(primary, id, u) && primary[u].tag.Upload? && Here(primary - {gone}, id, u)
    ensures UploadOnTop(primary - {gone}, id)
  {
    assert Latest(primary - {gone}, id, u) && (primary - {gone})[u].tag.Upload?;
  }

  /** Something outside the program takes any version from under the key. */
  predicate Takes(s: State, e: Event, id: Id) {
    e.Lose? && Here(s.primary, id, e.version)
  }

  ghost predicate NothingTaken(s: State, es: seq<Event>, id: Id)
    requires Run(s, es)
    decreases |es|
  {
    es != [] ==> !Takes(s, es[0], id) && NothingTaken(Step(s, es[0]), es[1..], id)
  }

  /** Unless something outside takes it away, an upload on top keeps every attempt from succeeding until the record
      expires. */
  lemma {:induction false} UploadBlocksUntilExpiry(s: State, es: seq<Event>, id: Id, scope: set<string>)
    requires Inv(s) && id in s.ledger && id in s.born && UploadOnTop(s.primary, id)
    requires Run(s, es) && NothingTaken(s, es, id) && After(s, es).now < s.born[id].expiresAt
    ensures UploadOnTop(After(s, es).primary, id) && !Recoverable(After(s, es), id, scope)
    decreases |es|
  {
    hide Inv, Enabled, Step, UploadOnTop, Takes, Attemptable, Latest, Advances;
    if es != [] {
      var t := Step(s, es[0]);
      StepOk(s, es[0]);
      TimeAndBirth(s, es[0], id);
      ClockOfRun(t, es[1..]);
      TimeOfBirth(s, t, id);
      LedgerStays(s, es[0], id);
      UploadStaysOnTop(s, es[0], id);
      UploadBlocksUntilExpiry(t, es[1..], id, scope);
    }
  }

  lemma TimeOfBirth(s: State, t: State, id: Id)
    requires id in s.born && id in t.born && t.born[id] == s.born[id]
    ensures t.born[id].expiresAt == s.born[id].expiresAt
  {
  }

  lemma ClockOfRun(s: State, es: seq<Event>)
    requires Inv(s) && Run(s, es)
    ensures s.now <= After(s, es).now
  {
    hide Inv, Run, After, RowsPersist, LedgerPersists;
    RecordsOverRuns(s, es);
  }
}
