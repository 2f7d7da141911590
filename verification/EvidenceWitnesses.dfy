/** Runs from the empty system that reach the states recovery and cleanup cannot get past by themselves. */
module EvidenceWitnesses {
  import opened Basics
  import opened Hashing
  import opened Totals
  import opened EvidencePolicy
  import opened Evidence
  import opened EvidenceTheorems
  import opened EvidenceRecovery
  import opened EvidenceAttempts
  import opened EvidenceRetries

  const BYTES: Bytes := [0]
  const WALLET := "ST000000000000000000002AMW42H"
  const CONTRACT := WALLET + ".evidence"
  const JOB := Job(Testnet, CONTRACT, 1)
  const SPEC := Spec(JOB, WALLET, Sha256(BYTES), 1, "text/plain", UPLOAD, 600000)
  const SOURCE := Source(0, 0, Sha256(BYTES), 1, "text/plain", 600000)
  const DRAFT := Draft(SOURCE, 0)
  const MANIFEST := DRAFT.(backupVersion := Some(1))
  const UPLOADED := Object(0, BYTES, "text/plain", Upload)
  const SCOPE := {CONTRACT}

  lemma Reaches(s: State, e: Event)
    requires Reachable(s) && Enabled(s, e)
    ensures Reachable(Step(s, e))
  {
    hide Enabled, Step, Run, After;
    var es :| Run(START, es) && After(START, es) == s;
    RunThen(START, es, e);
  }

  lemma StartReachable()
    ensures Reachable(START)
  {
    assert Run(START, []) && After(START, []) == START;
  }

  /* ---------- one record, uploaded and backed up ---------- */

  const SIGNED := START.(born := map[0 := SPEC], rows := map[0 := Row(SPEC, None, None)], soup := {CanUpload(0)})

  lemma SignedReachable()
    ensures Reachable(SIGNED)
  {
    StartReachable();
    hide Reachable;
    assert Usage(map[]) == map[] && JobUsage(map[], JOB) == map[];
    var none: map<Id, nat> := map[];
    assert Total(none) == 0;
    var e := Prepare(0, JOB, WALLET, Sha256(BYTES), 1, "text/plain", 0, 600);
    assert QuotaAdmits(START.rows, PreparedSpec(e));
    Reaches(START, e);
    Reaches(Step(START, e), Sign(0));
    assert Step(Step(START, e), Sign(0)) == SIGNED;
  }

  const PINNED := SIGNED.(rows := map[0 := Row(SPEC, Some(0), None)], primary := map[0 := UPLOADED], next := 1,
                          soup := {CanUpload(0), Headed(0, 0)})

  lemma PinnedReachable()
    ensures Reachable(PINNED)
  {
    SignedReachable();
    hide Reachable;
    var landed := PutPrimary(SIGNED, UPLOADED);
    Reaches(SIGNED, UploadLands(0, BYTES));
    assert Step(SIGNED, UploadLands(0, BYTES)) == landed;
    assert Latest(landed.primary, 0, 0);
    Reaches(landed, Head(0, 0));
    Reaches(Learn(landed, Headed(0, 0)), Finalize(0, 0));
    assert Step(Learn(landed, Headed(0, 0)), Finalize(0, 0)) == PINNED;
  }

  const RESERVED := PINNED.(ledger := map[0 := Backup(SOURCE, CONTRACT, None, None)],
      soup := PINNED.soup + {Reserved(SOURCE)})

  const COPIED := RESERVED.(backup := map[1 := Object(0, BYTES, "text/plain", CopyOf(DRAFT))], next := 2,
                            soup := RESERVED.soup + {CopyReady(DRAFT, BYTES, 0)})

  lemma CopiedReachable()
    ensures Reachable(COPIED)
  {
    PinnedReachable();
    hide Reachable;
    Reaches(PINNED, ReserveCopy(0, SCOPE));
    assert Step(PINNED, ReserveCopy(0, SCOPE)) == RESERVED;
    Reaches(RESERVED, CheckCopy(SOURCE, 0));
    var checked := Learn(RESERVED, CopyReady(DRAFT, BYTES, 0));
    Reaches(checked, CopyLands(DRAFT, BYTES, 0));
    assert Step(checked, CopyLands(DRAFT, BYTES, 0)) == COPIED;
  }

  const SEEN := COPIED.(soup := COPIED.soup + {Copied(MANIFEST)})

  lemma SeenReachable()
    ensures Reachable(SEEN)
  {
    CopiedReachable();
    hide Reachable;
    assert Latest(COPIED.backup, 0, 1) && Decode(COPIED.backup[1], 1) == Some(MANIFEST);
    Reaches(COPIED, SeeCopy(SOURCE, 1));
    assert Step(COPIED, SeeCopy(SOURCE, 1)) == SEEN;
  }

  const VERIFIED := SEEN.(ledger := map[0 := Backup(SOURCE, CONTRACT, Some(MANIFEST), None)],
                          soup := SEEN.soup + {ReadBack(MANIFEST, BYTES)})

  lemma VerifiedReachable()
    ensures Reachable(VERIFIED)
  {
    SeenReachable();
    hide Reachable;
    Reaches(SEEN, ReadCopy(MANIFEST, BYTES));
    var read := Learn(SEEN, ReadBack(MANIFEST, BYTES));
    Reaches(read, VerifyCopy(MANIFEST, BYTES, SCOPE));
    assert Step(read, VerifyCopy(MANIFEST, BYTES, SCOPE)) == VERIFIED;
  }

  /** Its object is lost from outside. */
  const LOST := VERIFIED.(primary := map[], lost := {0})

  lemma LostReachable()
    ensures Reachable(LOST) && Attemptable(LOST, 0, SCOPE)
  {
    VerifiedReachable();
    hide Reachable;
    Reaches(VERIFIED, Lose(0));
    assert Step(VERIFIED, Lose(0)) == LOST;
  }

  /* ---------- a second loss leaves a stale readback ---------- */

  const RESTORED := Object(0, BYTES, "text/plain", RestoreTag(MANIFEST))

  const READY := LOST.(soup := LOST.soup + {Loaded(MANIFEST), RestoreReady(MANIFEST, BYTES)})

  lemma ReadyReachable()
    ensures Reachable(READY)
  {
    LostReachable();
    hide Reachable;
    Reaches(LOST, LoadRecovery(0, SCOPE));
    var loaded := Learn(LOST, Loaded(MANIFEST));
    Reaches(loaded, CheckRestore(MANIFEST, BYTES));
    assert Step(loaded, CheckRestore(MANIFEST, BYTES)) == READY;
  }

  const REWRITTEN := READY.(primary := map[2 := RESTORED], next := 3)

  lemma RewrittenReachable()
    ensures Reachable(REWRITTEN)
  {
    ReadyReachable();
    hide Reachable;
    Reaches(READY, RestoreLands(MANIFEST, BYTES));
    assert Step(READY, RestoreLands(MANIFEST, BYTES)) == REWRITTEN;
  }

  const REREAD := REWRITTEN.(soup := READY.soup + {Restored(MANIFEST, 2, BYTES)})

  lemma RereadReachable()
    ensures Reachable(REREAD)
  {
    RewrittenReachable();
    hide Reachable;
    assert Latest(REWRITTEN.primary, 0, 2);
    Reaches(REWRITTEN, SeeRestore(MANIFEST, 2));
    assert Step(REWRITTEN, SeeRestore(MANIFEST, 2)) == REREAD;
  }

  /** A run reaches a state in which a readback from before a loss is still held; from there attempts need not agree,
      and the record can become bound to the lost version for good. */
  lemma StaleReadbackIsReachable() returns (s: State, f: Fact)
    ensures Reachable(s) && Attemptable(s, 0, SCOPE) && s.ledger[0].restoredVersion.None? && Empty(s.primary, 0)
    ensures f in s.soup && Reads(f, 0) && f.version in s.lost
    ensures 0 in s.born && !AlwaysAgrees(s, 0) && !AlwaysRecoverable(s, 0, SCOPE)
  {
    RereadReachable();
    hide Reachable;
    s, f := REREAD.(primary := map[], lost := {0, 2}), Restored(MANIFEST, 2, BYTES);
    Reaches(REREAD, Lose(2));
    assert Step(REREAD, Lose(2)) == s;
    assert !Stands(f, s.primary, 0);
    AttemptsAgreeIff(s, 0, SCOPE);
    RecoverableForGoodIff(s, 0, SCOPE);
  }

  /* ---------- a replayed upload lands on top ---------- */

  /** A run reaches a state in which a live, verified record cannot be recovered, because an upload was replayed after
      the loss. */
  lemma UploadOnTopIsReachable() returns (s: State)
    ensures Reachable(s) && Attemptable(s, 0, SCOPE) && UploadOnTop(s.primary, 0) && !Recoverable(s, 0, SCOPE)
    ensures 0 in s.born && AlwaysAgrees(s, 0)
  {
    LostReachable();
    hide Reachable;
    s := PutPrimary(LOST, UPLOADED);
    Reaches(LOST, UploadLands(0, BYTES));
    assert Step(LOST, UploadLands(0, BYTES)) == s;
    assert Latest(s.primary, 0, 2);
    assert ReadbacksStand(s, 0);
    AttemptsAgreeIff(s, 0, SCOPE);
  }

  /** Once the upload window is closed, the lost record can be recovered at any later time before it expires. */
  lemma LastingIsReachable() returns (s: State)
    ensures Reachable(s) && Lasting(s, 0, SCOPE) && AlwaysAgrees(s, 0) && AlwaysRecoverable(s, 0, SCOPE)
  {
    LostReachable();
    hide Reachable;
    s := LOST.(now := UPLOAD + SIGNING_SLACK + 1);
    Reaches(LOST, Tick(UPLOAD + SIGNING_SLACK + 1));
    assert Step(LOST, Tick(UPLOAD + SIGNING_SLACK + 1)) == s;
    assert ReadbacksStand(s, 0) && Empty(s.primary, 0);
    AttemptsAgreeIff(s, 0, SCOPE);
    RecoverableForGoodIff(s, 0, SCOPE);
  }
}
