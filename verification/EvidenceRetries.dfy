/** When recovery succeeds for good: in every continuation of a run, one more undisturbed attempt commits. */
module EvidenceRetries {
  import opened Basics
  import opened Hashing
  import opened EvidencePolicy
  import opened Evidence
  import opened EvidenceInvariants
  import opened EvidenceRuns
  import opened EvidenceEffects
  import opened EvidenceTheorems
  import opened EvidenceRecovery
  import opened EvidenceAttempts

  /** No plain upload can land under the key any more: the window is closed, and the last links signed within it have
      run out. */
  predicate UploadsOver(s: State, id: Id)
    requires id in s.born
  {
    && s.born[id].uploadExpiresAt <= s.now
    && (CanUpload(id) in s.soup ==> s.born[id].uploadExpiresAt + SIGNING_SLACK < s.now)
  }

  /** In every run from here that loses no restored version, recovery can be completed at any moment until the record
      expires. */
  ghost predicate AlwaysRecoverable(s: State, id: Id, scope: set<string>)
    requires id in s.born
  {
    forall es :: Run(s, es) && NeverLoses(s, es, id) && After(s, es).now < s.born[id].expiresAt ==>
        Recoverable(After(s, es), id, scope)
  }

  /** What makes it so. */
  ghost predicate Lasting(s: State, id: Id, scope: set<string>) {
    && id in s.born && Recoverable(s, id, scope) && UploadsOver(s, id)
    && (s.ledger[id].restoredVersion.None? ==> ReadbacksStand(s, id))
  }

  /* ---------- one step ---------- */

  /** A record that can be recovered stays so until it expires: nothing tombstones, prunes or locks it. */
  lemma RowStays(s: State, e: Event, id: Id, scope: set<string>)
    requires Inv(s) && Enabled(s, e) && Attemptable(s, id, scope) && id in s.born
        && Step(s, e).now < s.born[id].expiresAt
    ensures Attemptable(Step(s, e), id, scope)
  {
    hide Inv, Step, Enabled, Advances, RowsPersist, PrimaryPersists, BackupPersists;
    var t := Step(s, e);
    StepOk(s, e);
    RowOf(s, id);
    TimeAndBirth(s, e, id);
    NotSwept(s, id);
    LedgerStays(s, e, id);
    NotBeingSwept(t, id);
    StillPresent(s, e, id);
    RowOf(t, id);
    StillVerified(s, e, id);
  }

  lemma StillVerified(s: State, e: Event, id: Id)
    requires Inv(s) && Enabled(s, e) && Verified(s, id) && id in Step(s, e).ledger && id in s.born
    requires Step(s, e).now < s.born[id].expiresAt
    ensures Verified(Step(s, e), id) && BackupAdvances(s.ledger[id], Step(s, e).ledger[id])
  {
    hide Inv, Step, Enabled, RowsPersist, PrimaryPersists, BackupPersists;
    StepOk(s, e);
    EntryIsOfSpec(s, id);
  }

  lemma RowOf(s: State, id: Id)
    requires Inv(s)
    ensures id in s.rows && id in s.born ==> s.rows[id].spec == s.born[id]
  {
  }

  lemma NotSwept(s: State, id: Id)
    requires Inv(s) && id in s.rows && s.rows[id].versionId.Some? && s.now < s.rows[id].spec.expiresAt
    ensures !Locked(s.sweeps, id) && forall t :: t in s.sweeps ==> id !in s.sweeps[t].ids && id !in s.sweeps[t].marked
  {
  }

  lemma StillPresent(s: State, e: Event, id: Id)
    requires Enabled(s, e) && id in s.rows && s.rows[id].purgedAt.None? && s.rows[id].versionId.Some? && id in s.born
    requires forall t :: t in s.sweeps ==> id !in s.sweeps[t].ids && id !in s.sweeps[t].marked
    requires id in s.rows ==> s.rows[id].spec == s.born[id]
    ensures id in Step(s, e).rows && Step(s, e).rows[id].purgedAt.None? && Step(s, e).rows[id].versionId.Some?
    ensures Step(s, e).rows[id].spec == s.rows[id].spec || e.Prepare?
  {
    hide Enabled, Step, Learnt;
    StepRows(s, e);
    VersionGuards(s, e);
    BatchGuards(s, e);
  }

  lemma UploadsStayOver(s: State, e: Event, id: Id)
    requires Inv(s) && Enabled(s, e) && id in s.born && UploadsOver(s, id)
    ensures id in Step(s, e).born && UploadsOver(Step(s, e), id)
  {
    hide Inv, Step, Enabled;
    TimeAndBirth(s, e, id);
    StepSoup(s, e);
    VersionGuards(s, e);
  }

  /* ---------- the top of the key ---------- */

  predicate TopRestore(primary: Bucket, id: Id, v: Version) {
    Latest(primary, id, v) && primary[v].tag.RestoreOf?
  }

  /** Nothing lies under the key, or a restore does on top. */
  ghost predicate Clear(primary: Bucket, id: Id) {
    Empty(primary, id) || exists v :: TopRestore(primary, id, v)
  }

  lemma ClearIff(s: State, id: Id)
    requires Inv(s)
    ensures Clear(s.primary, id) <==> !UploadOnTop(s.primary, id)
  {
    if !Empty(s.primary, id) {
      var v := LatestExists(s.primary, s.primary.Keys, id);
      assert Latest(s.primary, id, v) && ObjectOk(s.primary[v], s.born);
      assert TopRestore(s.primary, id, v) || s.primary[v].tag.Upload?;
      hide Inv;
      forall w | Latest(s.primary, id, w) ensures w == v {
      }
    }
  }

  /** Without uploads, nothing comes on top of a restore, and an empty key can only receive one. */
  lemma TopStays(s: State, e: Event, id: Id)
    requires Inv(s) && Enabled(s, e) && id in s.born && id in s.ledger && s.now < s.born[id].expiresAt
    requires UploadsOver(s, id) && !Loses(s, e, id) && Clear(s.primary, id)
    ensures Clear(Step(s, e).primary, id)
    ensures forall v :: TopRestore(s.primary, id, v) ==> TopRestore(Step(s, e).primary, id, v)
  {
    NotBeingSwept(s, id);
    VersionsBelow(s);
    hide Inv, Enabled, Step, Clear, TopRestore, Empty, Latest;
    StepPrimary(s, e);
    VersionGuards(s, e);
    if Arriving(s, e).Some? {
      ClearWith(s.primary, s.next, Arriving(s, e).value, id);
    } else if Removes(e) {
      ClearWithout(s.primary, e.version, id);
    }
  }

  lemma ClearWith(primary: Bucket, next: Version, o: Object, id: Id)
    requires Clear(primary, id) && (forall v :: v in primary ==> v < next)
    requires o.id == id ==> o.tag.RestoreOf? && Empty(primary, id)
    ensures Clear(primary[next := o], id)
    ensures forall v :: TopRestore(primary, id, v) ==> TopRestore(primary[next := o], id, v)
  {
    if o.id == id {
      assert TopRestore(primary[next := o], id, next);
    } else if v :| TopRestore(primary, id, v) {
      assert TopRestore(primary[next := o], id, v);
    }
  }

  lemma ClearWithout(primary: Bucket, gone: Version, id: Id)
    requires Clear(primary, id) && !RestoreHere(primary, id, gone)
    ensures Clear(primary - {gone}, id)
    ensures forall v :: TopRestore(primary, id, v) ==> TopRestore(primary - {gone}, id, v)
  {
    if v :| TopRestore(primary, id, v) {
      assert RestoreHere(primary, id, v) && TopRestore(primary - {gone}, id, v);
    }
  }

  /** A version read back and still there is the restore on top. */
  lemma ReadIsTop(s: State, id: Id, f: Fact)
    requires Numbered(s) && Clear(s.primary, id) && f in s.soup && Reads(f, id) && Here(s.primary, id, f.version)
    ensures TopRestore(s.primary, id, f.version)
  {
    StandingIsRestore(s, id, f);
    assert OneRestore(s.primary);
    hide Numbered;
    var v :| TopRestore(s.primary, id, v);
    assert RestoreHere(s.primary, id, v) && RestoreHere(s.primary, id, f.version);
  }

  /* ---------- whole runs ---------- */

  lemma CommittedStaysOnTop(s: State, e: Event, id: Id, scope: set<string>)
    requires Inv(s) && Numbered(s) && Enabled(s, e) && Lasting(s, id, scope) && !Loses(s, e, id)
    requires Step(s, e).now < s.born[id].expiresAt && id in Step(s, e).ledger
        && Step(s, e).ledger[id].restoredVersion.Some?
    ensures Latest(Step(s, e).primary, id, Step(s, e).ledger[id].restoredVersion.value)
  {
    hide Inv, Numbered, Enabled, Step, ReadbacksStand, Loses, Attemptable, UploadOnTop, Clear, Latest;
    var v := Step(s, e).ledger[id].restoredVersion.value;
    TimeAndBirth(s, e, id);
    RecoverableIs(s, id, scope);
    RestoresComeFromReading(s, e, id);
    ClearIff(s, id);
    TopStays(s, e, id);
    if s.ledger[id].restoredVersion == Some(v) {
      RestoreLies(s, id, v);
    } else {
      CommitIsFirst(s, e, id, v);
      var f := Restored(e.manifest, v, e.bytes);
      ItStands(s, id, f);
      ReadIsTop(s, id, f);
    }
    assert TopRestore(Step(s, e).primary, id, v);
  }

  lemma ItStands(s: State, id: Id, f: Fact)
    requires ReadbacksStand(s, id) && f in s.soup && Reads(f, id)
    ensures Here(s.primary, id, f.version)
  {
    assert Stands(f, s.primary, id);
  }

  lemma RestoreLies(s: State, id: Id, v: Version)
    requires Numbered(s) && Clear(s.primary, id) && id in s.ledger && s.ledger[id].restoredVersion == Some(v)
        && Latest(s.primary, id, v)
    ensures TopRestore(s.primary, id, v)
  {
    assert WasRead(s.soup, id, v);
    var f :| f in s.soup && Reads(f, id) && f.version == v;
    ReadIsTop(s, id, f);
  }

  lemma CommitIsFirst(s: State, e: Event, id: Id, v: Version)
    requires Enabled(s, e) && e.CommitRestore? && e.manifest.source.key == id && e.version == v && id in s.ledger
    requires s.ledger[id].restoredVersion != Some(v)
    ensures s.ledger[id].restoredVersion.None?
  {
    CommitGuards(s, e.manifest, e.version, e.bytes, e.scope);
  }

  lemma LastingStep(s: State, e: Event, id: Id, scope: set<string>)
    requires Inv(s) && Numbered(s) && Enabled(s, e) && Lasting(s, id, scope) && !Loses(s, e, id)
    requires Step(s, e).now < s.born[id].expiresAt
    ensures Lasting(Step(s, e), id, scope)
  {
    hide Inv, Numbered, Enabled, Step, ReadbacksStand, Loses, UploadOnTop, Clear, Latest, UploadsOver;
    var t := Step(s, e);
    TimeAndBirth(s, e, id);
    RowStays(s, e, id, scope);
    UploadsStayOver(s, e, id);
    ClearIff(s, id);
    TopStays(s, e, id);
    StepOk(s, e);
    ClearIff(t, id);
    StillVerified(s, e, id);
    if t.ledger[id].restoredVersion.Some? {
      CommittedStaysOnTop(s, e, id, scope);
    } else {
      ReadbacksStillStand(s, e, id);
    }
  }

  lemma {:induction false} LastingRun(s: State, es: seq<Event>, id: Id, scope: set<string>)
    requires Inv(s) && Numbered(s) && Lasting(s, id, scope) && Run(s, es) && NeverLoses(s, es, id)
    requires After(s, es).now < s.born[id].expiresAt
    ensures Recoverable(After(s, es), id, scope)
    decreases |es|
  {
    hide Inv, Numbered, Enabled, Step, Lasting, Loses, Advances, Recoverable;
    LastingIs(s, id, scope);
    if es != [] {
      var t := Step(s, es[0]);
      StepOk(s, es[0]);
      NumberedStep(s, es[0]);
      TimeAndBirth(s, es[0], id);
      TimeOfBirth(s, t, id);
      ClockOfRun(t, es[1..]);
      LastingStep(s, es[0], id, scope);
      LastingRun(t, es[1..], id, scope);
    }
  }

  lemma LastingIs(s: State, id: Id, scope: set<string>)
    ensures Lasting(s, id, scope) ==> id in s.born && Recoverable(s, id, scope) && UploadsOver(s, id)
  {
    hide Recoverable, UploadsOver;
  }

  /** Whatever attempts, replays, copies and cleanups do meanwhile, a further undisturbed attempt succeeds at any time
      before expiry, exactly when it would now, no upload can land any more, and nothing stale can still be
      committed. */
  lemma RecoverableForGoodIff(s: State, id: Id, scope: set<string>)
    requires Reachable(s) && id in s.born && s.now < s.born[id].expiresAt
    ensures AlwaysRecoverable(s, id, scope) <==> Lasting(s, id, scope)
  {
    hide Inv, Numbered, Recoverable, Reachable, UploadsOver, ReadbacksStand, Run, After, NeverLoses;
    ReachableNumbered(s);
    if Lasting(s, id, scope) {
      hide Lasting;
      forall es | Run(s, es) && NeverLoses(s, es, id) && After(s, es).now < s.born[id].expiresAt
        ensures Recoverable(After(s, es), id, scope)
      {
        LastingRun(s, es, id, scope);
      }
    } else if !Recoverable(s, id, scope) {
      NoEvents(s, id);
      assert !Recoverable(After(s, []), id, scope);
    } else {
      RecoverableIs(s, id, scope);
      if !UploadsOver(s, id) {
        ReplayBlocks(s, id, scope);
      } else {
        StaleBlocks(s, id, scope);
      }
    }
  }

  lemma NoEvents(s: State, id: Id)
    ensures Run(s, []) && NeverLoses(s, [], id) && After(s, []) == s
  {
  }

  lemma RecoverableIs(s: State, id: Id, scope: set<string>)
    requires Recoverable(s, id, scope)
    ensures Attemptable(s, id, scope) && id in s.ledger
  {
  }

  lemma StaleBlocks(s: State, id: Id, scope: set<string>)
    requires Reachable(s) && Attemptable(s, id, scope) && id in s.ledger && id in s.born && s.now < s.born[id].expiresAt
    requires s.ledger[id].restoredVersion.None? && !ReadbacksStand(s, id)
    ensures !AlwaysRecoverable(s, id, scope)
  {
    hide Reachable, Attemptable, Run, After, NeverLoses;
    var f :| f in s.soup && !Stands(f, s.primary, id);
    StaleCommitRun(s, id, scope, f);
    var es := [CommitRestore(f.manifest, f.version, f.bytes, scope)];
    assert !Recoverable(After(s, es), id, scope);
  }

  /** A link that still works, or one more signed, brings an upload on top. */
  lemma ReplayBlocks(s: State, id: Id, scope: set<string>)
    requires Reachable(s) && Attemptable(s, id, scope) && id in s.born && s.now < s.born[id].expiresAt
    requires !UploadsOver(s, id)
    ensures !AlwaysRecoverable(s, id, scope)
  {
    hide Attemptable, Inv, ReadsBack, PhaseOf, Run, After, NeverLoses, Recoverable, Enabled, Step;
    var bytes := AttemptReads(s, id, scope);
    ReachableOk(s);
    VersionsBelow(s);
    hide Reachable;
    var land := UploadLands(id, bytes);
    if CanUpload(id) in s.soup {
      LandsOnTop(s, id, bytes, scope);
      OneStep(s, land, id);
      assert !Recoverable(After(s, [land]), id, scope);
    } else {
      SignsNow(s, id);
      LandsOnTop(Learn(s, CanUpload(id)), id, bytes, scope);
      OneMore(s, Sign(id), land, id);
      assert !Recoverable(After(s, [Sign(id), land]), id, scope);
    }
  }

  lemma SignsNow(s: State, id: Id)
    requires id in s.born && s.now < s.born[id].uploadExpiresAt
    ensures Enabled(s, Sign(id)) && Step(s, Sign(id)) == Learn(s, CanUpload(id))
  {
  }

  lemma LandsOnTop(s: State, id: Id, bytes: Bytes, scope: set<string>)
    requires CanUpload(id) in s.soup && id in s.born && s.now <= s.born[id].uploadExpiresAt + SIGNING_SLACK
    requires |bytes| == s.born[id].sizeBytes && Sha256(bytes) == s.born[id].sha256 && forall v ::
        v in s.primary ==> v < s.next
    ensures var e := UploadLands(id, bytes);
      Enabled(s, e) && UploadOnTop(Step(s, e).primary, id) && Step(s, e).now == s.now
          && !Recoverable(Step(s, e), id, scope)
  {
    var t := Step(s, UploadLands(id, bytes)).primary;
    assert Latest(t, id, s.next) && t[s.next].tag.Upload?;
  }

  lemma OneStep(s: State, e: Event, id: Id)
    requires Enabled(s, e) && !e.Lose?
    ensures Run(s, [e]) && NeverLoses(s, [e], id) && After(s, [e]) == Step(s, e)
  {
    hide Enabled, Step;
    assert [e][1..] == [];
    NoEvents(Step(s, e), id);
  }

  lemma OneMore(s: State, d: Event, e: Event, id: Id)
    requires Enabled(s, d) && Enabled(Step(s, d), e) && !d.Lose? && !e.Lose?
    ensures Run(s, [d, e]) && NeverLoses(s, [d, e], id) && After(s, [d, e]) == Step(Step(s, d), e)
  {
    hide Enabled, Step;
    assert [d, e][1..] == [e];
    OneStep(Step(s, d), e, id);
  }

  /** One more attempt after any run commits, and the version it commits is the only one any attempt of that run ever
      read. */
  lemma RetriesCommitOneVersion(s: State, es: seq<Event>, id: Id, scope: set<string>)
      returns (fs: seq<Event>, v: Version)
    requires Reachable(s) && Lasting(s, id, scope) && ReadbacksStand(s, id)
    requires Run(s, es) && NeverLoses(s, es, id) && After(s, es).now < s.born[id].expiresAt
    ensures Run(s, es + fs)
    ensures var t := After(s, es + fs);
      && Agreed(t, id) && t.ledger[id].restoredVersion == Some(v) && t.rows[id].versionId == Some(v)
      && t.rows[id].spec == s.born[id] && BytesMatch(t.ledger[id].expected, t.primary[v].bytes)
  {
    hide Inv, Numbered, Recoverable, Reachable, UploadsOver, ReadbacksStand, Run, After, NeverLoses, Lasting, Agreed,
        Attemptable;
    ReachableNumbered(s);
    LastingIs(s, id, scope);
    LastingRun(s, es, id, scope);
    ReachesOn(s, es);
    fs, v := UndisturbedAttemptCommits(After(s, es), id, scope);
    NeverLosesMore(s, es, fs, id);
    RecoverableIs(s, id, scope);
    RecoveriesAgree(s, es + fs, id);
    AgreedOn(After(s, es + fs), id, v);
  }

  lemma AgreedOn(t: State, id: Id, v: Version)
    requires Agreed(t, id) && t.ledger[id].restoredVersion == Some(v)
    ensures id in t.rows && t.rows[id].versionId == Some(v) && t.rows[id].spec == t.born[id]
    ensures v in t.primary && BytesMatch(t.ledger[id].expected, t.primary[v].bytes)
  {
  }

  lemma {:induction false} Continues(s: State, es: seq<Event>, fs: seq<Event>)
    requires Run(s, es) && Run(After(s, es), fs)
    ensures Run(s, es + fs) && After(s, es + fs) == After(After(s, es), fs)
    decreases |es|
  {
    hide Enabled, Step;
    if es == [] {
      assert es + fs == fs;
    } else {
      Continues(Step(s, es[0]), es[1..], fs);
      assert (es + fs)[1..] == es[1..] + fs;
    }
  }

  lemma ReachesOn(s: State, es: seq<Event>)
    requires Reachable(s) && Run(s, es)
    ensures Reachable(After(s, es))
  {
    hide Run, After;
    var first :| Run(START, first) && After(START, first) == s;
    Continues(START, first, es);
  }

  lemma {:induction false} NeverLosesMore(s: State, es: seq<Event>, fs: seq<Event>, id: Id)
    requires Run(s, es) && NeverLoses(s, es, id) && Run(After(s, es), fs) && forall e :: e in fs ==> !e.Lose?
    ensures Run(s, es + fs) && NeverLoses(s, es + fs, id) && After(s, es + fs) == After(After(s, es), fs)
    decreases |es| + |fs|
  {
    hide Enabled, Step;
    Continues(s, es, fs);
    if es != [] {
      NeverLosesMore(Step(s, es[0]), es[1..], fs, id);
      assert (es + fs)[1..] == es[1..] + fs;
    } else {
      assert es + fs == fs;
      if fs != [] {
        NoEvents(Step(s, fs[0]), id);
        NeverLosesMore(Step(s, fs[0]), [], fs[1..], id);
        assert [] + fs[1..] == fs[1..];
      }
    }
  }
}
