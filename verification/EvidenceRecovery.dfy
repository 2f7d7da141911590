/** Recovery converges: whatever attempts crash, repeat or lose responses, all they read back and commit is one
    version. */
module EvidenceRecovery {
  import opened Basics
  import opened Hashing
  import opened EvidencePolicy
  import opened Evidence
  import opened EvidenceInvariants
  import opened EvidenceRuns
  import opened EvidenceEffects
  import opened EvidenceTheorems

  /* ---------- version numbers and restore tags ---------- */

  predicate Below(f: Fact, next: Version) {
    (f.Headed? ==> f.version < next) && (f.Restored? ==> f.version < next)
  }

  ghost predicate FactsBelow(soup: set<Fact>, next: Version) {
    forall f :: f in soup ==> Below(f, next)
  }

  ghost predicate RecordsBelow(rows: map<Id, Row>, ledger: map<Id, Backup>, next: Version) {
    && (forall id :: id in rows && rows[id].versionId.Some? ==> rows[id].versionId.value < next)
    && (forall id :: id in ledger ==> ledger[id].expected.version < next)
  }

  /** A restored object came after the copied version and carries the tag of the ledger's manifest. */
  predicate TagOk(now: Time, born: map<Id, Spec>, ledger: map<Id, Backup>, v: Version, o: Object) {
    o.tag.RestoreOf? && o.id in born && now < born[o.id].expiresAt + GRACE ==>
      && o.id in ledger && ledger[o.id].manifest.Some?
      && o.tag == RestoreTag(ledger[o.id].manifest.value) && ledger[o.id].expected.version < v
  }

  ghost predicate TagsOk(now: Time, born: map<Id, Spec>, ledger: map<Id, Backup>, primary: Bucket) {
    forall v :: v in primary ==> TagOk(now, born, ledger, v, primary[v])
  }

  predicate Here(primary: Bucket, id: Id, v: Version) {
    v in primary && primary[v].id == id
  }

  predicate RestoreHere(primary: Bucket, id: Id, v: Version) {
    Here(primary, id, v) && primary[v].tag.RestoreOf?
  }

  /** A restore is written only under an empty key, so at most one lies there. */
  ghost predicate OneRestore(primary: Bucket) {
    forall id, u, v :: RestoreHere(primary, id, u) && RestoreHere(primary, id, v) ==> u == v
  }

  predicate Reads(f: Fact, id: Id) {
    f.Restored? && f.manifest.source.key == id
  }

  predicate ReadRestore(f: Fact, primary: Bucket) {
    f.Restored? && f.version in primary ==> RestoreHere(primary, f.manifest.source.key, f.version)
  }

  ghost predicate ReadbacksOk(soup: set<Fact>, primary: Bucket) {
    forall f :: f in soup ==> ReadRestore(f, primary)
  }

  /** Some attempt has read this version back. */
  ghost predicate WasRead(soup: set<Fact>, id: Id, v: Version) {
    exists f :: f in soup && Reads(f, id) && f.version == v
  }

  /** What was committed had been read back. */
  ghost predicate CommitsRead(soup: set<Fact>, ledger: map<Id, Backup>) {
    forall id :: id in ledger && ledger[id].restoredVersion.Some? ==>
        WasRead(soup, id, ledger[id].restoredVersion.value)
  }

  ghost predicate Numbered(s: State) {
    && FactsBelow(s.soup, s.next) && RecordsBelow(s.rows, s.ledger, s.next)
       && TagsOk(s.now, s.born, s.ledger, s.primary)
    && OneRestore(s.primary) && ReadbacksOk(s.soup, s.primary) && CommitsRead(s.soup, s.ledger)
  }

  lemma VersionsBelow(s: State)
    requires Inv(s)
    ensures forall v :: v in s.primary ==> v < s.next
  {
  }

  lemma FactsStayBelow(s: State, e: Event)
    requires Inv(s) && FactsBelow(s.soup, s.next) && Enabled(s, e)
    ensures FactsBelow(Step(s, e).soup, Step(s, e).next)
  {
    hide Inv, Enabled, Step, ObjectOk, Decode, PrimaryAfter, Arriving, Latest, Draft, SnapshotOf, Verified;
    VersionsBelow(s);
    StepSoup(s, e);
    StepPrimary(s, e);
    VersionGuards(s, e);
  }

  lemma RecordsStayBelow(s: State, e: Event)
    requires Inv(s) && FactsBelow(s.soup, s.next) && RecordsBelow(s.rows, s.ledger, s.next) && Enabled(s, e)
    ensures RecordsBelow(Step(s, e).rows, Step(s, e).ledger, Step(s, e).next)
  {
    hide Inv, Enabled, Step, PrimaryAfter, Arriving, Learnt;
    StepRows(s, e);
    StepLedger(s, e);
    StepPrimary(s, e);
    VersionGuards(s, e);
    assert e.Finalize? ==> Below(Headed(e.id, e.version), s.next);
    assert e.CommitRestore? ==> Below(Restored(e.manifest, e.version, e.bytes), s.next);
  }

  lemma BornObjects(s: State)
    requires Inv(s)
    ensures forall v :: v in s.primary ==> s.primary[v].id in s.born
  {
    assert forall v :: v in s.primary ==> ObjectOk(s.primary[v], s.born);
  }

  lemma TagsStayOk(s: State, e: Event)
    requires Inv(s) && Numbered(s) && Enabled(s, e)
    ensures TagsOk(Step(s, e).now, Step(s, e).born, Step(s, e).ledger, Step(s, e).primary)
  {
    hide Enabled, Step, Inv, TagOk;
    var t := Step(s, e);
    StepOk(s, e);
    assert LedgerPersists(s, t) && Grows(s, t);
    BornObjects(s);
    forall v | v in t.primary ensures TagOk(t.now, t.born, t.ledger, v, t.primary[v]) {
      if v in s.primary && t.primary[v] == s.primary[v] {
        TagPersists(s, t, v, s.primary[v]);
      } else {
        NewTag(s, e, v);
      }
    }
  }

  lemma TagPersists(s: State, t: State, v: Version, o: Object)
    requires Inv(s) && LedgerPersists(s, t) && Grows(s, t)
    requires TagOk(s.now, s.born, s.ledger, v, o) && o.id in s.born
    ensures TagOk(t.now, t.born, t.ledger, v, o)
  {
    if o.tag.RestoreOf? && t.now < t.born[o.id].expiresAt + GRACE {
      EntryIsOfSpec(s, o.id);
      hide Inv;
    }
  }

  lemma RestoreTagOk(s: State, t: State, m: Manifest, bytes: Bytes)
    requires Inv(s) && RecordsBelow(s.rows, s.ledger, s.next) && LedgerPersists(s, t) && Grows(s, t)
        && RestoreReady(m, bytes) in s.soup
    ensures TagOk(t.now, t.born, t.ledger, s.next, Object(m.source.key, bytes, m.source.mediaType, RestoreTag(m)))
  {
    assert FactOk(RestoreReady(m, bytes), s);
    hide Inv;
  }

  lemma UploadTagOk(now: Time, born: map<Id, Spec>, ledger: map<Id, Backup>, v: Version, o: Object)
    requires !o.tag.RestoreOf?
    ensures TagOk(now, born, ledger, v, o)
  {
  }

  lemma NewTag(s: State, e: Event, v: Version)
    requires Inv(s) && Numbered(s) && Enabled(s, e) && v in Step(s, e).primary
    requires v !in s.primary || Step(s, e).primary[v] != s.primary[v]
    ensures var t := Step(s, e); TagOk(t.now, t.born, t.ledger, v, t.primary[v])
  {
    hide Enabled, Step, Inv, Advances, PrimaryPersists, BackupPersists, RowsPersist, TagOk, TagsOk, FactsBelow, Empty;
    var t := Step(s, e);
    StepPrimary(s, e);
    StepOk(s, e);
    ForThisStep(s, t);
    VersionGuards(s, e);
    assert v == s.next && Arriving(s, e).Some?;
    if e.RestoreLands? {
      RestoreTagOk(s, t, e.manifest, e.bytes);
    } else {
      UploadTagOk(t.now, t.born, t.ledger, v, t.primary[v]);
    }
  }

  lemma OneRestoreWith(primary: Bucket, next: Version, o: Object)
    requires OneRestore(primary) && next !in primary && (o.tag.RestoreOf? ==> Empty(primary, o.id))
    ensures OneRestore(primary[next := o])
  {
    var after := primary[next := o];
    forall id, u | RestoreHere(after, id, u) ensures u == next || RestoreHere(primary, id, u) {
    }
    forall id, u, v | RestoreHere(after, id, u) && RestoreHere(after, id, v) ensures u == v {
      assert u != next && v == next ==> Here(primary, id, u) && !Empty(primary, id);
      assert v != next && u == next ==> Here(primary, id, v) && !Empty(primary, id);
    }
  }

  lemma OneRestoreWithout(primary: Bucket, v: Version)
    requires OneRestore(primary)
    ensures OneRestore(primary - {v})
  {
    assert forall id, u :: RestoreHere(primary - {v}, id, u) ==> RestoreHere(primary, id, u);
  }

  lemma OneRestoreStays(s: State, e: Event)
    requires Inv(s) && OneRestore(s.primary) && Enabled(s, e)
    ensures OneRestore(Step(s, e).primary)
  {
    VersionsBelow(s);
    hide Inv, Enabled, Step, OneRestore, Empty;
    StepPrimary(s, e);
    VersionGuards(s, e);
    if Arriving(s, e).Some? {
      OneRestoreWith(s.primary, s.next, Arriving(s, e).value);
    } else if Removes(e) {
      OneRestoreWithout(s.primary, e.version);
    }
  }

  lemma ReadbacksStayOk(s: State, e: Event)
    requires Inv(s) && FactsBelow(s.soup, s.next) && ReadbacksOk(s.soup, s.primary) && Enabled(s, e)
    ensures ReadbacksOk(Step(s, e).soup, Step(s, e).primary)
  {
    VersionsBelow(s);
    hide Inv, Enabled, Step, Empty, Decode, Latest, ReadRestore, PrimaryAfter, Arriving;
    StepSoup(s, e);
    VersionGuards(s, e);
    forall f | f in Step(s, e).soup ensures ReadRestore(f, Step(s, e).primary) {
      if f in s.soup {
        assert Below(f, s.next) && ReadRestore(f, s.primary);
        OldReadback(s, e, f);
      } else {
        NewReadback(s, e, f);
      }
    }
  }

  lemma OldReadback(s: State, e: Event, f: Fact)
    requires Enabled(s, e) && ReadRestore(f, s.primary) && (f.Restored? ==> f.version < s.next)
    ensures ReadRestore(f, Step(s, e).primary)
  {
    hide Enabled, Step;
    StepPrimary(s, e);
  }

  lemma NewReadback(s: State, e: Event, f: Fact)
    requires Enabled(s, e) && f in Learnt(s, e) && forall v :: v in s.primary ==> v < s.next
    ensures ReadRestore(f, Step(s, e).primary)
  {
    hide Enabled, Step, Decode;
    StepPrimary(s, e);
    VersionGuards(s, e);
  }

  lemma CommitsStayRead(s: State, e: Event)
    requires CommitsRead(s.soup, s.ledger) && Enabled(s, e)
    ensures CommitsRead(Step(s, e).soup, Step(s, e).ledger)
  {
    hide Enabled, Step, WasRead, Learnt;
    StepSoup(s, e);
    StepLedger(s, e);
    VersionGuards(s, e);
    forall id, v | WasRead(s.soup, id, v) ensures WasRead(Step(s, e).soup, id, v) {
      StillRead(s.soup, Step(s, e).soup, id, v);
    }
    if e.CommitRestore? {
      ReadBy(Step(s, e).soup, Restored(e.manifest, e.version, e.bytes));
    }
  }

  lemma StillRead(soup: set<Fact>, more: set<Fact>, id: Id, v: Version)
    requires WasRead(soup, id, v) && soup <= more
    ensures WasRead(more, id, v)
  {
    var f :| f in soup && Reads(f, id) && f.version == v;
    assert f in more;
  }

  lemma ReadBy(soup: set<Fact>, f: Fact)
    requires f in soup && f.Restored?
    ensures WasRead(soup, f.manifest.source.key, f.version)
  {
    assert Reads(f, f.manifest.source.key);
  }

  lemma NumberedStep(s: State, e: Event)
    requires Inv(s) && Numbered(s) && Enabled(s, e)
    ensures Numbered(Step(s, e))
  {
    hide Inv, Enabled, Step, FactsBelow, RecordsBelow, TagsOk, OneRestore, ReadbacksOk, CommitsRead;
    FactsStayBelow(s, e);
    RecordsStayBelow(s, e);
    TagsStayOk(s, e);
    OneRestoreStays(s, e);
    ReadbacksStayOk(s, e);
    CommitsStayRead(s, e);
  }

  lemma {:induction false} NumberedRun(s: State, es: seq<Event>)
    requires Inv(s) && Numbered(s) && Run(s, es)
    ensures Inv(After(s, es)) && Numbered(After(s, es))
    decreases |es|
  {
    hide Inv, Numbered, Enabled, Step, Advances;
    if es != [] {
      StepOk(s, es[0]);
      NumberedStep(s, es[0]);
      NumberedRun(Step(s, es[0]), es[1..]);
    }
  }

  lemma ReachableNumbered(s: State)
    requires Reachable(s)
    ensures Inv(s) && Numbered(s)
  {
    StartOk();
    assert Numbered(START);
    hide Inv, Numbered;
    var es :| Run(START, es) && After(START, es) == s;
    NumberedRun(START, es);
  }

  /* ---------- convergence ---------- */

  predicate Stands(f: Fact, primary: Bucket, id: Id) {
    Reads(f, id) ==> Here(primary, id, f.version)
  }

  /** Every version any attempt has read back still lies under the key: no attempt holds a readback from before a
      loss. */
  ghost predicate ReadbacksStand(s: State, id: Id) {
    forall f :: f in s.soup ==> Stands(f, s.primary, id)
  }

  /** All that any attempt has read back is still there, or the record has expired. */
  ghost predicate Converging(s: State, id: Id) {
    id in s.born && (s.born[id].expiresAt <= s.now || (id in s.ledger && ReadbacksStand(s, id)))
  }

  /** Something outside the program takes the restored version. */
  predicate Loses(s: State, e: Event, id: Id) {
    e.Lose? && RestoreHere(s.primary, id, e.version)
  }

  lemma NotBeingSwept(s: State, id: Id)
    requires Inv(s) && id in s.ledger && id in s.born && s.now < s.born[id].expiresAt
    ensures !Locked(s.sweeps, id)
  {
    assert EntryOk(s.now, s.born, s.rows, s.backup, id, s.ledger[id]);
  }

  /** Before expiry only an outside loss takes a version from under a recorded key. */
  lemma NothingLeaves(s: State, e: Event, id: Id, v: Version)
    requires Inv(s) && Enabled(s, e) && id in s.ledger && id in s.born && s.now < s.born[id].expiresAt
    requires Here(s.primary, id, v) && e != Lose(v)
    ensures Here(Step(s, e).primary, id, v) && Step(s, e).primary[v] == s.primary[v]
  {
    hide Enabled, Step;
    NotBeingSwept(s, id);
    assert s.next !in s.primary;
    hide Inv;
    NothingDeleted(s, e, id, v);
  }

  lemma NothingDeleted(s: State, e: Event, id: Id, v: Version)
    requires Enabled(s, e) && s.next !in s.primary && !Locked(s.sweeps, id)
    requires Here(s.primary, id, v) && e != Lose(v)
    ensures Here(Step(s, e).primary, id, v) && Step(s, e).primary[v] == s.primary[v]
  {
    hide Enabled, Step, Empty;
    StepPrimary(s, e);
    VersionGuards(s, e);
  }

  /** A step learns of a restored version only by reading it, and commits one only after it was learnt. */
  lemma RestoresComeFromReading(s: State, e: Event, id: Id)
    requires Inv(s) && Enabled(s, e) && id in s.ledger && id in s.born && s.now < s.born[id].expiresAt
    ensures forall f :: f in Step(s, e).soup && f !in s.soup && f.Restored? && f.manifest.source.key == id ==>
        Here(s.primary, id, f.version)
    ensures id in Step(s, e).ledger && Step(s, e).ledger[id].restoredVersion != s.ledger[id].restoredVersion ==>
              && e.CommitRestore? && e.manifest.source.key == id
              && Restored(e.manifest, e.version, e.bytes) in s.soup
                 && Step(s, e).ledger[id].restoredVersion == Some(e.version)
  {
    hide Inv, Enabled, Step, Decode, PrimaryAfter, Arriving, RowsAfter;
    StepSoup(s, e);
    StepLedger(s, e);
    VersionGuards(s, e);
  }

  lemma EntryIsOfSpec(s: State, id: Id)
    requires Inv(s) && id in s.ledger
    ensures id in s.born && OfSpec(s.ledger[id].expected, s.born[id])
  {
    assert EntryOk(s.now, s.born, s.rows, s.backup, id, s.ledger[id]);
  }

  lemma LedgerStays(s: State, e: Event, id: Id)
    requires Inv(s) && Enabled(s, e) && id in s.ledger && id in s.born && Step(s, e).now < s.born[id].expiresAt
    ensures id in Step(s, e).ledger
  {
    hide Step, Enabled, Inv;
    StepOk(s, e);
    EntryIsOfSpec(s, id);
    var t := Step(s, e);
    assert LedgerPersists(s, t) && t.born[id] == s.born[id];
  }

  lemma ConvergingStep(s: State, e: Event, id: Id)
    requires Inv(s) && Numbered(s) && Enabled(s, e) && Converging(s, id) && !Loses(s, e, id)
    ensures Converging(Step(s, e), id)
  {
    hide Enabled, Step, Inv, Numbered, ReadbacksStand, Loses;
    var t := Step(s, e);
    TimeAndBirth(s, e, id);
    if t.now < t.born[id].expiresAt {
      LedgerStays(s, e, id);
      ReadbacksStillStand(s, e, id);
    }
  }

  lemma TimeAndBirth(s: State, e: Event, id: Id)
    requires Inv(s) && Enabled(s, e) && id in s.born
    ensures var t := Step(s, e); s.now <= t.now && id in t.born && t.born[id] == s.born[id]
  {
    hide Enabled, Step, Inv;
    StepOk(s, e);
  }

  lemma StandingIsRestore(s: State, id: Id, f: Fact)
    requires Numbered(s) && f in s.soup && Reads(f, id) && Here(s.primary, id, f.version)
    ensures RestoreHere(s.primary, id, f.version)
  {
    assert ReadRestore(f, s.primary);
  }

  lemma ReadbacksStillStand(s: State, e: Event, id: Id)
    requires Inv(s) && Numbered(s) && Enabled(s, e) && !Loses(s, e, id) && ReadbacksStand(s, id)
    requires id in s.ledger && id in s.born && s.now < s.born[id].expiresAt
    ensures ReadbacksStand(Step(s, e), id)
  {
    RestoresComeFromReading(s, e, id);
    hide Inv, Numbered, Enabled, Step;
    forall f | f in Step(s, e).soup ensures Stands(f, Step(s, e).primary, id) {
      assert f in s.soup ==> Stands(f, s.primary, id);
      if Reads(f, id) {
        assert Here(s.primary, id, f.version);
        if f in s.soup {
          StandingIsRestore(s, id, f);
        }
        assert e != Lose(f.version);
        NothingLeaves(s, e, id, f.version);
      }
    }
  }

  ghost predicate NeverLoses(s: State, es: seq<Event>, id: Id)
    requires Run(s, es)
    decreases |es|
  {
    es != [] ==> !Loses(s, es[0], id) && NeverLoses(Step(s, es[0]), es[1..], id)
  }

  lemma {:induction false} ConvergingRun(s: State, es: seq<Event>, id: Id)
    requires Inv(s) && Numbered(s) && Converging(s, id) && Run(s, es) && NeverLoses(s, es, id)
    ensures Inv(After(s, es)) && Numbered(After(s, es)) && Converging(After(s, es), id)
    decreases |es|
  {
    hide Inv, Numbered, Converging, Enabled, Step, Loses, Advances;
    if es != [] {
      StepOk(s, es[0]);
      NumberedStep(s, es[0]);
      ConvergingStep(s, es[0], id);
      ConvergingRun(Step(s, es[0]), es[1..], id);
    }
  }

  /** Every readback of this record names one version with one content; what is committed is that version, it lies under
      the key, and it holds the ledger's bytes. */
  ghost predicate Agreed(t: State, id: Id) {
    && id in t.ledger && id in t.born
    && (forall f, g :: f in t.soup && g in t.soup && Reads(f, id) && Reads(g, id) ==>
       f.version == g.version && f.bytes == g.bytes)
    && (t.ledger[id].restoredVersion.Some? ==>
          var v := t.ledger[id].restoredVersion.value;
          && id in t.rows && t.rows[id].versionId == Some(v) && t.rows[id].spec == t.born[id]
          && Here(t.primary, id, v) && BytesMatch(t.ledger[id].expected, t.primary[v].bytes)
          && (forall f :: f in t.soup && Reads(f, id) ==> f.version == v))
  }

  lemma SameBirth(s: State, t: State, id: Id)
    requires Grows(s, t) && id in s.born
    ensures id in t.born && t.born[id] == s.born[id]
  {
  }

  /** However attempts crash, repeat, race or lose responses, and whatever uploads still land, until expiry every
      readback and every commit agrees, from any state in which no attempt holds a readback from before a loss. */
  lemma RecoveriesAgree(s: State, es: seq<Event>, id: Id)
    requires Reachable(s) && id in s.ledger && ReadbacksStand(s, id) && Run(s, es) && NeverLoses(s, es, id)
    requires id in s.born && After(s, es).now < s.born[id].expiresAt
    ensures Agreed(After(s, es), id) && After(s, es).born[id] == s.born[id]
  {
    hide Run, After, Inv, Numbered, Converging, NeverLoses, Agreed, Reachable, Grows, ReadbacksStand;
    ReachableNumbered(s);
    StandingConverges(s, id);
    ConvergingRun(s, es, id);
    RecordsOverRuns(s, es);
    SameBirth(s, After(s, es), id);
    Agreement(After(s, es), id);
  }

  lemma StandingConverges(s: State, id: Id)
    requires id in s.ledger && id in s.born && ReadbacksStand(s, id)
    ensures Converging(s, id)
  {
  }

  lemma SameReadbacks(t: State, id: Id)
    requires Inv(t) && Numbered(t) && ReadbacksStand(t, id)
    ensures forall f, g :: f in t.soup && g in t.soup && Reads(f, id) && Reads(g, id) ==>
        f.version == g.version && f.bytes == g.bytes
  {
    assert FactsOk(t) && OneRestore(t.primary);
    hide Inv, FactsOk, Numbered;
    forall f, g | f in t.soup && g in t.soup && Reads(f, id) && Reads(g, id)
      ensures f.version == g.version && f.bytes == g.bytes
    {
      assert Stands(f, t.primary, id) && Stands(g, t.primary, id);
      StandingIsRestore(t, id, f);
      StandingIsRestore(t, id, g);
      ReadbackIsOfSpec(t, f);
      ReadbackIsOfSpec(t, g);
    }
  }

  lemma ReadbackIsOfSpec(t: State, f: Fact)
    requires FactsOk(t) && f in t.soup && f.Restored?
    ensures f.manifest.source.key in t.born && Sha256(f.bytes) == t.born[f.manifest.source.key].sha256
  {
    assert FactOk(f, t);
  }

  lemma CommittedIsRestored(t: State, id: Id, v: Version)
    requires Inv(t) && id in t.ledger && id in t.born && Here(t.primary, id, v)
    ensures BytesMatch(t.ledger[id].expected, t.primary[v].bytes)
  {
    EntryIsOfSpec(t, id);
    assert ObjectOk(t.primary[v], t.born);
  }

  /** What is committed was read back, and so still lies under the key. */
  lemma CommittedStands(t: State, id: Id)
    requires Numbered(t) && ReadbacksStand(t, id) && id in t.ledger && t.ledger[id].restoredVersion.Some?
    ensures RestoreHere(t.primary, id, t.ledger[id].restoredVersion.value)
    ensures WasRead(t.soup, id, t.ledger[id].restoredVersion.value)
  {
    var v := t.ledger[id].restoredVersion.value;
    assert WasRead(t.soup, id, v);
    hide Numbered;
    var f :| f in t.soup && Reads(f, id) && f.version == v;
    assert Stands(f, t.primary, id);
    StandingIsRestore(t, id, f);
  }

  lemma EntryFacts(t: State, id: Id)
    requires Inv(t) && id in t.ledger && id in t.born && t.now < t.born[id].expiresAt
    ensures id in t.rows && t.rows[id].spec == t.born[id]
    ensures t.rows[id].versionId == Coalesce(t.ledger[id].restoredVersion, t.ledger[id].expected.version)
  {
    assert EntryOk(t.now, t.born, t.rows, t.backup, id, t.ledger[id]);
  }

  lemma Agreement(t: State, id: Id)
    requires Inv(t) && Numbered(t) && Converging(t, id) && t.now < t.born[id].expiresAt
    ensures Agreed(t, id)
  {
    hide Inv, Numbered;
    SameReadbacks(t, id);
    EntryFacts(t, id);
    if t.ledger[id].restoredVersion.Some? {
      var v := t.ledger[id].restoredVersion.value;
      CommittedStands(t, id);
      CommittedIsRestored(t, id, v);
      var f :| f in t.soup && Reads(f, id) && f.version == v;
    }
  }
}
