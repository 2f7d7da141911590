/** A key too crowded to be emptied: its record is never tombstoned, and at the head of the order it stops every later
    cleanup. */
module EvidenceBacklog {
  import opened Basics
  import opened EvidencePolicy
  import opened Evidence
  import opened EvidenceInvariants
  import opened EvidenceRuns
  import opened EvidenceEffects
  import opened EvidenceTheorems
  import opened EvidenceRecovery
  import opened EvidenceAttempts
  import opened EvidenceWitnesses

  predicate Crowded(primary: Bucket, id: Id) {
    |Under(primary, id)| > 100
  }

  /** A closed record under whose key more versions lie than a cleanup removes at once. */
  predicate Stuck(s: State, id: Id) {
    id in s.rows && s.rows[id].purgedAt.None? && Closed(s.now, s.rows[id]) && Crowded(s.primary, id)
  }

  /* ---------- one crowded key ---------- */

  lemma CrowdedWith(primary: Bucket, next: Version, o: Object, id: Id)
    requires Crowded(primary, id) && next !in primary
    ensures Crowded(primary[next := o], id)
  {
    assert Under(primary, id) <= Under(primary[next := o], id);
    SubsetSize(Under(primary, id), Under(primary[next := o], id));
  }

  lemma CrowdedWithout(primary: Bucket, gone: Version, id: Id)
    requires Crowded(primary, id) && !Here(primary, id, gone)
    ensures Crowded(primary - {gone}, id)
  {
    assert Under(primary - {gone}, id) == Under(primary, id);
  }

  lemma StillCrowded(s: State, e: Event, id: Id)
    requires Inv(s) && Enabled(s, e) && Crowded(s.primary, id) && !Takes(s, e, id)
    ensures Crowded(Step(s, e).primary, id)
  {
    hide Inv, Enabled, Step, Crowded;
    VersionsBelow(s);
    StepPrimary(s, e);
    if Arriving(s, e).Some? {
      CrowdedWith(s.primary, s.next, Arriving(s, e).value, id);
    } else if Removes(e) {
      DeletesOnlyFew(s, e, id);
      CrowdedWithout(s.primary, e.version, id);
    }
  }

  lemma DeletesOnlyFew(s: State, e: Event, id: Id)
    requires Enabled(s, e) && Removes(e) && Crowded(s.primary, id) && !Takes(s, e, id)
    ensures !Here(s.primary, id, e.version)
  {
  }

  /** A key a cleanup has emptied holds at most one late restore. */
  lemma MarkedIsSparse(s: State, t: nat, id: Id)
    requires Inv(s) && OneRestore(s.primary) && t in s.sweeps && id in s.sweeps[t].marked
    ensures !Crowded(s.primary, id)
  {
    assert OnlyRestores(s.primary, id);
    hide Inv;
    if Under(s.primary, id) != {} {
      var v :| v in Under(s.primary, id);
      forall u | u in Under(s.primary, id) ensures u == v {
        assert RestoreHere(s.primary, id, u) && RestoreHere(s.primary, id, v);
      }
      assert Under(s.primary, id) == {v};
    }
  }

  lemma NeverMarked(s: State, id: Id)
    requires Inv(s) && Numbered(s) && Crowded(s.primary, id)
    ensures forall t :: t in s.sweeps ==> id !in s.sweeps[t].marked
  {
    hide Inv, Crowded;
    assert OneRestore(s.primary);
    hide Numbered;
    forall t | t in s.sweeps ensures id !in s.sweeps[t].marked {
      if id in s.sweeps[t].marked {
        MarkedIsSparse(s, t, id);
      }
    }
  }

  /** No cleanup that holds the record can commit, and none prunes it. */
  lemma NoCommitOver(s: State, e: Event, id: Id)
    requires Enabled(s, e) && e.CommitSweep? && id in s.rows && s.rows[id].purgedAt.None?
    requires forall t :: t in s.sweeps ==> id !in s.sweeps[t].marked
    ensures e.t in s.sweeps && id !in s.sweeps[e.t].ids && id !in e.pruned
  {
    BatchGuards(s, e);
  }

  lemma StuckStep(s: State, e: Event, id: Id)
    requires Inv(s) && Numbered(s) && Enabled(s, e) && Stuck(s, id) && !Takes(s, e, id)
    ensures Stuck(Step(s, e), id)
  {
    hide Inv, Numbered, Enabled, Step, Crowded, Takes, PrimaryPersists, BackupPersists, LedgerPersists;
    var t := Step(s, e);
    NeverMarked(s, id);
    StillCrowded(s, e, id);
    StepOk(s, e);
    RowsStayBorn(s);
    RowStaysOpen(s, e, id);
    assert RowsPersist(s, t) && RowAdvances(s, t, id) && s.now <= t.now;
  }

  lemma RowsStayBorn(s: State)
    requires Inv(s)
    ensures forall id :: id in s.rows ==> id in s.born
  {
  }

  lemma RowStaysOpen(s: State, e: Event, id: Id)
    requires Enabled(s, e) && id in s.rows && s.rows[id].purgedAt.None? && id in s.born
    requires forall t :: t in s.sweeps ==> id !in s.sweeps[t].marked
    ensures id in Step(s, e).rows && Step(s, e).rows[id].purgedAt.None?
  {
    hide Enabled, Step;
    StepRows(s, e);
    VersionGuards(s, e);
    if e.CommitSweep? {
      NoCommitOver(s, e, id);
    }
  }

  /** Unless something outside takes versions from under the key, the record is never tombstoned or pruned, and no
      cleanup that picked it ever commits. */
  lemma {:induction false} CrowdedIsNeverCleaned(s: State, es: seq<Event>, id: Id)
    requires Inv(s) && Numbered(s) && Stuck(s, id) && Run(s, es) && NothingTaken(s, es, id)
    ensures Stuck(After(s, es), id)
    ensures forall t, pruned, scope :: t in After(s, es).sweeps && id in After(s, es).sweeps[t].ids ==>
              !Enabled(After(s, es), CommitSweep(t, pruned, scope))
    decreases |es|
  {
    hide Inv, Numbered, Enabled, Step, Stuck, Takes, Advances;
    if es == [] {
      StuckIs(s, id);
      forall t, pruned, scope | t in s.sweeps && id in s.sweeps[t].ids ensures !Enabled(s,
          CommitSweep(t, pruned, scope)) {
        if Enabled(s, CommitSweep(t, pruned, scope)) {
          NeverMarked(s, id);
          NoCommitOver(s, CommitSweep(t, pruned, scope), id);
        }
      }
    } else {
      StepOk(s, es[0]);
      NumberedStep(s, es[0]);
      StuckStep(s, es[0], id);
      CrowdedIsNeverCleaned(Step(s, es[0]), es[1..], id);
    }
  }

  lemma StuckIs(s: State, id: Id)
    requires Stuck(s, id)
    ensures id in s.rows && s.rows[id].purgedAt.None? && Crowded(s.primary, id)
  {
  }

  /* ---------- at the head of the order ---------- */

  /** Rows of the scope that a cleanup has still to tombstone. */
  function Untombed(rows: map<Id, Row>, scope: set<string>): set<Id> {
    set id | id in rows && InScope(rows[id].spec.job, scope) && rows[id].purgedAt.None?
  }

  /** The expired, crowded record comes first of all, and every open cleanup has picked it. */
  predicate Jammed(s: State, scope: set<string>, id: Id) {
    && Stuck(s, id) && InScope(s.rows[id].spec.job, scope) && s.rows[id].spec.expiresAt <= s.now
    && (forall k :: k in Untombed(s.rows, scope) && k != id ==> Sooner(s.rows, id, k))
    && (forall t :: t in s.sweeps ==> id in s.sweeps[t].ids)
  }

  /** Cleanups of this scope run one at a time, and a reservation is inserted within ten minutes of its clock
      reading. */
  predicate Orderly(s: State, e: Event, scope: set<string>) {
    && (e.BeginSweep? ==> e.scope == scope && 1 <= e.limit && s.sweeps == map[])
    && (e.Prepare? ==> s.now < e.started + 600000)
  }

  ghost predicate OneCleaner(s: State, es: seq<Event>, scope: set<string>, id: Id)
    requires Run(s, es)
    decreases |es|
  {
    es != [] ==> Orderly(s, es[0], scope) && !Takes(s, es[0], id) && OneCleaner(Step(s, es[0]), es[1..], scope, id)
  }

  /** No row was tombstoned or pruned. */
  ghost predicate NothingCleaned(s: State, t: State) {
    && (forall k :: k in s.rows ==> k in t.rows && t.rows[k].purgedAt == s.rows[k].purgedAt)
    && (forall k :: k in t.rows && t.rows[k].purgedAt.Some? ==> k in s.rows)
  }

  /** Any batch then picks it, so that batch fails. */
  lemma JamIsPicked(s: State, scope: set<string>, id: Id, limit: nat)
    requires Jammed(s, scope, id) && s.sweeps == map[] && 1 <= limit
    ensures id in FirstOf(s.rows, ClosedRows(s, scope), limit) && Crowded(s.primary, id)
  {
    assert id in ClosedRows(s, scope);
    forall k | k in ClosedRows(s, scope) ensures !Sooner(s.rows, k, id) {
      assert k in Untombed(s.rows, scope);
      assert k != id ==> Sooner(s.rows, id, k);
    }
    assert Ahead(s.rows, ClosedRows(s, scope), id) == {};
  }

  lemma JamStep(s: State, e: Event, scope: set<string>, id: Id)
    requires Inv(s) && Numbered(s) && Enabled(s, e) && Jammed(s, scope, id) && Orderly(s, e, scope) && !Takes(s, e, id)
    ensures Jammed(Step(s, e), scope, id) && NothingCleaned(s, Step(s, e))
  {
    hide Inv, Numbered, Enabled, Step, Stuck, Takes, Sooner;
    StuckIs(s, id);
    StuckStep(s, e, id);
    NeverMarked(s, id);
    if e.CommitSweep? {
      NoCommitOver(s, e, id);
    }
    StillFirst(s, e, scope, id);
    JamHeld(s, e, scope, id);
  }

  /** What happens to the rows when no cleanup commits. */
  lemma RowsKept(s: State, e: Event)
    requires Inv(s) && Enabled(s, e) && !e.CommitSweep?
    ensures NothingCleaned(s, Step(s, e)) && forall k :: k in s.rows ==>
        k in Step(s, e).rows && Step(s, e).rows[k].spec == s.rows[k].spec
    ensures forall k :: k in Step(s, e).rows && k !in s.rows ==>
              e.Prepare? && Step(s, e).rows[k].spec == PreparedSpec(e)
  {
    hide Inv, Enabled, Step;
    RowsStayBorn(s);
    StepRows(s, e);
    VersionGuards(s, e);
  }

  lemma StillFirst(s: State, e: Event, scope: set<string>, id: Id)
    requires Inv(s) && Enabled(s, e) && id in s.rows && InScope(s.rows[id].spec.job, scope)
        && s.rows[id].spec.expiresAt <= s.now
    requires !e.CommitSweep? && Orderly(s, e, scope)
    requires forall k :: k in Untombed(s.rows, scope) && k != id ==> Sooner(s.rows, id, k)
    ensures NothingCleaned(s, Step(s, e)) && id in Step(s, e).rows && Step(s, e).rows[id].spec == s.rows[id].spec
    ensures s.now <= Step(s, e).now
    ensures forall k :: k in Untombed(Step(s, e).rows, scope) && k != id ==> Sooner(Step(s, e).rows, id, k)
  {
    hide Inv, Enabled, Step, PrimaryAfter, PreparedSpec;
    RowsKept(s, e);
    StepPrimary(s, e);
    PreparedLater(s, e);
    forall k | k in Untombed(Step(s, e).rows, scope) && k != id ensures Sooner(Step(s, e).rows, id, k) {
      assert k in s.rows ==> k in Untombed(s.rows, scope);
    }
  }

  lemma PreparedLater(s: State, e: Event)
    requires Enabled(s, e)
    ensures e.Prepare? && s.now < e.started + 600000 ==> s.now < PreparedSpec(e).expiresAt
  {
    hide QuotaAdmits;
  }

  lemma JamHeld(s: State, e: Event, scope: set<string>, id: Id)
    requires Enabled(s, e) && Jammed(s, scope, id) && Orderly(s, e, scope)
    ensures forall t :: t in Step(s, e).sweeps ==> id in Step(s, e).sweeps[t].ids
  {
    hide Enabled, Step, Stuck;
    StepSweeps(s, e);
    if e.BeginSweep? {
      BatchIsFirst(s, e);
      JamIsPicked(s, scope, id, e.limit);
    }
    if e.SweepMark? {
      MarkGuard(s, e);
    }
  }

  lemma BatchIsFirst(s: State, e: Event)
    requires Enabled(s, e) && e.BeginSweep?
    ensures e.ids == FirstOf(s.rows, ClosedRows(s, e.scope), e.limit)
  {
  }

  lemma MarkGuard(s: State, e: Event)
    requires Enabled(s, e) && e.SweepMark?
    ensures e.t in s.sweeps
  {
  }

  /** With such a record first, no cleanup ever tombstones or prunes anything again. */
  lemma {:induction false} JamLastsForGood(s: State, es: seq<Event>, scope: set<string>, id: Id)
    requires Inv(s) && Numbered(s) && Jammed(s, scope, id) && Run(s, es) && OneCleaner(s, es, scope, id)
    ensures Jammed(After(s, es), scope, id) && NothingCleaned(s, After(s, es))
    decreases |es|
  {
    hide Inv, Numbered, Enabled, Step, Jammed, Takes, Advances, Orderly;
    if es != [] {
      StepOk(s, es[0]);
      NumberedStep(s, es[0]);
      JamStep(s, es[0], scope, id);
      JamLastsForGood(Step(s, es[0]), es[1..], scope, id);
    }
  }

  /* ---------- it can happen ---------- */

  /** The record of `SIGNED`, uploaded `n` times through one signed link. */
  function Flooded(n: nat): State {
    SIGNED.(primary := Uploads(n), next := n)
  }

  function Uploads(n: nat): Bucket {
    if n == 0 then map[] else Uploads(n - 1)[n - 1 := UPLOADED]
  }

  lemma {:induction false} FloodReachable(n: nat)
    ensures Reachable(Flooded(n))
  {
    hide Reachable;
    if n == 0 {
      SignedReachable();
      assert Flooded(0) == SIGNED;
    } else {
      FloodReachable(n - 1);
      Reaches(Flooded(n - 1), UploadLands(0, BYTES));
      assert Step(Flooded(n - 1), UploadLands(0, BYTES)) == Flooded(n);
    }
  }

  lemma {:induction false} FloodSize(n: nat)
    ensures |Under(Flooded(n).primary, 0)| == n && forall v :: v in Uploads(n) ==> v < n
  {
    if n == 0 {
      assert Under(Flooded(0).primary, 0) == {};
    } else {
      FloodSize(n - 1);
      assert Under(Flooded(n).primary, 0) == Under(Flooded(n - 1).primary, 0) + {n - 1};
    }
  }

  /** Replaying one upload link a hundred and one times and letting the record expire jams every cleanup of its
      contract. */
  lemma JamIsReachable() returns (s: State)
    ensures Reachable(s) && Jammed(s, SCOPE, 0) && s.sweeps == map[]
  {
    var flood := Flooded(MAX_VERSIONS + 1);
    FloodReachable(MAX_VERSIONS + 1);
    FloodSize(MAX_VERSIONS + 1);
    hide Reachable, Under;
    s := flood.(now := 600000);
    Reaches(flood, Tick(600000));
    assert Step(flood, Tick(600000)) == s;
  }
}
