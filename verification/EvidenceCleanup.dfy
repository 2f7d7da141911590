/** Cleanup of expired and abandoned uploads: one bounded transaction that empties keys in S3 before it marks and prunes
    rows. */
module EvidenceCleanup {
  import opened Basics
  import opened EvidencePolicy
  import opened Evidence
  import opened EvidenceRuns
  import opened EvidenceSystem
  import opened Deletion

  datatype CleanupReport = CleanupReport(dryRun: bool, eligible: nat, deletedVersions: nat, pruned: nat)

  /** The batch's rows are the first `limit`: nothing left over comes before any of them. */
  lemma FirstIs(rows: map<Id, Row>, all: set<Id>, picked: set<Id>, limit: nat)
    requires picked <= all <= rows.Keys && |picked| <= limit && (|picked| == limit || picked == all)
    requires forall a, b :: a in picked && b in all - picked ==> Sooner(rows, a, b)
    ensures picked == FirstOf(rows, all, limit)
  {
    forall id | id in all ensures id in picked <==> |Ahead(rows, all, id)| < limit {
      if id in picked {
        forall k | k in Ahead(rows, all, id) ensures k in picked - {id} {
          assert k in all - picked ==> Sooner(rows, id, k);
        }
        SubsetSize(Ahead(rows, all, id), picked - {id});
      } else {
        assert id in all - picked && picked <= Ahead(rows, all, id);
        SubsetSize(picked, Ahead(rows, all, id));
      }
    }
  }

  /** ORDER BY expires_at, id LIMIT 1. */
  method Soonest(rows: map<Id, Row>, all: set<Id>) returns (first: Id)
    requires all <= rows.Keys && all != {}
    ensures first in all && forall id :: id in all && id != first ==> Sooner(rows, first, id)
  {
    first :| first in all;
    var rest := all - {first};
    while rest != {}
      invariant first in all && rest <= all - {first}
      invariant forall id :: id in all && id !in rest && id != first ==> Sooner(rows, first, id)
      decreases |rest|
    {
      var id :| id in rest;
      if Sooner(rows, id, first) {
        first := id;
      }
      rest := rest - {id};
    }
  }

  /** ORDER BY expires_at, id LIMIT limit. */
  method PickFirst(rows: map<Id, Row>, all: set<Id>, limit: nat) returns (picked: set<Id>)
    requires all <= rows.Keys
    ensures picked == FirstOf(rows, all, limit) && picked <= all && |picked| == Min(limit, |all|)
  {
    picked := {};
    var rest := all;
    while |picked| < limit && rest != {}
      invariant picked <= all && rest == all - picked && |picked| + |rest| == |all| && |picked| <= limit
      invariant forall a, b :: a in picked && b in rest ==> Sooner(rows, a, b)
      decreases |rest|
    {
      var id := Soonest(rows, rest);
      picked, rest := picked + {id}, rest - {id};
    }
    FirstIs(rows, all, picked, limit);
  }

  function PrunableRows(s: State, t: nat, contracts: set<string>): set<Id>
    requires t in s.sweeps
  {
    set id | id in s.rows && Prunable(s, t, id, contracts)
  }

  /** What a batch that tombstones `picked` may prune besides: every tombstone past the grace period, its own
      included. */
  function OldTombstones(s: State, picked: set<Id>, contracts: set<string>): set<Id> {
    set id | id in s.rows && InScope(s.rows[id].spec.job, contracts) && (s.rows[id].purgedAt.Some? || id in picked)
             && s.rows[id].spec.expiresAt + GRACE <= s.now && !Locked(s.sweeps, id)
  }

  lemma PrunableAreOld(s: State, t: State, b: nat, picked: set<Id>, contracts: set<string>)
    requires b in t.sweeps && t.sweeps[b].marked == picked && t.sweeps[b].startedAt == s.now
    requires t.rows == s.rows && t.sweeps - {b} == s.sweeps
    ensures PrunableRows(t, b, contracts) == OldTombstones(s, picked, contracts)
  {
    assert forall u :: u in s.sweeps <==> u in t.sweeps && u != b;
    forall id ensures Locked(s.sweeps, id) <==> exists u :: u in t.sweeps && u != b && id in t.sweeps[u].ids {
      if Locked(s.sweeps, id) {
        var u :| u in s.sweeps && id in s.sweeps[u].ids;
        assert u in t.sweeps && u != b && t.sweeps[u] == s.sweeps[u];
      }
      if u :| u in t.sweeps && u != b && id in t.sweeps[u].ids {
        assert u in s.sweeps && s.sweeps[u] == t.sweeps[u];
      }
    }
  }

  /** Nothing but the primary bucket, the open cleanups and the clock moved. */
  predicate SweepOnly(before: State, after: State) {
    before.now <= after.now && after == before.(now := after.now, primary := after.primary, sweeps := after.sweeps)
  }

  /** The picked rows are tombstoned or pruned, and their keys were empty; only rows with a tombstone were pruned. */
  ghost predicate Tombstones(before: State, after: State, picked: set<Id>, pruned: set<Id>) {
    && after.rows.Keys == before.rows.Keys - pruned
    && (forall id :: id in after.rows ==>
          if id in picked then after.rows[id].purgedAt.Some?
              && after.rows[id] == before.rows[id].(purgedAt := after.rows[id].purgedAt)
          else after.rows[id] == before.rows[id])
    && (forall id :: id in picked ==> Empty(after.primary, id))
    && (forall id :: id in pruned && id in before.rows ==>
          (id in picked || before.rows[id].purgedAt.Some?) && before.rows[id].spec.expiresAt + 604800000 <= after.now)
  }

  /** Expired, or never completed and a minute past its upload window. */
  predicate AllClosed(now: Time, rows: map<Id, Row>, picked: set<Id>) {
    forall id :: id in picked ==>
      && id in rows && rows[id].purgedAt.None?
      && (rows[id].spec.expiresAt <= now || (rows[id].versionId.None? && rows[id].spec.uploadExpiresAt + 60000 < now))
  }

  /** These records are testnet ones of these contracts. */
  predicate AllOurs(rows: map<Id, Row>, ids: set<Id>, contracts: set<string>) {
    forall id :: id in ids ==>
      id in rows && rows[id].spec.job.network == Testnet && rows[id].spec.job.contract in contracts
  }

  /** The rows among these carry the tombstone of one moment. */
  predicate Stamped(rows: map<Id, Row>, ids: set<Id>, at: Time) {
    forall id :: id in ids && id in rows ==> rows[id].purgedAt == Some(at)
  }

  /** If rows changed, these were tombstoned at one moment in between. */
  ghost predicate StampedWithin(before: State, after: State, ids: set<Id>) {
    after.rows == before.rows || exists at :: before.now <= at <= after.now && Stamped(after.rows, ids, at)
  }

  lemma StampedThen(before: State, after: State, ids: set<Id>, at: Time)
    ensures after.rows == before.rows ==> StampedWithin(before, after, ids)
    ensures before.now <= at <= after.now && Stamped(after.rows, ids, at) ==> StampedWithin(before, after, ids)
  {
  }

  /* Which rows a cleanup is for, and in which order, said without the statements that look for them. */

  ghost predicate Unheld(s: State, id: Id) {
    forall t :: t in s.sweeps ==> id !in s.sweeps[t].ids
  }

  ghost function Cleanable(s: State, contracts: set<string>): set<Id> {
    set id | id in s.rows && AllOurs(s.rows, {id}, contracts) && AllClosed(s.now, s.rows, {id}) && Unheld(s, id)
  }

  /** Tombstones, the batch's own included, a week past their expiry. */
  ghost function Forgettable(s: State, picked: set<Id>, contracts: set<string>): set<Id> {
    set id | id in s.rows && AllOurs(s.rows, {id}, contracts) && (s.rows[id].purgedAt.Some? || id in picked)
             && s.rows[id].spec.expiresAt + 604800000 <= s.now && Unheld(s, id)
  }

  predicate Earlier(a: Row, i: Id, b: Row, j: Id) {
    if a.spec.expiresAt == b.spec.expiresAt then i < j else a.spec.expiresAt < b.spec.expiresAt
  }

  /** `taken` are at most `limit` of `all`, and fewer only if nothing is left; whatever is left comes later. */
  ghost predicate TakesFirst(rows: map<Id, Row>, all: set<Id>, taken: set<Id>, limit: nat)
    requires all <= rows.Keys
  {
    && taken <= all && |taken| == Min(limit, |all|)
    && forall k, id :: k in taken && id in all - taken ==> Earlier(rows[k], k, rows[id], id)
  }

  lemma FirstAreEarlier(rows: map<Id, Row>, all: set<Id>, limit: nat)
    requires all <= rows.Keys && |FirstOf(rows, all, limit)| == Min(limit, |all|)
    ensures TakesFirst(rows, all, FirstOf(rows, all, limit), limit)
  {
    var taken := FirstOf(rows, all, limit);
    forall k, id | k in taken && id in all - taken ensures Earlier(rows[k], k, rows[id], id) {
      if !Sooner(rows, k, id) {
        assert Ahead(rows, all, id) + {id} <= Ahead(rows, all, k);
        SubsetSize(Ahead(rows, all, id) + {id}, Ahead(rows, all, k));
      }
    }
  }

  /** The locking SELECT finds exactly the rows a cleanup is for, and the DELETE the tombstones it may forget. */
  lemma SelectedAreOurs(s: State, picked: set<Id>, contracts: set<string>)
    ensures ClosedRows(s, contracts) == Cleanable(s, contracts) <= s.rows.Keys
    ensures OldTombstones(s, picked, contracts) == Forgettable(s, picked, contracts) <= s.rows.Keys
  {
  }

  lemma AllClosedLater(now: Time, later: Time, rows: map<Id, Row>, picked: set<Id>)
    requires AllClosed(now, rows, picked) && now <= later
    ensures AllClosed(later, rows, picked)
  {
  }

  method CleanOne(sys: System, t: nat, id: Id, execute: bool) returns (r: Result<nat>)
    requires sys.Valid() && t in sys.s.sweeps && id in sys.s.sweeps[t].ids
    modifies sys
    ensures sys.Valid() && SweepOnly(old(sys.s), sys.s)
    ensures OnlyEmptied(old(sys.s.primary), sys.s.primary, id)
    ensures sys.s.sweeps == if r.Ok? && execute then MarkedIn(old(sys.s.sweeps), t, id) else old(sys.s.sweeps)
    ensures r.Ok? && execute ==> Empty(sys.s.primary, id) && r.value == |Under(old(sys.s.primary), id)| <= 100
    ensures !execute ==> sys.s.primary == old(sys.s.primary) && r == Ok(0)
    ensures Prompt(old(sys.turns), sys.turns, old(sys.s), sys.s)
    ensures old(sys.turns) == [] ==> (r.Ok? <==> !execute || |Under(old(sys.s.primary), id)| <= 100)
  {
    hide Run, After;
    if !execute {
      return Ok(0);
    }
    r := RemoveExactKey(sys, t, id);
    if r.Ok? {
      sys.MarkSwept(t, id);
    }
  }

  /** No key holds more versions than a cleanup removes at once. */
  ghost predicate NoneCrowded(primary: Bucket, ids: set<Id>) {
    forall id :: id in ids ==> |Under(primary, id)| <= 100
  }

  lemma NobodyYet(primary: Bucket, turns: seq<Turn>, s: State)
    ensures NoneCrowded(primary, {}) && Prompt(turns, turns, s, s)
  {
  }

  lemma StillPrompt(a: seq<Turn>, s: State, b: seq<Turn>, t: State, c: seq<Turn>, u: State)
    requires Prompt(a, b, s, t) && Prompt(b, c, t, u)
    ensures Prompt(a, c, s, u) && (a == [] ==> b == [])
  {
  }

  lemma Crowding(primary: Bucket, done: set<Id>, id: Id, picked: set<Id>)
    requires id in picked
    ensures |Under(primary, id)| > 100 ==> !NoneCrowded(primary, picked)
    ensures NoneCrowded(primary, done) && |Under(primary, id)| <= 100 ==> NoneCrowded(primary, done + {id})
    ensures NoneCrowded(primary, {})
  {
  }

  method CleanAll(sys: System, t: nat, picked: set<Id>, execute: bool) returns (r: Result<nat>)
    requires sys.Valid() && t in sys.s.sweeps && sys.s.sweeps[t].ids == picked && sys.s.sweeps[t].marked == {}
    modifies sys
    ensures sys.Valid() && SweepOnly(old(sys.s), sys.s)
    ensures t in sys.s.sweeps && sys.s.sweeps - {t} == old(sys.s.sweeps) - {t} && sys.s.sweeps[t].ids == picked
    ensures sys.s.sweeps[t].startedAt == old(sys.s.sweeps)[t].startedAt
    ensures OnlyEmptiedAll(old(sys.s.primary), sys.s.primary, picked)
    ensures r.Ok? && execute ==>
              && sys.s.sweeps[t].marked == picked && r.value == |UnderAny(old(sys.s.primary), picked)|
              && forall id :: id in picked ==> Empty(sys.s.primary, id)
    ensures !execute ==> sys.s.primary == old(sys.s.primary) && r == Ok(0)
    ensures Prompt(old(sys.turns), sys.turns, old(sys.s), sys.s)
    ensures r.Ok? && execute ==> NoneCrowded(old(sys.s.primary), picked)
    ensures old(sys.turns) == [] ==> (r.Ok? <==> !execute || NoneCrowded(old(sys.s.primary), picked))
  {
    hide Run, After, Under, UnderAny, Empty, OnlyEmptied, OnlyEmptiedAll, NoneCrowded, Prompt;
    ghost var done: set<Id> := {};
    NobodyYet(sys.s.primary, sys.turns, sys.s);
    var rest := picked;
    var removed := 0;
    Untallied(sys.s.primary);
    while rest != {}
      invariant sys.Valid() && SweepOnly(old(sys.s), sys.s) && done + rest == picked && done !! rest
      invariant Prompt(old(sys.turns), sys.turns, old(sys.s), sys.s)
      invariant execute ==> NoneCrowded(old(sys.s.primary), done)
      invariant t in sys.s.sweeps && sys.s.sweeps - {t} == old(sys.s.sweeps) - {t} && sys.s.sweeps[t].ids == picked
      invariant sys.s.sweeps[t].startedAt == old(sys.s.sweeps)[t].startedAt
      invariant OnlyEmptiedAll(old(sys.s.primary), sys.s.primary, done)
      invariant execute ==> sys.s.sweeps[t].marked == done && removed == |UnderAny(old(sys.s.primary), done)|
      invariant execute ==> forall id :: id in done ==> Empty(sys.s.primary, id)
      invariant !execute ==> sys.s.primary == old(sys.s.primary) && removed == 0
      decreases |rest|
    {
      var id :| id in rest;
      ghost var before := sys.s.primary;
      ghost var turns, now := sys.turns, sys.s;
      var one := CleanOne(sys, t, id, execute);
      Crowding(old(sys.s.primary), done, id, picked);
      StillPrompt(old(sys.turns), old(sys.s), turns, now, sys.turns, sys.s);
      Tallied(old(sys.s.primary), before, sys.s.primary, done, id);
      if one.Thrown? {
        Wider(old(sys.s.primary), sys.s.primary, done + {id}, picked);
        return Thrown;
      }
      removed := removed + one.value;
      done, rest := done + {id}, rest - {id};
    }
    assert done == picked;
    r := Ok(removed);
  }

  lemma ClosedAre(s: State, picked: set<Id>, contracts: set<string>)
    requires picked <= ClosedRows(s, contracts)
    ensures AllClosed(s.now, s.rows, picked) && AllOurs(s.rows, picked, contracts)
    ensures ClosedRows(s, contracts) <= s.rows.Keys
  {
  }

  lemma SweepOpened(s: State, t: State, b: nat, picked: set<Id>)
    requires OnlyWaited(s, t) && b !in s.sweeps
    ensures SweepOnly(s, t) && t.primary == s.primary && t.sweeps == s.sweeps && t.rows == s.rows
    ensures t == s.(now := t.now)
    ensures var u := t.(sweeps := t.sweeps[b := Batch(t.now, picked, {})]);
      SweepOnly(s, u) && u.sweeps - {b} == s.sweeps
  {
    assert t.sweeps[b := Batch(t.now, picked, {})] - {b} == t.sweeps;
  }

  /** BEGIN and the locking SELECT. */
  method BeginCleanup(sys: System, contracts: set<string>, t: nat, limit: nat) returns (answered: bool, picked: set<Id>)
    requires sys.Valid() && t !in sys.s.sweeps && limit <= 10
    modifies sys
    ensures sys.Valid() && SweepOnly(old(sys.s), sys.s) && sys.s.primary == old(sys.s.primary)
    ensures picked <= sys.s.rows.Keys && |picked| <= limit
    ensures AllClosed(sys.s.now, sys.s.rows, picked) && AllOurs(sys.s.rows, picked, contracts)
    ensures answered ==> t in sys.s.sweeps && sys.s.sweeps[t].ids == picked && sys.s.sweeps[t].marked == {}
    ensures answered ==> sys.s.sweeps - {t} == old(sys.s.sweeps) && sys.s.sweeps[t].startedAt == sys.s.now
    ensures !answered ==> sys.s.sweeps == old(sys.s.sweeps)
    ensures Prompt(old(sys.turns), sys.turns, old(sys.s), sys.s)
    ensures answered ==>
              var closed := ClosedRows(old(sys.s).(now := sys.s.now), contracts);
              picked == FirstOf(sys.s.rows, closed, limit) && |picked| == Min(limit, |closed|)
    ensures old(sys.turns) == [] ==> answered
  {
    hide Run, After, ClosedRows, FirstOf, AllClosed, AllOurs, OnlyWaited, SweepOnly;
    picked := {};
    ghost var s0 := sys.s;
    var arrives;
    arrives, answered := sys.Await();
    ghost var s1 := sys.s;
    ClosedAre(s1, {}, contracts);
    SweepOpened(s0, s1, t, {});
    if answered {
      picked := PickFirst(sys.s.rows, ClosedRows(sys.s, contracts), limit);
      ClosedAre(s1, picked, contracts);
      SweepOpened(s0, s1, t, picked);
      sys.OpenSweep(t, picked, contracts, limit);
    }
  }

  lemma SweptTombstones(s: State, t: nat, picked: set<Id>, pruned: set<Id>, contracts: set<string>)
    requires t in s.sweeps && s.sweeps[t].marked == s.sweeps[t].ids == picked && s.sweeps[t].startedAt <= s.now
    requires forall id :: id in picked ==> Empty(s.primary, id)
    requires pruned <= PrunableRows(s, t, contracts)
    ensures forall id :: id in pruned ==> Prunable(s, t, id, contracts)
    ensures forall before: State :: before.rows == s.rows ==>
        Tombstones(before, SweptState(s, t, pruned), picked, pruned)
    ensures AllOurs(s.rows, pruned, contracts)
    ensures Stamped(SweptState(s, t, pruned).rows, picked, s.sweeps[t].startedAt)
  {
    hide Empty;
  }

  /** The DELETE of old tombstones, and COMMIT; or ROLLBACK when it never arrives. */
  method FinishCleanup(sys: System, contracts: set<string>, t: nat, picked: set<Id>, limit: nat)
      returns (answered: bool, pruned: set<Id>)
    requires sys.Valid() && t in sys.s.sweeps && sys.s.sweeps[t].marked == sys.s.sweeps[t].ids == picked
    requires sys.s.sweeps[t].startedAt <= sys.s.now && forall id :: id in picked ==> Empty(sys.s.primary, id)
    modifies sys
    ensures sys.Valid() && sys.s.primary == old(sys.s.primary) && sys.s.backup == old(sys.s.backup)
        && sys.s.ledger == old(sys.s.ledger)
    ensures old(sys.s.now) <= sys.s.now && sys.s.sweeps == old(sys.s.sweeps) - {t} && |pruned| <= limit
    ensures sys.s.rows == old(sys.s.rows) || Tombstones(old(sys.s), sys.s, picked, pruned)
    ensures answered ==> Tombstones(old(sys.s), sys.s, picked, pruned)
    ensures AllOurs(old(sys.s.rows), pruned, contracts)
    ensures sys.s.rows == old(sys.s.rows) || Stamped(sys.s.rows, picked, old(sys.s.sweeps)[t].startedAt)
    ensures Prompt(old(sys.turns), sys.turns, old(sys.s), sys.s)
    ensures old(sys.turns) == [] ==>
        && answered && pruned == FirstOf(old(sys.s.rows), PrunableRows(old(sys.s), t, contracts), limit)
        && |pruned| == Min(limit, |PrunableRows(old(sys.s), t, contracts)|)
  {
    hide Run, After, Closed, Locked;
    var arrives;
    arrives, answered := sys.Await();
    pruned := PickFirst(sys.s.rows, PrunableRows(sys.s, t, contracts), limit);
    SweptTombstones(sys.s, t, picked, pruned, contracts);
    hide Tombstones, Prunable;
    if arrives {
      sys.FinishSweep(t, pruned, contracts);
    } else {
      sys.DropSweep(t);
    }
  }

  /** What a cleanup may leave behind. Whether or not its answer came: all its rows tombstoned over empty keys, or
      none. */
  ghost predicate CleanupOutcome(before: State, after: State, picked: set<Id>, pruned: set<Id>, limit: nat,
      execute: bool, r: Result<CleanupReport>) {
    && before.now <= after.now && after.ledger == before.ledger && after.backup == before.backup
       && after.sweeps == before.sweeps
    && OnlyEmptiedAll(before.primary, after.primary, picked)
    && AllClosed(after.now, before.rows, picked)
    && (after.rows == before.rows || Tombstones(before, after, picked, pruned))
    && (!execute ==> after.rows == before.rows && after.primary == before.primary)
    && (r.Ok? ==>
          && 1 <= limit <= 10 && |picked| <= limit && |pruned| <= limit && r.value.dryRun == !execute
             && r.value.eligible == |picked|
          && r.value.deletedVersions == (if execute then |UnderAny(before.primary, picked)| else 0)
          && r.value.pruned == (if execute then |pruned| else 0)
          && (execute ==> Tombstones(before, after, picked, pruned)))
  }

  /** createEvidenceRetentionCleanup: every row of a batch is emptied and tombstoned, or no row changes at all. */
  method CleanUp(sys: System, contracts: set<string>, t: nat, limit: nat, execute: bool)
    returns (r: Result<CleanupReport>, picked: set<Id>, pruned: set<Id>)
    requires sys.Valid() && t !in sys.s.sweeps
    modifies sys
    ensures sys.Valid() && CleanupOutcome(old(sys.s), sys.s, picked, pruned, limit, execute, r)
    ensures AllOurs(old(sys.s.rows), picked, contracts) && AllOurs(old(sys.s.rows), pruned, contracts)
    ensures StampedWithin(old(sys.s), sys.s, picked)
    ensures execute && !NoneCrowded(old(sys.s.primary), picked) ==> r.Thrown? && sys.s.rows == old(sys.s.rows)
    ensures old(sys.turns) == [] && 1 <= limit <= 10 ==>
              && picked == FirstOf(old(sys.s.rows), ClosedRows(old(sys.s), contracts), limit)
              && TakesFirst(old(sys.s.rows), Cleanable(old(sys.s), contracts), picked, limit)
    ensures old(sys.turns) == [] ==>
        (r.Ok? <==> 1 <= limit <= 10 && (!execute || NoneCrowded(old(sys.s.primary), picked)))
    ensures old(sys.turns) == [] && r.Ok? && execute ==>
              && pruned == FirstOf(old(sys.s.rows), OldTombstones(old(sys.s), picked, contracts), limit)
              && TakesFirst(old(sys.s.rows), Forgettable(old(sys.s), picked, contracts), pruned, limit)
  {
    hide Run, After, UnderAny, Empty, OnlyEmptiedAll, Locked, AllClosed, Tombstones, CleanupOutcome, SweepOnly,
        NoneCrowded, ClosedRows, OldTombstones, PrunableRows, FirstOf, Cleanable, Forgettable, TakesFirst, Stamped,
        StampedWithin, AllOurs;
    picked, pruned := {}, {};
    ghost var s0 := sys.s;
    NobodyOurs(s0.rows, contracts);
    StampedThen(s0, s0, {}, 0);
    if limit < 1 || limit > 10 {
      NothingCleaned(s0, sys.s, limit, execute);
      return Thrown, picked, pruned;
    }
    var answered;
    answered, picked := BeginCleanup(sys, contracts, t, limit);
    ghost var s1 := sys.s;
    RowsStay(s0, s1);
    StampedThen(s0, s1, {}, 0);
    if !answered {
      NothingCleaned(s0, s1, limit, execute);
      return Thrown, {}, {};
    }
    if old(sys.turns) == [] {
      SelectedAreOurs(s0, picked, contracts);
      FirstAreEarlier(s0.rows, ClosedRows(s0, contracts), limit);
    }
    var removed := CleanAll(sys, t, picked, execute);
    ghost var s2 := sys.s;
    RowsStay(s1, s2);
    if removed.Thrown? || !execute {
      sys.DropSweep(t);
      r := if removed.Thrown? then Thrown else Ok(CleanupReport(true, |picked|, 0, 0));
      CleanupRolledBack(s0, s1, s2, t, picked, limit, execute, r);
      StampedThen(s0, sys.s, picked, 0);
      return;
    }
    LaterStarted(s1, s2, t);
    if old(sys.turns) == [] {
      StartedThen(s0, s1, s2, t);
      PrunableAreOld(s0, s2, t, picked, contracts);
    }
    answered, pruned := FinishCleanup(sys, contracts, t, picked, limit);
    if old(sys.turns) == [] {
      FirstAreEarlier(s0.rows, OldTombstones(s0, picked, contracts), limit);
    }
    r := if answered then Ok(CleanupReport(false, |picked|, removed.value, |pruned|)) else Thrown;
    CleanupCommitted(s0, s1, s2, sys.s, t, picked, pruned, limit, r);
    StampedThen(s0, sys.s, picked, s1.now);
  }

  lemma NobodyOurs(rows: map<Id, Row>, contracts: set<string>)
    ensures AllOurs(rows, {}, contracts)
  {
  }

  lemma RowsStay(s: State, t: State)
    requires SweepOnly(s, t)
    ensures t.rows == s.rows && s.now <= t.now && (t.now == s.now ==> s.(now := t.now) == s)
  {
  }

  lemma StartedThen(s: State, t: State, u: State, b: nat)
    requires SweepOnly(s, t) && SweepOnly(t, u) && t.now == s.now && b in t.sweeps && t.sweeps[b].startedAt == t.now
    requires b in u.sweeps && u.sweeps[b].startedAt == t.sweeps[b].startedAt && t.sweeps - {b} == s.sweeps
        && u.sweeps - {b} == t.sweeps - {b}
    ensures u.rows == s.rows && u.sweeps - {b} == s.sweeps && u.sweeps[b].startedAt == s.now
  {
  }

  lemma LaterStarted(s: State, t: State, b: nat)
    requires SweepOnly(s, t) && b in s.sweeps && b in t.sweeps
        && t.sweeps[b].startedAt == s.sweeps[b].startedAt <= s.now
    ensures t.sweeps[b].startedAt <= t.now
  {
  }

  lemma NothingCleaned(s: State, t: State, limit: nat, execute: bool)
    requires SweepOnly(s, t) && t.primary == s.primary && t.sweeps == s.sweeps
    ensures CleanupOutcome(s, t, {}, {}, limit, execute, Thrown)
  {
  }

  lemma CleanupRolledBack(s: State, t: State, u: State, b: nat, picked: set<Id>, limit: nat, execute: bool,
      r: Result<CleanupReport>)
    requires SweepOnly(s, t) && t.primary == s.primary && t.sweeps - {b} == s.sweeps && SweepOnly(t, u)
    requires u.sweeps - {b} == t.sweeps - {b} && OnlyEmptiedAll(t.primary, u.primary, picked)
        && AllClosed(t.now, t.rows, picked)
    requires !execute ==> u.primary == t.primary
    requires r.Ok? ==>
        !execute && 1 <= limit <= 10 && |picked| <= limit && r.value == CleanupReport(true, |picked|, 0, 0)
    ensures CleanupOutcome(s, u.(sweeps := u.sweeps - {b}), picked, {}, limit, execute, r)
  {
    AllClosedLater(t.now, u.now, t.rows, picked);
    hide OnlyEmptiedAll, AllClosed;
  }

  lemma CleanupCommitted(s: State, t: State, u: State, w: State, b: nat, picked: set<Id>, pruned: set<Id>, limit: nat,
      r: Result<CleanupReport>)
    requires SweepOnly(s, t) && t.primary == s.primary && t.sweeps - {b} == s.sweeps && SweepOnly(t, u)
    requires u.sweeps - {b} == t.sweeps - {b} && OnlyEmptiedAll(t.primary, u.primary, picked)
        && AllClosed(t.now, t.rows, picked)
    requires w.primary == u.primary && w.ledger == u.ledger && w.backup == u.backup && u.now <= w.now
        && w.sweeps == u.sweeps - {b}
    requires |pruned| <= limit && (w.rows == u.rows || Tombstones(u, w, picked, pruned))
    requires r.Ok? ==>
               && Tombstones(u, w, picked, pruned) && 1 <= limit <= 10 && |picked| <= limit
               && r.value == CleanupReport(false, |picked|, |UnderAny(t.primary, picked)|, |pruned|)
    ensures CleanupOutcome(s, w, picked, pruned, limit, true, r)
  {
    AllClosedLater(t.now, w.now, t.rows, picked);
    SinceBegun(s, u, w, picked, pruned);
    hide OnlyEmptiedAll, UnderAny, AllClosed, Tombstones;
  }

  lemma SinceBegun(s: State, t: State, u: State, picked: set<Id>, pruned: set<Id>)
    requires t.rows == s.rows
    ensures Tombstones(t, u, picked, pruned) ==> Tombstones(s, u, picked, pruned)
  {
  }

  /** Over a committed cleanup, versions, rows that count against the quotas and rows shrink by exactly the reported
      counts. */
  lemma CommittedCleanupShrinks(before: State, after: State, picked: set<Id>, pruned: set<Id>)
    requires Tombstones(before, after, picked, pruned) && AllClosed(after.now, before.rows, picked)
        && pruned <= before.rows.Keys
    requires OnlyEmptiedAll(before.primary, after.primary, picked)
    ensures |after.primary| == |before.primary| - |UnderAny(before.primary, picked)|
    ensures |Usage(after.rows)| == |Usage(before.rows)| - |picked|
    ensures |after.rows| == |before.rows| - |pruned|
  {
    assert |before.rows.Keys - pruned| == |before.rows.Keys| - |pruned|;
    UsageGone(before, after, picked, pruned);
    KeysGone(Usage(before.rows), Usage(after.rows), picked);
    hide Tombstones, AllClosed;
    EmptiedOf(before, after, picked, pruned);
    KeysGone(before.primary, after.primary, UnderAny(before.primary, picked));
  }

  lemma UsageGone(before: State, after: State, picked: set<Id>, pruned: set<Id>)
    requires Tombstones(before, after, picked, pruned) && AllClosed(after.now, before.rows, picked)
        && pruned <= before.rows.Keys
    ensures forall id :: id in Usage(after.rows) <==> id in Usage(before.rows) && id !in picked
    ensures picked <= Usage(before.rows).Keys
  {
    hide Empty;
  }

  lemma EmptiedOf(before: State, after: State, picked: set<Id>, pruned: set<Id>)
    requires Tombstones(before, after, picked, pruned) && OnlyEmptiedAll(before.primary, after.primary, picked)
    ensures forall v :: v in after.primary <==> v in before.primary && v !in UnderAny(before.primary, picked)
  {
  }
}
