/** Retention of backups: one bounded transaction that empties keys in S3 before it forgets their ledger rows. */
module BackupRetention {
  import opened Basics
  import opened EvidencePolicy
  import opened Evidence
  import opened EvidenceInvariants
  import opened EvidenceSystem
  import opened Deletion

  datatype Report = Report(dryRun: bool, eligible: nat, removedVersions: nat, removedIntents: nat)

  function DueRows(s: State, contracts: set<string>): set<Id> {
    set id | id in s.ledger && s.ledger[id].contract in contracts && Due(s.now, s.ledger[id].expected)
        && !Locked(s.purges, id)
  }

  /** The ledger rows a batch is for: of these contracts, a week past the record's expiry, in no other batch's hands. */
  ghost function Retainable(s: State, contracts: set<string>): set<Id> {
    set id | id in s.ledger && s.ledger[id].contract in contracts
             && s.ledger[id].expected.expiresAt + 604800000 <= s.now
             && forall t :: t in s.purges ==> id !in s.purges[t].ids
  }

  /** The locking SELECT finds exactly those. */
  lemma SelectedAreRetainable(s: State, contracts: set<string>)
    ensures DueRows(s, contracts) == Retainable(s, contracts)
  {
  }

  /** Nothing but the backup bucket, the open retention transactions and the clock moved. */
  predicate RetentionOnly(before: State, after: State) {
    before.now <= after.now && after == before.(now := after.now, backup := after.backup, purges := after.purges)
  }

  lemma KeyOfEntry(s: State, id: Id)
    requires Inv(s) && id in s.ledger
    ensures s.ledger[id].expected.key == id
  {
    assert EntryOk(s.now, s.born, s.rows, s.backup, id, s.ledger[id]);
  }

  /** A due row never gets stuck: its descriptor is valid, its manifest agrees, and every version under its key may
      go. */
  lemma NothingStuck(s: State, t: nat, id: Id)
    requires Inv(s) && t in s.purges && id in s.purges[t].ids && id in s.ledger
    ensures var m := Descriptor(s.ledger[id].expected);
      && ValidManifest(m) && PhaseOf(m, s.now) == Some(PurgeDue)
      && m.source == s.ledger[id].expected && m.source.key == id
      && (forall v :: v in s.backup && s.backup[v].id == id ==> DueCopy(s.backup[v], m.source, s.now))
      && (s.ledger[id].manifest.Some? ==>
            var saved := s.ledger[id].manifest.value;
            ValidManifest(saved) && saved.source == m.source && saved.deleteAt == m.deleteAt)
      && |Under(s.backup, id)| <= 1 && AllPurgeable(s.backup, Under(s.backup, id), m, s.now)
  {
    assert EntryOk(s.now, s.born, s.rows, s.backup, id, s.ledger[id]) && Due(s.now, s.ledger[id].expected);
    assert SpecOk(s.born[id]);
    forall v | v in Under(s.backup, id) ensures Purgeable(s.backup[v], v, Descriptor(s.ledger[id].expected), s.now) {
      assert CopyOk(v, s.backup[v], s.ledger) && s.backup[v].tag.draft.capturedAt <= s.now;
    }
    OneUnder(s, id);
  }

  lemma OneUnder(s: State, id: Id)
    requires Inv(s)
    ensures |Under(s.backup, id)| <= 1
  {
    assert BackupsOk(s.now, s.backup, s.ledger, s.next);
    hide Inv, CopyOk;
    if Under(s.backup, id) != {} {
      var v :| v in Under(s.backup, id);
      assert Under(s.backup, id) == {v};
    }
  }

  /** One row of the batch: its stored manifest is compared with the descriptor, its key emptied, the row marked for
      deletion. */
  method RetainOne(sys: System, t: nat, id: Id, execute: bool) returns (r: Result<nat>)
    requires sys.Valid() && t in sys.s.purges && id in sys.s.purges[t].ids && id in sys.s.ledger
    modifies sys
    ensures sys.Valid() && RetentionOnly(old(sys.s), sys.s)
    ensures OnlyEmptied(old(sys.s.backup), sys.s.backup, id)
    ensures sys.s.purges == if r.Ok? && execute then MarkedIn(old(sys.s.purges), t, id) else old(sys.s.purges)
    ensures r.Ok? && execute ==> Empty(sys.s.backup, id) && r.value == |Under(old(sys.s.backup), id)|
    ensures !execute ==> sys.s.backup == old(sys.s.backup) && (r.Ok? ==> r.value == 0)
    ensures Prompt(old(sys.turns), sys.turns, old(sys.s), sys.s) && (old(sys.turns) == [] ==> r.Ok?)
  {
    hide Run, After, AllPurgeable;
    var saved := sys.s.ledger[id];
    sys.Reached();
    KeyOfEntry(sys.s, id);
    NothingStuck(sys.s, t, id);
    hide Inv;
    var m := Descriptor(saved.expected);
    if !ValidManifest(m) {
      return Thrown;
    }
    if saved.manifest.Some? && (!ValidManifest(saved.manifest.value) || saved.manifest.value.source != m.source
                                || saved.manifest.value.deleteAt != m.deleteAt) {
      return Thrown;
    }
    if !execute {
      return Ok(0);
    }
    r := PurgeKey(sys, t, m);
    if r.Ok? {
      sys.MarkPurged(t, id);
    }
  }

  /** The rows are forgotten, and their keys were empty. */
  ghost predicate Forgets(before: State, after: State, picked: set<Id>) {
    && after.ledger == before.ledger - picked
    && (forall id :: id in picked ==> Empty(after.backup, id))
    && after.purges == before.purges
  }

  /** The loop of a batch; on success every picked key is empty and marked. */
  method RetainAll(sys: System, t: nat, picked: set<Id>, execute: bool) returns (r: Result<nat>)
    requires sys.Valid() && t in sys.s.purges && sys.s.purges[t].ids == picked && sys.s.purges[t].marked == {}
        && picked <= sys.s.ledger.Keys
    modifies sys
    ensures sys.Valid() && RetentionOnly(old(sys.s), sys.s)
    ensures t in sys.s.purges && sys.s.purges - {t} == old(sys.s.purges) - {t} && sys.s.purges[t].ids == picked
    ensures OnlyEmptiedAll(old(sys.s.backup), sys.s.backup, picked)
    ensures r.Ok? && execute ==>
              && sys.s.purges[t].marked == picked && r.value == |UnderAny(old(sys.s.backup), picked)|
              && forall id :: id in picked ==> Empty(sys.s.backup, id)
    ensures !execute ==> sys.s.backup == old(sys.s.backup) && (r.Ok? ==> r.value == 0)
    ensures Prompt(old(sys.turns), sys.turns, old(sys.s), sys.s) && (old(sys.turns) == [] ==> r.Ok?)
  {
    hide Run, After, Under, UnderAny, Empty, OnlyEmptied, OnlyEmptiedAll;
    ghost var done: set<Id> := {};
    var rest := picked;
    var removed := 0;
    Untallied(sys.s.backup);
    while rest != {}
      invariant sys.Valid() && RetentionOnly(old(sys.s), sys.s) && done + rest == picked && done !! rest
      invariant Prompt(old(sys.turns), sys.turns, old(sys.s), sys.s)
      invariant t in sys.s.purges && sys.s.purges - {t} == old(sys.s.purges) - {t} && sys.s.purges[t].ids == picked
      invariant OnlyEmptiedAll(old(sys.s.backup), sys.s.backup, done)
      invariant execute ==> sys.s.purges[t].marked == done && removed == |UnderAny(old(sys.s.backup), done)|
      invariant execute ==> forall id :: id in done ==> Empty(sys.s.backup, id)
      invariant !execute ==> sys.s.backup == old(sys.s.backup) && removed == 0
      decreases |rest|
    {
      var id :| id in rest;
      ghost var before := sys.s.backup;
      var one := RetainOne(sys, t, id, execute);
      Tallied(old(sys.s.backup), before, sys.s.backup, done, id);
      if one.Thrown? {
        Wider(old(sys.s.backup), sys.s.backup, done + {id}, picked);
        return Thrown;
      }
      removed := removed + one.value;
      done, rest := done + {id}, rest - {id};
    }
    assert done == picked;
    r := Ok(removed);
  }

  /** BEGIN and the locking SELECT. */
  method Begin(sys: System, contracts: set<string>, t: nat, limit: nat) returns (answered: bool, picked: set<Id>)
    requires sys.Valid() && t !in sys.s.purges && limit <= 10
    modifies sys
    ensures sys.Valid() && RetentionOnly(old(sys.s), sys.s) && sys.s.backup == old(sys.s.backup)
    ensures picked <= sys.s.ledger.Keys && |picked| <= limit
    ensures AllDue(sys.s.now, sys.s.ledger, picked) && OfContracts(sys.s.ledger, picked, contracts)
    ensures answered ==> t in sys.s.purges && sys.s.purges[t].ids == picked && sys.s.purges[t].marked == {}
    ensures answered ==> sys.s.purges - {t} == old(sys.s.purges)
    ensures !answered ==> sys.s.purges == old(sys.s.purges)
    ensures Prompt(old(sys.turns), sys.turns, old(sys.s), sys.s)
    ensures old(sys.turns) == [] ==>
        answered && picked <= DueRows(old(sys.s), contracts) && |picked| == Min(limit, |DueRows(old(sys.s), contracts)|)
  {
    hide Run, After;
    picked := {};
    var arrives;
    arrives, answered := sys.Await();
    if answered {
      picked := Pick(DueRows(sys.s, contracts), limit);
      sys.OpenPurge(t, picked, contracts);
    }
  }

  /** COMMIT, or ROLLBACK when it never arrives. */
  method Finish(sys: System, t: nat, picked: set<Id>) returns (answered: bool)
    requires sys.Valid() && t in sys.s.purges && sys.s.purges[t].marked == sys.s.purges[t].ids == picked
    modifies sys
    ensures sys.Valid() && sys.s.backup == old(sys.s.backup) && sys.s.rows == old(sys.s.rows)
        && sys.s.primary == old(sys.s.primary)
    ensures old(sys.s.now) <= sys.s.now && sys.s.purges == old(sys.s.purges) - {t}
    ensures sys.s.ledger == old(sys.s.ledger) || sys.s.ledger == old(sys.s.ledger) - picked
    ensures answered ==> sys.s.ledger == old(sys.s.ledger) - picked
    ensures Prompt(old(sys.turns), sys.turns, old(sys.s), sys.s) && (old(sys.turns) == [] ==> answered)
  {
    hide Run, After;
    var arrives;
    arrives, answered := sys.Await();
    if arrives {
      sys.FinishPurge(t);
    } else {
      sys.DropPurge(t);
    }
  }

  ghost predicate AllDue(now: Time, ledger: map<Id, Backup>, picked: set<Id>) {
    forall id :: id in picked ==> id in ledger && ledger[id].expected.expiresAt + 604800000 <= now
  }

  predicate OfContracts(ledger: map<Id, Backup>, ids: set<Id>, contracts: set<string>) {
    forall id :: id in ids ==> id in ledger && ledger[id].contract in contracts
  }

  /** What a batch may leave behind. Whether or not its answer came: all its rows forgotten over empty keys, or none. */
  ghost predicate Outcome(before: State, after: State, picked: set<Id>, limit: nat, execute: bool, r: Result<Report>) {
    && before.now <= after.now && after.rows == before.rows && after.primary == before.primary
       && after.purges == before.purges
    && OnlyEmptiedAll(before.backup, after.backup, picked)
    && AllDue(after.now, before.ledger, picked)
    && (after.ledger == before.ledger || Forgets(before, after, picked))
    && (!execute ==> after.ledger == before.ledger && after.backup == before.backup)
    && (r.Ok? ==>
          && 1 <= limit <= 10 && |picked| <= limit && r.value.dryRun == !execute && r.value.eligible == |picked|
          && r.value.removedVersions == (if execute then |UnderAny(before.backup, picked)| else 0)
          && r.value.removedIntents == (if execute then |picked| else 0)
          && (execute ==> Forgets(before, after, picked)))
  }

  /** createBackupRetention: every row of a batch is emptied and forgotten, or no row is forgotten at all. */
  method RetainBackups(sys: System, contracts: set<string>, t: nat, limit: nat, execute: bool)
      returns (r: Result<Report>, picked: set<Id>)
    requires sys.Valid() && t !in sys.s.purges
    modifies sys
    ensures sys.Valid() && Outcome(old(sys.s), sys.s, picked, limit, execute, r)
    ensures old(sys.turns) == [] ==> (r.Ok? <==> 1 <= limit <= 10)
    ensures OfContracts(old(sys.s.ledger), picked, contracts)
    ensures old(sys.turns) == [] && r.Ok? ==>
        picked <= Retainable(old(sys.s), contracts) && |picked| == Min(limit, |Retainable(old(sys.s), contracts)|)
  {
    SelectedAreRetainable(sys.s, contracts);
    hide Run, After, Outcome, UnderAny, Empty, OnlyEmptiedAll, Locked, RetentionOnly, DueRows, Retainable;
    picked := {};
    ghost var s0 := sys.s;
    if limit < 1 || limit > 10 {
      NothingRetained(s0, sys.s, limit, execute);
      return Thrown, picked;
    }
    var answered;
    answered, picked := Begin(sys, contracts, t, limit);
    ghost var s1 := sys.s;
    if !answered {
      NothingRetained(s0, s1, limit, execute);
      return Thrown, {};
    }
    Opened(s0, s1, t, picked);
    var removed := RetainAll(sys, t, picked, execute);
    ghost var s2 := sys.s;
    if removed.Thrown? || !execute {
      sys.DropPurge(t);
      r := if removed.Thrown? then Thrown else Ok(Report(true, |picked|, 0, 0));
      RolledBack(s0, s1, s2, t, picked, limit, execute, r);
      return;
    }
    answered := Finish(sys, t, picked);
    r := if answered then Ok(Report(false, |picked|, removed.value, |picked|)) else Thrown;
    CommittedBatch(s0, s1, s2, sys.s, t, picked, limit, r);
  }

  lemma Opened(s: State, t: State, b: nat, picked: set<Id>)
    requires RetentionOnly(s, t) && b in t.purges && picked <= t.ledger.Keys
    ensures b in t.purges && picked <= t.ledger.Keys && t.ledger == s.ledger
  {
  }

  lemma NothingRetained(s: State, t: State, limit: nat, execute: bool)
    requires RetentionOnly(s, t) && t.backup == s.backup && t.purges == s.purges
    ensures Outcome(s, t, {}, limit, execute, Thrown)
  {
  }

  lemma RolledBack(s: State, t: State, u: State, b: nat, picked: set<Id>, limit: nat, execute: bool, r: Result<Report>)
    requires RetentionOnly(s, t) && t.backup == s.backup && t.purges - {b} == s.purges && RetentionOnly(t, u)
    requires u.purges - {b} == t.purges - {b} && OnlyEmptiedAll(t.backup, u.backup, picked)
        && AllDue(t.now, t.ledger, picked)
    requires !execute ==> u.backup == t.backup
    requires r.Ok? ==> !execute && 1 <= limit <= 10 && |picked| <= limit && r.value == Report(true, |picked|, 0, 0)
    ensures Outcome(s, u.(purges := u.purges - {b}), picked, limit, execute, r)
  {
    hide OnlyEmptiedAll;
  }

  lemma CommittedBatch(s: State, t: State, u: State, w: State, b: nat, picked: set<Id>, limit: nat, r: Result<Report>)
    requires RetentionOnly(s, t) && t.backup == s.backup && t.purges - {b} == s.purges && RetentionOnly(t, u)
    requires u.purges - {b} == t.purges - {b} && OnlyEmptiedAll(t.backup, u.backup, picked)
        && AllDue(t.now, t.ledger, picked)
    requires forall id :: id in picked ==> Empty(u.backup, id)
    requires w.backup == u.backup && w.rows == u.rows && w.primary == u.primary && u.now <= w.now
        && w.purges == u.purges - {b}
    requires w.ledger == u.ledger || w.ledger == u.ledger - picked
    requires r.Ok? ==>
               && w.ledger == u.ledger - picked && 1 <= limit <= 10 && |picked| <= limit
               && r.value == Report(false, |picked|, |UnderAny(t.backup, picked)|, |picked|)
    ensures Outcome(s, w, picked, limit, true, r)
  {
    hide OnlyEmptiedAll, UnderAny, Empty;
  }

  /** Over a committed batch, ledger rows and backup versions both shrink by exactly what was removed. */
  lemma CommittedBatchShrinks(before: State, after: State, picked: set<Id>)
    requires Forgets(before, after, picked) && picked <= before.ledger.Keys
        && OnlyEmptiedAll(before.backup, after.backup, picked)
    ensures |after.ledger| == |before.ledger| - |picked|
    ensures |after.backup| == |before.backup| - |UnderAny(before.backup, picked)|
  {
    KeysGone(before.ledger, after.ledger, picked);
    hide Forgets, Empty;
    KeysGone(before.backup, after.backup, UnderAny(before.backup, picked));
  }
}
