/** Emptying one key of a versioned bucket: list, check, delete each version, list again. */
module Deletion {
  import opened Basics
  import opened Hashing
  import opened EvidencePolicy
  import opened Evidence
  import opened EvidenceInvariants
  import opened EvidenceSystem

  /** Versions of this key may be gone; nothing else changed and nothing came. */
  ghost predicate OnlyEmptied(before: Bucket, after: Bucket, id: Id) {
    && Extends(after, before)
    && forall v :: v in before && before[v].id != id ==> v in after
  }

  /** Nothing but the backup bucket and the clock moved. */
  predicate BackupOnly(before: State, after: State) {
    before.now <= after.now && after == before.(now := after.now, backup := after.backup)
  }

  predicate PrimaryOnly(before: State, after: State) {
    before.now <= after.now && after == before.(now := after.now, primary := after.primary)
  }

  /** The descriptor retention enumerates a key with; it names no version. */
  function Descriptor(e: Source): Manifest {
    Manifest(e, e.key, None, if e.expiresAt > 0 then e.expiresAt - 1 else 0, e.expiresAt + GRACE)
  }

  /** A version that the purge of this descriptor may delete. */
  predicate Purgeable(o: Object, v: Version, m: Manifest, now: Time) {
    Decode(o, v).Some? && Decode(o, v).value.source == m.source && PhaseOf(Decode(o, v).value, now) == Some(PurgeDue)
  }

  /** A whole copy of this source, a week past its expiry. */
  predicate DueCopy(o: Object, e: Source, now: Time) {
    && o.tag.CopyOf? && o.tag.draft.source == e && o.mediaType == e.mediaType
    && |o.bytes| == e.sizeBytes && Sha256(o.bytes) == e.sha256 && e.expiresAt + 604800000 <= now
  }

  predicate AllPurgeable(bucket: Bucket, versions: set<Version>, m: Manifest, now: Time) {
    forall v :: v in versions ==> v in bucket && Purgeable(bucket[v], v, m, now)
  }

  predicate AllDueCopies(bucket: Bucket, e: Source, now: Time) {
    forall v :: v in bucket && bucket[v].id == e.key ==> DueCopy(bucket[v], e, now)
  }

  lemma PurgeableAreDue(bucket: Bucket, m: Manifest, now: Time)
    ensures AllPurgeable(bucket, Under(bucket, m.source.key), m, now) ==> AllDueCopies(bucket, m.source, now)
  {
    if AllPurgeable(bucket, Under(bucket, m.source.key), m, now) {
      forall v | v in bucket && bucket[v].id == m.source.key ensures DueCopy(bucket[v], m.source, now) {
        assert v in Under(bucket, m.source.key) && Purgeable(bucket[v], v, m, now);
      }
    }
  }

  lemma PurgeableLater(bucket: Bucket, versions: set<Version>, m: Manifest, now: Time, later: Time)
    requires AllPurgeable(bucket, versions, m, now) && now <= later
    ensures AllPurgeable(bucket, versions, m, later)
  {
    hide Decode;
  }

  /** Reads and validates every listed version. */
  method ValidateAll(sys: System, m: Manifest, versions: set<Version>) returns (ok: bool)
    requires sys.Valid() && versions <= sys.s.backup.Keys
    modifies sys
    ensures sys.Valid() && OnlyWaited(old(sys.s), sys.s)
    ensures ok ==> AllPurgeable(sys.s.backup, versions, m, sys.s.now)
    ensures Prompt(old(sys.turns), sys.turns, old(sys.s), sys.s)
    ensures old(sys.turns) == [] ==> (ok <==> AllPurgeable(sys.s.backup, versions, m, sys.s.now))
  {
    hide Run, After, Decode, PhaseOf;
    var rest := versions;
    while rest != {}
      invariant sys.Valid() && OnlyWaited(old(sys.s), sys.s) && rest <= versions
          && Prompt(old(sys.turns), sys.turns, old(sys.s), sys.s)
      invariant AllPurgeable(sys.s.backup, versions - rest, m, sys.s.now)
      decreases |rest|
    {
      var v :| v in rest;
      ghost var before := sys.s.now;
      var arrives, answered := sys.Await();
      PurgeableLater(sys.s.backup, versions - rest, m, before, sys.s.now);
      if !answered || !Purgeable(sys.s.backup[v], v, m, sys.s.now) {
        return false;
      }
      rest := rest - {v};
    }
    assert versions - rest == versions;
    ok := true;
  }

  lemma IsInventoried(s: State, m: Manifest)
    requires m.source.key in s.ledger && s.ledger[m.source.key].expected == m.source
    requires AllPurgeable(s.backup, Under(s.backup, m.source.key), m, s.now)
    ensures Inventoried(s, m.source.key)
  {
    hide Decode;
    forall v | v in s.backup && s.backup[v].id == m.source.key ensures Purgeable(s.backup[v], v, m, s.now) {
      assert v in Under(s.backup, m.source.key);
    }
  }

  lemma NothingEmptied(bucket: Bucket, id: Id)
    ensures OnlyEmptied(bucket, bucket, id)
  {
  }

  lemma NoneUnder(bucket: Bucket, id: Id)
    requires Under(bucket, id) == {}
    ensures Empty(bucket, id)
  {
    assert forall v :: v in bucket && bucket[v].id == id ==> v in Under(bucket, id);
  }

  lemma OneEmptied(origin: Bucket, bucket: Bucket, v: Version, m: Manifest, now: Time)
    requires OnlyEmptied(origin, bucket, m.source.key) && v in Under(bucket, m.source.key)
    requires AllPurgeable(bucket, Under(bucket, m.source.key), m, now)
    ensures OnlyEmptied(origin, bucket - {v}, m.source.key)
    ensures Under(bucket - {v}, m.source.key) == Under(bucket, m.source.key) - {v}
    ensures AllPurgeable(bucket - {v}, Under(bucket, m.source.key) - {v}, m, now)
  {
    hide Decode;
  }

  /** Deletes the listed versions one by one; false when an answer is missing. */
  method DeleteAll(sys: System, t: nat, m: Manifest, versions: set<Version>) returns (ok: bool)
    requires sys.Valid() && t in sys.s.purges && m.source.key in sys.s.purges[t].ids
    requires m.source.key in sys.s.ledger && sys.s.ledger[m.source.key].expected == m.source
    requires versions == Under(sys.s.backup, m.source.key) && AllPurgeable(sys.s.backup, versions, m, sys.s.now)
    modifies sys
    ensures sys.Valid() && BackupOnly(old(sys.s), sys.s)
    ensures OnlyEmptied(old(sys.s.backup), sys.s.backup, m.source.key)
    ensures ok ==> Empty(sys.s.backup, m.source.key)
    ensures Prompt(old(sys.turns), sys.turns, old(sys.s), sys.s) && (old(sys.turns) == [] ==> ok)
  {
    hide Run, After, Decode, PhaseOf, AllPurgeable, OnlyEmptied, Purgeable, Inventoried;
    ghost var origin := sys.s.backup;
    NothingEmptied(origin, m.source.key);
    var rest := versions;
    while rest != {}
      invariant sys.Valid() && BackupOnly(old(sys.s), sys.s) && Prompt(old(sys.turns), sys.turns, old(sys.s), sys.s)
      invariant OnlyEmptied(origin, sys.s.backup, m.source.key)
      invariant rest == Under(sys.s.backup, m.source.key)
      invariant AllPurgeable(sys.s.backup, rest, m, sys.s.now)
      decreases |rest|
    {
      var v :| v in rest;
      ghost var before := sys.s.now;
      var arrives, answered := sys.Await();
      PurgeableLater(sys.s.backup, rest, m, before, sys.s.now);
      IsInventoried(sys.s, m);
      OneEmptied(origin, sys.s.backup, v, m, sys.s.now);
      if arrives {
        sys.DeleteCopy(t, m.source.key, v);
      }
      if !answered {
        return false;
      }
      rest := rest - {v};
    }
    NoneUnder(sys.s.backup, m.source.key);
    ok := true;
  }

  /** purge: validates every listed version before deleting any, and reports success only over an empty key. */
  method PurgeKey(sys: System, t: nat, m: Manifest) returns (r: Result<nat>)
    requires sys.Valid() && t in sys.s.purges && m.source.key in sys.s.purges[t].ids
    requires m.source.key in sys.s.ledger && sys.s.ledger[m.source.key].expected == m.source
    modifies sys
    ensures sys.Valid() && BackupOnly(old(sys.s), sys.s)
    ensures OnlyEmptied(old(sys.s.backup), sys.s.backup, m.source.key)
    ensures r.Ok? ==> Empty(sys.s.backup, m.source.key) && r.value == |Under(old(sys.s.backup), m.source.key)|
    ensures sys.s.backup != old(sys.s.backup) ==>
              && AllPurgeable(old(sys.s.backup), Under(old(sys.s.backup), m.source.key), m, sys.s.now)
              && AllDueCopies(old(sys.s.backup), m.source, sys.s.now)
    ensures Prompt(old(sys.turns), sys.turns, old(sys.s), sys.s)
    ensures old(sys.turns) == [] ==>
              (r.Ok? <==>
               && PhaseOf(m, sys.s.now) == Some(PurgeDue) && |Under(old(sys.s.backup), m.source.key)| <= 100
               && AllPurgeable(old(sys.s.backup), Under(old(sys.s.backup), m.source.key), m, sys.s.now))
  {
    hide Run, After, Decode, PhaseOf, AllPurgeable, AllDueCopies;
    if PhaseOf(m, sys.s.now) != Some(PurgeDue) {
      return Thrown;
    }
    var arrives, answered := sys.Await();
    var versions := Under(sys.s.backup, m.source.key);
    if !answered || |versions| > MAX_VERSIONS {
      return Thrown;
    }
    var valid := ValidateAll(sys, m, versions);
    if !valid {
      return Thrown;
    }
    ghost var validated := sys.s.now;
    var deleted := DeleteAll(sys, t, m, versions);
    PurgeableLater(old(sys.s.backup), versions, m, validated, sys.s.now);
    PurgeableAreDue(old(sys.s.backup), m, sys.s.now);
    if !deleted {
      return Thrown;
    }
    ghost var emptied := sys.s.now;
    arrives, answered := sys.Await();
    PurgeableLater(old(sys.s.backup), versions, m, emptied, sys.s.now);
    PurgeableAreDue(old(sys.s.backup), m, sys.s.now);
    r := if answered && Empty(sys.s.backup, m.source.key) then Ok(|versions|) else Thrown;
  }

  method DeleteVersions(sys: System, t: nat, id: Id, versions: set<Version>) returns (ok: bool)
    requires sys.Valid() && t in sys.s.sweeps && id in sys.s.sweeps[t].ids
    requires versions == Under(sys.s.primary, id) && |versions| <= MAX_VERSIONS
    modifies sys
    ensures sys.Valid() && PrimaryOnly(old(sys.s), sys.s)
    ensures OnlyEmptied(old(sys.s.primary), sys.s.primary, id)
    ensures ok ==> Empty(sys.s.primary, id)
    ensures Prompt(old(sys.turns), sys.turns, old(sys.s), sys.s) && (old(sys.turns) == [] ==> ok)
  {
    hide Run, After;
    var rest := versions;
    while rest != {}
      invariant sys.Valid() && PrimaryOnly(old(sys.s), sys.s) && Prompt(old(sys.turns), sys.turns, old(sys.s), sys.s)
      invariant OnlyEmptied(old(sys.s.primary), sys.s.primary, id)
      invariant rest == Under(sys.s.primary, id) && |rest| <= MAX_VERSIONS
      decreases |rest|
    {
      var v :| v in rest;
      var arrives, answered := sys.Await();
      if arrives {
        sys.DeleteVersion(t, id, v);
      }
      if !answered {
        return false;
      }
      rest := rest - {v};
    }
    assert forall v :: v in sys.s.primary && sys.s.primary[v].id == id ==> v in rest;
    ok := true;
  }

  /** removeExactKey: empties a primary key under the row lock of an open cleanup. */
  method RemoveExactKey(sys: System, t: nat, id: Id) returns (r: Result<nat>)
    requires sys.Valid() && t in sys.s.sweeps && id in sys.s.sweeps[t].ids
    modifies sys
    ensures sys.Valid() && PrimaryOnly(old(sys.s), sys.s)
    ensures OnlyEmptied(old(sys.s.primary), sys.s.primary, id)
    ensures r.Ok? ==> Empty(sys.s.primary, id) && r.value == |Under(old(sys.s.primary), id)|
    ensures |Under(old(sys.s.primary), id)| > 100 ==> r.Thrown? && sys.s.primary == old(sys.s.primary)
    ensures Prompt(old(sys.turns), sys.turns, old(sys.s), sys.s)
    ensures old(sys.turns) == [] ==> (r.Ok? <==> |Under(old(sys.s.primary), id)| <= 100)
  {
    hide Run, After;
    var arrives, answered := sys.Await();
    var versions := Under(sys.s.primary, id);
    if !answered || |versions| > MAX_VERSIONS {
      return Thrown;
    }
    var deleted := DeleteVersions(sys, t, id, versions);
    if !deleted {
      return Thrown;
    }
    arrives, answered := sys.Await();
    r := if answered && Empty(sys.s.primary, id) then Ok(|versions|) else Thrown;
  }

  /* ---------- batches of keys ---------- */

  function UnderAny(bucket: Bucket, ids: set<Id>): set<Version> {
    set v | v in bucket && bucket[v].id in ids
  }

  /** Versions of these keys may be gone; nothing else changed and nothing came. */
  ghost predicate OnlyEmptiedAll(before: Bucket, after: Bucket, ids: set<Id>) {
    && Extends(after, before)
    && forall v :: v in before && before[v].id !in ids ==> v in after
  }

  /** A batch of at most `limit` rows, as many as there are. */
  method Pick(all: set<Id>, limit: nat) returns (picked: set<Id>)
    ensures picked <= all && |picked| == Min(limit, |all|)
  {
    picked := {};
    var rest := all;
    while |picked| < limit && rest != {}
      invariant picked <= all && rest == all - picked && |picked| + |rest| == |all| && |picked| <= limit
      decreases |rest|
    {
      var id :| id in rest;
      picked, rest := picked + {id}, rest - {id};
    }
  }

  lemma Tallied(before: Bucket, after: Bucket, last: Bucket, done: set<Id>, id: Id)
    requires OnlyEmptiedAll(before, after, done) && OnlyEmptied(after, last, id) && id !in done
    ensures OnlyEmptiedAll(before, last, done + {id})
    ensures Under(after, id) == Under(before, id)
    ensures |UnderAny(before, done + {id})| == |UnderAny(before, done)| + |Under(before, id)|
    ensures forall k :: k in done && Empty(after, k) ==> Empty(last, k)
  {
    assert UnderAny(before, done + {id}) == UnderAny(before, done) + Under(before, id);
    assert UnderAny(before, done) !! Under(before, id);
    assert Under(after, id) == Under(before, id);
  }

  lemma Untallied(bucket: Bucket)
    ensures OnlyEmptiedAll(bucket, bucket, {}) && UnderAny(bucket, {}) == {}
  {
  }

  lemma Wider(before: Bucket, after: Bucket, some: set<Id>, all: set<Id>)
    requires OnlyEmptiedAll(before, after, some) && some <= all
    ensures OnlyEmptiedAll(before, after, all)
  {
  }

  lemma KeysGone<K, V>(before: map<K, V>, after: map<K, V>, gone: set<K>)
    requires (forall k :: k in after <==> k in before && k !in gone) && gone <= before.Keys
    ensures |after| == |before| - |gone|
  {
    assert after.Keys == before.Keys - gone;
    assert |before.Keys - gone| == |before.Keys| - |gone|;
  }
}
