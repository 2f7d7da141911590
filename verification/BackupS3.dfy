/** The backup adapter: copy, readback, restore and purge, call by call. */
module BackupS3 {
  import opened Basics
  import opened Hashing
  import opened EvidencePolicy
  import opened Evidence
  import opened EvidenceInvariants
  import opened EvidenceSystem

  datatype Probe<+T> = Found(value: T) | Missing | Failed

  /** Copying, reading and restoring leave every table as it was. */
  ghost predicate TablesKept(before: State, after: State) {
    && before.now <= after.now && after.rows == before.rows && after.ledger == before.ledger
       && after.born == before.born
    && before.soup <= after.soup && after.sweeps == before.sweeps && after.purges == before.purges
       && after.lost == before.lost
  }

  /** Whatever is new is this manifest's restore, written where nothing lay. */
  ghost predicate OnlyRestored(before: Bucket, after: Bucket, next: Version, m: Manifest) {
    Extends(before, after) && forall v :: v in after && v !in before ==>
      && next <= v && Empty(before, m.source.key) && after[v].id == m.source.key
      && after[v].tag == RestoreOf(m.backupVersion, m.source.version, m.source.expiresAt)
  }

  /** The version lies under the key, tagged as this restore, and holds these bytes, which are the ledger's. */
  predicate IsRestored(primary: Bucket, m: Manifest, v: Version, bytes: Bytes) {
    && v in primary && primary[v].id == m.source.key
    && primary[v].tag == RestoreOf(m.backupVersion, m.source.version, m.source.expiresAt)
    && primary[v].bytes == bytes && |bytes| == m.source.sizeBytes && Sha256(bytes) == m.source.sha256
  }

  /** Old versions stay, and whatever is new lies under this key. */
  ghost predicate OnlyCopied(before: Bucket, after: Bucket, key: Id) {
    Extends(before, after) && forall v :: v in after && v !in before ==> after[v].id == key
  }

  /* What decides each call when nothing disturbs it. */

  predicate Acceptable(o: Object, v: Version, now: Time, e: Source) {
    Decode(o, v).Some? && VerifyRecovery(Decode(o, v).value, o.bytes, e, now)
  }

  ghost predicate CopyAccepted(backup: Bucket, now: Time, e: Source) {
    exists v :: Latest(backup, e.key, v) && Acceptable(backup[v], v, now, e)
  }

  predicate SourceReadable(primary: Bucket, now: Time, e: Source, draft: Manifest) {
    && e.version in primary && primary[e.version].id == e.key && primary[e.version].mediaType == e.mediaType
    && VerifyRecovery(draft, primary[e.version].bytes, e, now)
  }

  predicate Readable(backup: Bucket, now: Time, m: Manifest) {
    && PhaseOf(m, now) == Some(Restorable) && m.backupVersion.Some? && m.backupVersion.value in backup
    && backup[m.backupVersion.value].id == m.backupKey
    && Decode(backup[m.backupVersion.value], m.backupVersion.value) == Some(m)
  }

  predicate IsSeen(primary: Bucket, now: Time, m: Manifest, v: Version) {
    && v in primary && v != m.source.version && primary[v].mediaType == m.source.mediaType
       && primary[v].tag == RestoreTag(m)
    && VerifyRecovery(m, primary[v].bytes, m.source, now)
  }

  ghost predicate RestoreSeen(primary: Bucket, now: Time, m: Manifest) {
    exists v :: Latest(primary, m.source.key, v) && IsSeen(primary, now, m, v)
  }

  /** The newest version decides. */
  lemma AcceptedIff(backup: Bucket, now: Time, e: Source)
    ensures Empty(backup, e.key) ==> !CopyAccepted(backup, now, e)
    ensures forall v :: Latest(backup, e.key, v) ==>
        (CopyAccepted(backup, now, e) <==> Acceptable(backup[v], v, now, e))
    ensures forall v :: Latest(backup, e.key, v) && Acceptable(backup[v], v, now, e) ==>
        Decode(backup[v], v).value.backupKey == e.key
  {
    hide PhaseOf;
    forall u, v | Latest(backup, e.key, u) && Latest(backup, e.key, v) ensures u == v {
    }
  }

  lemma SeenIff(primary: Bucket, now: Time, m: Manifest)
    ensures Empty(primary, m.source.key) ==> !RestoreSeen(primary, now, m)
    ensures forall v :: Latest(primary, m.source.key, v) ==>
        (RestoreSeen(primary, now, m) <==> IsSeen(primary, now, m, v))
  {
    hide VerifyRecovery;
    forall u, v | Latest(primary, m.source.key, u) && Latest(primary, m.source.key, v) ensures u == v {
    }
  }

  /** A copy just written is accepted. */
  lemma FreshCopyIsAccepted(backup: Bucket, v: Version, now: Time, e: Source, draft: Manifest, bytes: Bytes)
    requires Empty(backup, e.key) && v !in backup && VerifyRecovery(draft, bytes, e, now) && draft.backupVersion.None?
    ensures CopyAccepted(backup[v := Object(e.key, bytes, e.mediaType, CopyOf(draft))], now, e)
  {
    var after := backup[v := Object(e.key, bytes, e.mediaType, CopyOf(draft))];
    assert Latest(after, e.key, v);
    assert Decode(after[v], v) == Some(draft.(backupVersion := Some(v)));
    assert Acceptable(after[v], v, now, e);
  }

  lemma FreshRestoreIsSeen(primary: Bucket, v: Version, now: Time, m: Manifest, bytes: Bytes)
    requires Empty(primary, m.source.key) && v !in primary && v != m.source.version
        && VerifyRecovery(m, bytes, m.source, now)
    ensures RestoreSeen(primary[v := Object(m.source.key, bytes, m.source.mediaType, RestoreTag(m))], now, m)
  {
    var after := primary[v := Object(m.source.key, bytes, m.source.mediaType, RestoreTag(m))];
    assert Latest(after, m.source.key, v) && IsSeen(after, now, m, v);
  }

  lemma KeptThen(a: State, b: State, c: State)
    requires TablesKept(a, b)
    ensures a.soup <= b.soup && a.now <= b.now
    ensures TablesKept(b, c) ==> TablesKept(a, c)
  {
  }

  lemma KeptAlready(s: State)
    ensures TablesKept(s, s)
  {
  }

  lemma WaitThenLearn(a: State, b: State, f: Fact)
    requires OnlyWaited(a, b)
    ensures TablesKept(a, b) && TablesKept(a, Learn(b, f)) && a.soup <= b.soup
    ensures b.primary == a.primary && b.backup == a.backup && b.next == a.next && b.now >= a.now
  {
  }

  class S3EvidenceBackup {
    const sys: System

    constructor (sys: System)
      ensures this.sys == sys
    {
      this.sys := sys;
    }

    /** Reads the copy under the key, if there is one, and checks it against what the ledger expects. */
    method VerifyExisting(expected: Source) returns (r: Probe<Manifest>)
      requires sys.Valid() && Reserved(expected) in sys.s.soup
      modifies sys
      ensures sys.Valid() && TablesKept(old(sys.s), sys.s) && Prompt(old(sys.turns), sys.turns, old(sys.s), sys.s)
      ensures sys.s.primary == old(sys.s.primary) && sys.s.backup == old(sys.s.backup) && sys.s.next == old(sys.s.next)
      ensures r.Found? ==> Copied(r.value) in sys.s.soup && r.value.source == expected
      ensures r.Missing? ==> Empty(sys.s.backup, expected.key)
      ensures old(sys.turns) == [] ==>
                && (r.Missing? <==> Empty(sys.s.backup, expected.key))
                && (r.Found? <==> CopyAccepted(sys.s.backup, sys.s.now, expected))
    {
      hide Run, After, Decode, PhaseOf, ValidManifest, Latest, CopyAccepted, Empty;
      var arrives, answered := sys.Await();
      if !answered {
        return Failed;
      }
      AcceptedIff(sys.s.backup, sys.s.now, expected);
      var latest := FindLatest(sys.s.backup, expected.key);
      if latest.None? {
        return Missing;
      }
      var v := latest.value;
      LatestIsThere(sys.s.backup, expected.key, v);
      var m := Decode(sys.s.backup[v], v);
      if m.None? || m.value.backupKey != expected.key
          || !VerifyRecovery(m.value, sys.s.backup[v].bytes, expected, sys.s.now) {
        return Failed;
      }
      sys.LearnCopied(expected, v, m.value);
      r := Found(m.value);
    }

    lemma LatestIsThere(bucket: Bucket, id: Id, v: Version)
      requires Latest(bucket, id, v)
      ensures v in bucket && bucket[v].id == id && !Empty(bucket, id)
    {
    }

    /** PUT with If-None-Match: it lands only where nothing lies, and its answer may be lost. */
    method WriteCopy(draft: Manifest, bytes: Bytes, checkedAt: Time) returns (answered: bool)
      requires sys.Valid() && CopyReady(draft, bytes, checkedAt) in sys.s.soup && checkedAt == sys.s.now
      modifies sys
      ensures sys.Valid() && TablesKept(old(sys.s), sys.s) && Prompt(old(sys.turns), sys.turns, old(sys.s), sys.s)
      ensures sys.s.primary == old(sys.s.primary) && OnlyCopied(old(sys.s.backup), sys.s.backup, draft.backupKey)
      ensures old(sys.turns) == [] ==> answered
      ensures old(sys.turns) == [] && Empty(old(sys.s.backup), draft.backupKey) ==>
                && old(sys.s.next) !in old(sys.s.backup)
                && sys.s.backup == old(sys.s.backup)[old(sys.s.next) := Object(draft.backupKey, bytes,
                   draft.source.mediaType, CopyOf(draft))]
    {
      hide Run, After, OnlyCopied, Empty, TablesKept, OnlyWaited, WithCopy;
      ghost var s0 := sys.s;
      sys.Unused();
      var arrives;
      arrives, answered := sys.Await();
      CopyWritten(s0, sys.s, draft, bytes);
      if arrives {
        WaitedFor(s0, sys.s, CopyReady(draft, bytes, checkedAt));
        sys.PutCopyIfAbsent(draft, bytes, checkedAt);
      }
    }

    lemma WaitedFor(s: State, t: State, f: Fact)
      requires OnlyWaited(s, t) && f in s.soup
      ensures f in t.soup
    {
    }

    lemma CopyWritten(s: State, t: State, draft: Manifest, bytes: Bytes)
      requires OnlyWaited(s, t) && s.next !in s.backup
      ensures forall u :: u == t || u == WithCopy(t, draft, bytes) ==>
                TablesKept(s, u) && u.primary == s.primary && u.now == t.now
                    && OnlyCopied(s.backup, u.backup, draft.backupKey)
      ensures t == s && Empty(s.backup, draft.backupKey) ==>
                WithCopy(t, draft, bytes).backup ==
                s.backup[s.next := Object(draft.backupKey, bytes, draft.source.mediaType, CopyOf(draft))]
    {
    }

    /** The exact source version, checked against the draft right before it is written. */
    method ReadSource(expected: Source, draft: Manifest) returns (r: Result<Bytes>)
      requires sys.Valid() && Reserved(expected) in sys.s.soup && draft == Draft(expected, draft.capturedAt)
          && draft.capturedAt <= sys.s.now
      modifies sys
      ensures sys.Valid() && TablesKept(old(sys.s), sys.s) && Prompt(old(sys.turns), sys.turns, old(sys.s), sys.s)
      ensures sys.s.primary == old(sys.s.primary) && sys.s.backup == old(sys.s.backup) && sys.s.next == old(sys.s.next)
      ensures r.Ok? ==>
          CopyReady(draft, r.value, sys.s.now) in sys.s.soup && VerifyRecovery(draft, r.value, expected, sys.s.now)
      ensures old(sys.turns) == [] ==> (r.Ok? <==> SourceReadable(sys.s.primary, sys.s.now, expected, draft))
    {
      hide Run, After, PhaseOf, ValidManifest;
      var arrives, answered := sys.Await();
      var v := expected.version;
      if !answered || v !in sys.s.primary || sys.s.primary[v].id != expected.key
          || sys.s.primary[v].mediaType != expected.mediaType {
        return Thrown;
      }
      var bytes := sys.s.primary[v].bytes;
      if !VerifyRecovery(draft, bytes, expected, sys.s.now) {
        return Thrown;
      }
      sys.LearnCopyReady(expected, draft.capturedAt, bytes);
      r := Ok(bytes);
    }

    method CopyFresh(expected: Source, draft: Manifest) returns (r: Result<Manifest>)
      requires sys.Valid() && Reserved(expected) in sys.s.soup && draft == Draft(expected, draft.capturedAt)
          && draft.capturedAt <= sys.s.now
      modifies sys
      ensures sys.Valid() && TablesKept(old(sys.s), sys.s) && Prompt(old(sys.turns), sys.turns, old(sys.s), sys.s)
      ensures sys.s.primary == old(sys.s.primary) && OnlyCopied(old(sys.s.backup), sys.s.backup, expected.key)
      ensures r.Ok? ==> Copied(r.value) in sys.s.soup && r.value.source == expected
      ensures old(sys.turns) == [] && Empty(old(sys.s.backup), expected.key) ==>
                (r.Ok? <==> SourceReadable(sys.s.primary, sys.s.now, expected, draft))
    {
      assert OnlyCopied(sys.s.backup, sys.s.backup, expected.key);
      hide Run, After, OnlyCopied, SourceReadable, VerifyRecovery, CopyAccepted, Empty, TablesKept;
      ghost var s0 := sys.s;
      var bytes := ReadSource(expected, draft);
      KeptThen(s0, sys.s, sys.s);
      if bytes.Thrown? {
        return Thrown;
      }
      ghost var before := sys.s;
      var answered := WriteCopy(draft, bytes.value, sys.s.now);
      ghost var s2 := sys.s;
      KeptThen(s0, before, s2);
      KeptThen(before, s2, s2);
      if !answered {
        return Thrown;
      }
      if old(sys.turns) == [] && Empty(old(sys.s.backup), expected.key) {
        FreshCopyIsAccepted(before.backup, before.next, before.now, expected, draft, bytes.value);
      }
      var existing := VerifyExisting(expected);
      KeptThen(s0, s2, sys.s);
      r := if existing.Found? then Ok(existing.value) else Thrown;
    }

    /** Copies the exact source version under a fresh backup key, or finds the copy an earlier call left. */
    method Copy(expected: Source) returns (r: Result<Manifest>)
      requires sys.Valid() && Reserved(expected) in sys.s.soup
      modifies sys
      ensures sys.Valid() && TablesKept(old(sys.s), sys.s) && Prompt(old(sys.turns), sys.turns, old(sys.s), sys.s)
      ensures sys.s.primary == old(sys.s.primary) && OnlyCopied(old(sys.s.backup), sys.s.backup, expected.key)
      ensures r.Ok? ==> Copied(r.value) in sys.s.soup && r.value.source == expected
      ensures old(sys.turns) == [] ==>
                (r.Ok? <==>
                 && ValidManifest(Draft(expected, sys.s.now))
                 && if Empty(old(sys.s.backup), expected.key) then SourceReadable(sys.s.primary, sys.s.now, expected,
                    Draft(expected, sys.s.now))
                    else CopyAccepted(old(sys.s.backup), sys.s.now, expected))
    {
      assert OnlyCopied(sys.s.backup, sys.s.backup, expected.key);
      hide Run, After, ValidManifest, OnlyCopied, SourceReadable, CopyAccepted, Empty, TablesKept;
      ghost var s0 := sys.s;
      WaitThenLearn(s0, s0, Reserved(expected));
      var draft := Draft(expected, sys.s.now);
      if !ValidManifest(draft) {
        return Thrown;
      }
      var existing := VerifyExisting(expected);
      ghost var s1 := sys.s;
      KeptThen(s0, s1, s1);
      if existing.Found? {
        return Ok(existing.value);
      }
      if existing.Failed? {
        return Thrown;
      }
      r := CopyFresh(expected, draft);
      KeptThen(s0, s1, sys.s);
    }

    method ReadBackup(m: Manifest) returns (r: Result<Bytes>)
      requires sys.Valid() && Copied(m) in sys.s.soup
      modifies sys
      ensures sys.Valid() && TablesKept(old(sys.s), sys.s) && Prompt(old(sys.turns), sys.turns, old(sys.s), sys.s)
      ensures sys.s.primary == old(sys.s.primary) && sys.s.backup == old(sys.s.backup)
      ensures r.Ok? ==>
                && ReadBack(m, r.value) in sys.s.soup && |r.value| == m.source.sizeBytes
                && Sha256(r.value) == m.source.sha256 && sys.s.now < m.source.expiresAt
                && m.backupVersion.Some? && m.backupVersion.value in sys.s.backup
                && sys.s.backup[m.backupVersion.value].id == m.source.key
                && sys.s.backup[m.backupVersion.value].bytes == r.value
      ensures old(sys.turns) == [] ==> (r.Ok? <==> Readable(sys.s.backup, sys.s.now, m))
    {
      hide Run, After, Decode, PhaseOf, ValidManifest;
      if PhaseOf(m, sys.s.now) != Some(Restorable) {
        return Thrown;
      }
      var copy := ReadExact(m);
      if copy.Thrown? {
        return Thrown;
      }
      RestorableBefore(m, copy.value, sys.s.now);
      sys.LearnReadBack(m, copy.value);
      r := copy;
    }

    /** The manifest's own version, decoded, unchanged and verified. */
    method ReadExact(m: Manifest) returns (r: Result<Bytes>)
      requires sys.Valid()
      modifies sys
      ensures sys.Valid() && OnlyWaited(old(sys.s), sys.s) && Prompt(old(sys.turns), sys.turns, old(sys.s), sys.s)
      ensures r.Ok? ==> ReadsBack(sys.s, m, r.value) && VerifyRecovery(m, r.value, m.source, sys.s.now)
      ensures old(sys.turns) == [] ==> (r.Ok? <==> Readable(sys.s.backup, sys.s.now, m))
    {
      hide Run, After;
      var arrives, answered := sys.Await();
      if !answered || m.backupVersion.None? || m.backupVersion.value !in sys.s.backup
         || sys.s.backup[m.backupVersion.value].id != m.backupKey {
        return Thrown;
      }
      var o := sys.s.backup[m.backupVersion.value];
      if Decode(o, m.backupVersion.value) != Some(m) || !VerifyRecovery(m, o.bytes, m.source, sys.s.now) {
        return Thrown;
      }
      r := Ok(o.bytes);
    }

    lemma SeenIsRestored(primary: Bucket, now: Time, m: Manifest, v: Version)
      requires v in primary && primary[v].id == m.source.key && primary[v].tag == RestoreTag(m)
      requires VerifyRecovery(m, primary[v].bytes, m.source, now)
      ensures IsRestored(primary, m, v, primary[v].bytes)
    {
    }

    /** Reads the newest primary version and accepts it only as this manifest's restore. */
    method VerifyRestored(m: Manifest) returns (r: Probe<(Version, Bytes)>)
      requires sys.Valid() && Loaded(m) in sys.s.soup
      modifies sys
      ensures sys.Valid() && TablesKept(old(sys.s), sys.s) && Prompt(old(sys.turns), sys.turns, old(sys.s), sys.s)
      ensures sys.s.primary == old(sys.s.primary) && sys.s.backup == old(sys.s.backup) && sys.s.next == old(sys.s.next)
      ensures r.Found? ==> Restored(m, r.value.0, r.value.1) in sys.s.soup
      ensures r.Found? ==>
          IsRestored(sys.s.primary, m, r.value.0, r.value.1) && Latest(sys.s.primary, m.source.key, r.value.0)
      ensures r.Missing? ==> Empty(sys.s.primary, m.source.key)
      ensures old(sys.turns) == [] ==>
                && (r.Missing? <==> Empty(sys.s.primary, m.source.key))
                && (r.Found? <==> RestoreSeen(sys.s.primary, sys.s.now, m))
    {
      hide Run, After, PhaseOf, ValidManifest, Latest, RestoreSeen, Empty, TablesKept, IsRestored;
      ghost var s0 := sys.s;
      var arrives, answered := sys.Await();
      WaitThenLearn(s0, sys.s, Loaded(m));
      if !answered {
        return Failed;
      }
      var latest := FindLatest(sys.s.primary, m.source.key);
      if latest.None? {
        SeenIff(sys.s.primary, sys.s.now, m);
        return Missing;
      }
      var v := latest.value;
      LatestIsThere(sys.s.primary, m.source.key, v);
      arrives, answered := sys.Await();
      WaitThenLearn(s0, sys.s, Restored(m, v, sys.s.primary[v].bytes));
      SeenIff(sys.s.primary, sys.s.now, m);
      var o := sys.s.primary[v];
      if !answered || v == m.source.version || o.mediaType != m.source.mediaType || o.tag != RestoreTag(m)
         || !VerifyRecovery(m, o.bytes, m.source, sys.s.now) {
        return Failed;
      }
      SeenIsRestored(sys.s.primary, sys.s.now, m, v);
      sys.LearnRestored(m, v);
      r := Found((v, o.bytes));
    }

    method WriteRestore(m: Manifest, bytes: Bytes) returns (answered: bool)
      requires sys.Valid() && RestoreReady(m, bytes) in sys.s.soup
      modifies sys
      ensures sys.Valid() && TablesKept(old(sys.s), sys.s) && Prompt(old(sys.turns), sys.turns, old(sys.s), sys.s)
      ensures sys.s.backup == old(sys.s.backup) && OnlyRestored(old(sys.s.primary), sys.s.primary, old(sys.s.next), m)
      ensures old(sys.turns) == [] ==> answered
      ensures old(sys.turns) == [] && Empty(old(sys.s.primary), m.source.key) ==>
                && old(sys.s.next) !in old(sys.s.primary)
                   && (sys.s.now < m.source.expiresAt ==> m.source.version < old(sys.s.next))
                && sys.s.primary == old(sys.s.primary)[old(sys.s.next) := Object(m.source.key, bytes,
                   m.source.mediaType, RestoreTag(m))]
    {
      hide Run, After, OnlyRestored, Empty, RestoreTag, TablesKept, OnlyWaited, WithRestore;
      ghost var s0 := sys.s;
      sys.Unused();
      var arrives;
      arrives, answered := sys.Await();
      RestoreWritten(s0, sys.s, m, bytes);
      if arrives {
        WaitedFor(s0, sys.s, RestoreReady(m, bytes));
        sys.PutRestoreIfAbsent(m, bytes);
      }
    }

    lemma RestoreWritten(s: State, t: State, m: Manifest, bytes: Bytes)
      requires OnlyWaited(s, t) && s.next !in s.primary
      ensures forall u :: u == t || u == WithRestore(t, m, bytes) ==>
                TablesKept(s, u) && u.backup == s.backup && u.now == t.now
                    && OnlyRestored(s.primary, u.primary, s.next, m)
      ensures t == s && Empty(s.primary, m.source.key) ==>
                WithRestore(t, m, bytes).primary ==
                s.primary[s.next := Object(m.source.key, bytes, m.source.mediaType, RestoreTag(m))]
    {
    }

    lemma RestorableBefore(m: Manifest, bytes: Bytes, now: Time)
      ensures VerifyRecovery(m, bytes, m.source, now) ==> now < m.source.expiresAt && m.backupKey == m.source.key
    {
    }

    method RestoreFresh(m: Manifest, bytes: Bytes) returns (r: Result<(Version, Bytes)>)
      requires sys.Valid() && Loaded(m) in sys.s.soup && RestoreReady(m, bytes) in sys.s.soup
      modifies sys
      ensures sys.Valid() && TablesKept(old(sys.s), sys.s) && Prompt(old(sys.turns), sys.turns, old(sys.s), sys.s)
      ensures sys.s.backup == old(sys.s.backup) && OnlyRestored(old(sys.s.primary), sys.s.primary, old(sys.s.next), m)
      ensures r.Ok? ==>
          Restored(m, r.value.0, r.value.1) in sys.s.soup && IsRestored(sys.s.primary, m, r.value.0, r.value.1)
      ensures r.Ok? ==> Latest(sys.s.primary, m.source.key, r.value.0)
      ensures old(sys.turns) == [] && Empty(old(sys.s.primary), m.source.key) ==>
                (r.Ok? <==> VerifyRecovery(m, bytes, m.source, sys.s.now))
    {
      assert OnlyRestored(sys.s.primary, sys.s.primary, sys.s.next, m) && TablesKept(sys.s, sys.s);
      RestorableBefore(m, bytes, sys.s.now);
      hide Run, After, OnlyRestored, IsRestored, RestoreSeen, Latest, Empty, ValidManifest, BytesMatch, TablesKept,
          VerifyRecovery;
      ghost var s0 := sys.s;
      if !VerifyRecovery(m, bytes, m.source, sys.s.now) {
        return Thrown;
      }
      ghost var before := sys.s;
      var answered := WriteRestore(m, bytes);
      ghost var s2 := sys.s;
      KeptThen(s0, s2, s2);
      if !answered {
        return Thrown;
      }
      if old(sys.turns) == [] && Empty(before.primary, m.source.key) {
        FreshRestoreIsSeen(before.primary, before.next, before.now, m, bytes);
      }
      var found := VerifyRestored(m);
      KeptThen(s0, s2, sys.s);
      r := if found.Found? then Ok(found.value) else Thrown;
    }

    method RestoreWith(m: Manifest, bytes: Bytes) returns (r: Result<(Version, Bytes)>)
      requires sys.Valid() && Loaded(m) in sys.s.soup && RestoreReady(m, bytes) in sys.s.soup
          && BytesMatch(m.source, bytes)
      modifies sys
      ensures sys.Valid() && TablesKept(old(sys.s), sys.s) && Prompt(old(sys.turns), sys.turns, old(sys.s), sys.s)
      ensures sys.s.backup == old(sys.s.backup) && OnlyRestored(old(sys.s.primary), sys.s.primary, old(sys.s.next), m)
      ensures r.Ok? ==>
          Restored(m, r.value.0, r.value.1) in sys.s.soup && IsRestored(sys.s.primary, m, r.value.0, r.value.1)
      ensures r.Ok? ==> Latest(sys.s.primary, m.source.key, r.value.0)
      ensures old(sys.turns) == [] && VerifyRecovery(m, bytes, m.source, sys.s.now) ==>
                (r.Ok? <==> Empty(old(sys.s.primary), m.source.key) || RestoreSeen(old(sys.s.primary), sys.s.now, m))
    {
      assert OnlyRestored(sys.s.primary, sys.s.primary, sys.s.next, m);
      hide Run, After, VerifyRecovery, OnlyRestored, IsRestored, RestoreSeen, Empty, Latest, TablesKept;
      ghost var s0 := sys.s;
      var found := VerifyRestored(m);
      ghost var s1 := sys.s;
      KeptThen(s0, s1, s1);
      if found.Found? {
        return Ok(found.value);
      }
      if found.Failed? {
        return Thrown;
      }
      r := RestoreFresh(m, bytes);
      KeptThen(s0, s1, sys.s);
    }

    /** The backup's bytes, checked against the manifest for a restore. */
    method ReadForRestore(m: Manifest) returns (r: Result<Bytes>)
      requires sys.Valid() && Loaded(m) in sys.s.soup
      modifies sys
      ensures sys.Valid() && TablesKept(old(sys.s), sys.s) && Prompt(old(sys.turns), sys.turns, old(sys.s), sys.s)
      ensures sys.s.primary == old(sys.s.primary) && sys.s.backup == old(sys.s.backup) && sys.s.next == old(sys.s.next)
      ensures r.Ok? ==> RestoreReady(m, r.value) in sys.s.soup && VerifyRecovery(m, r.value, m.source, sys.s.now)
      ensures old(sys.turns) == [] ==> (r.Ok? <==> Readable(sys.s.backup, sys.s.now, m))
    {
      UnreadableOutside(sys.s.backup, sys.s.now, m);
      hide Run, After, ReadsBack, PhaseOf, ValidManifest, BytesMatch, Readable, TablesKept, OnlyWaited;
      ghost var s0 := sys.s;
      KeptAlready(s0);
      if PhaseOf(m, sys.s.now) != Some(Restorable) {
        return Thrown;
      }
      r := ReadExact(m);
      ghost var s1 := sys.s;
      WaitThenLearn(s0, s1, Loaded(m));
      if r.Ok? {
        sys.LearnRestoreReady(m, r.value);
        WaitThenLearn(s0, s1, RestoreReady(m, r.value));
      }
    }

    /** Restores an absent primary object, or finds the restore an earlier call left. */
    method Restore(m: Manifest) returns (r: Result<(Version, Bytes)>)
      requires sys.Valid() && Loaded(m) in sys.s.soup
      modifies sys
      ensures sys.Valid() && TablesKept(old(sys.s), sys.s) && Prompt(old(sys.turns), sys.turns, old(sys.s), sys.s)
      ensures sys.s.backup == old(sys.s.backup) && OnlyRestored(old(sys.s.primary), sys.s.primary, old(sys.s.next), m)
      ensures r.Ok? ==>
          Restored(m, r.value.0, r.value.1) in sys.s.soup && IsRestored(sys.s.primary, m, r.value.0, r.value.1)
      ensures r.Ok? ==> Latest(sys.s.primary, m.source.key, r.value.0)
      ensures old(sys.turns) == [] ==>
                (r.Ok? <==>
                 && Readable(sys.s.backup, sys.s.now, m)
                 && (Empty(old(sys.s.primary), m.source.key) || RestoreSeen(old(sys.s.primary), sys.s.now, m)))
    {
      assert OnlyRestored(sys.s.primary, sys.s.primary, sys.s.next, m);
      hide Run, After, PhaseOf, ValidManifest, BytesMatch, OnlyRestored, IsRestored, RestoreSeen, Empty, Latest,
          Readable, TablesKept;
      ghost var s0 := sys.s;
      var copy := ReadForRestore(m);
      ghost var s1 := sys.s;
      KeptThen(s0, s1, s1);
      if copy.Thrown? {
        return Thrown;
      }
      r := RestoreWith(m, copy.value);
      KeptThen(s0, s1, sys.s);
    }

    lemma UnreadableOutside(backup: Bucket, now: Time, m: Manifest)
      ensures PhaseOf(m, now) != Some(Restorable) ==> !Readable(backup, now, m)
    {
    }
  }
}
