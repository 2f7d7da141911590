/** The evidence table as an object: put, rotateBatch and purgeExpired as transactions under the capacity lock. */
module VaultStore {
  import opened Basics
  import opened Totals
  import opened Vault

  class PrivateEvidenceTable {
    const limits: Limits
    var rows: Rows

    constructor (limits: Limits)
      ensures this.limits == limits && rows == map[]
    {
      this.limits := limits;
      rows := map[];
    }

    method Put(p: PutCall, now: Time) returns (reply: Reply<Vault.Put>)
      modifies this
      ensures (rows, reply) == PutSpec(old(rows), limits, p, now)
    {
      if !ValidContext(p.context) || !p.authorizedFirst {
        return Denied;
      }
      var sealed := Seal(p.bytes, p.context, p.active, p.iv);
      if sealed.None? {
        return Denied;
      }
      var stored := SerializedSize(sealed.value);
      var b := p.context.binding;
      if b in rows {
        if Retryable(rows[b], p, now) {
          return Done(Vault.Put(rows[b].expiresAt, false));
        }
        return Denied;
      }
      var used := Sum(Stored(rows));
      var job := JobSizes(rows, b);
      var jobUsed := Sum(job);
      if |rows| >= limits.maxRecords || used + stored > limits.maxStoredBytes
         || |job| >= JOB_RECORDS || jobUsed + p.context.sizeBytes > JOB_BYTES || !p.authorizedAgain {
        return Denied;
      }
      rows := rows[b := NewRow(p.context, sealed.value, limits, now)];
      reply := Done(Vault.Put(rows[b].expiresAt, true));
    }

    /** SELECT ... ORDER BY ... LIMIT. */
    static method SelectFirst(all: set<Binding>, limit: nat, rank: Binding -> int) returns (picked: set<Binding>)
      ensures FirstOf(picked, all, limit, rank)
    {
      picked := {};
      var rest := all;
      while |picked| < limit && rest != {}
        invariant picked <= all && rest == all - picked && |picked| + |rest| == |all| && |picked| <= limit
        invariant forall p, q :: p in picked && q in rest ==> rank(p) <= rank(q)
        decreases |rest|
      {
        var first := Least(rest, rank);
        picked, rest := picked + {first}, rest - {first};
      }
    }

    static method Least(all: set<Binding>, rank: Binding -> int) returns (least: Binding)
      requires all != {}
      ensures least in all && forall b :: b in all ==> rank(least) <= rank(b)
    {
      least :| least in all;
      var rest := all - {least};
      while rest != {}
        invariant rest <= all && least in all
        invariant forall b :: b in all - rest ==> rank(least) <= rank(b)
        decreases |rest|
      {
        var b :| b in rest;
        if rank(b) < rank(least) {
          least := b;
        }
        rest := rest - {b};
      }
    }

    /** Opens one row under its own key, seals it under the active one, and reports how its size changed. */
    method ResealRow(b: Binding, active: NamedKey, ring: Keyring, iv: nat) returns (change: Option<int>)
      requires b in rows
      modifies this
      ensures change.Some? <==> OpenRow(b, old(rows)[b], ring).Some? && ValidKeyId(active.keyId)
      ensures change.None? ==> rows == old(rows)
      ensures change.Some? ==>
                && rows == old(rows)[b := Reseal(old(rows)[b], active, iv)]
                && change.value == Total(Stored(rows)) - Total(Stored(old(rows)))
    {
      var plaintext := OpenRow(b, rows[b], ring);
      if plaintext.None? {
        return None;
      }
      var sealed := Seal(plaintext.value, ContextOf(b, rows[b]), active, iv);
      if sealed.None? {
        return None;
      }
      var size := SerializedSize(sealed.value);
      change := Some(size - rows[b].storedBytes);
      ReplaceStored(rows, b, sealed.value, size);
      rows := rows[b := rows[b].(envelope := sealed.value, storedBytes := size)];
    }

    /** The update loop of a rotation; None leaves the table for the caller to roll back. */
    method ResealAll(picked: set<Binding>, active: NamedKey, ring: Keyring, draw: map<Binding, nat>)
        returns (delta: Option<int>)
      requires picked <= rows.Keys
      modifies this
      ensures delta.Some? ==>
                && (picked == {} || ValidKeyId(active.keyId))
                && (forall b :: b in picked ==> OpenRow(b, old(rows)[b], ring).Some?)
                && rows == Resealed(old(rows), picked, active, draw)
                && delta.value == Total(Stored(rows)) - Total(Stored(old(rows)))
      ensures delta.None? ==>
                && picked != {}
                && (ValidKeyId(active.keyId) ==> exists b :: b in picked && OpenRow(b, old(rows)[b], ring).None?)
    {
      hide OpenRow, ValidKeyId, Reseal, Progress, Resealed, Stored, Total;
      ghost var done := {};
      var sum := 0;
      var rest := picked;
      NoProgress(rows, active, ring, draw);
      while rest != {}
        invariant done + rest == picked && done !! rest
        invariant Progress(old(rows), rows, done, sum, active, ring, draw)
        decreases |rest|
      {
        var b :| b in rest;
        NextProgress(old(rows), rows, done, sum, b, active, ring, draw);
        var change := ResealRow(b, active, ring, Drawn(draw, b));
        if change.None? {
          return None;
        }
        sum := sum + change.value;
        done, rest := done + {b}, rest - {b};
      }
      assert done == picked;
      delta := Some(sum);
      DoneProgress(old(rows), rows, picked, sum, active, ring, draw);
    }

    method RotateBatch(scope: Scope, limit: nat, rank: Binding -> int, active: NamedKey, ring: Keyring,
        draw: map<Binding, nat>)
      returns (reply: Reply<nat>, picked: set<Binding>)
      modifies this
      ensures limit < 1 || limit > 100 ==> reply == Denied && rows == old(rows)
      ensures 1 <= limit <= 100 ==>
                && FirstOf(picked, Stale(old(rows), scope, active.keyId), limit, rank)
                && (rows, reply) == RotateSpec(old(rows), limits.maxStoredBytes, picked, active, ring, draw)
    {
      picked := {};
      if limit < 1 || limit > 100 {
        return Denied, picked;
      }
      var begun := rows;
      picked := SelectFirst(Stale(rows, scope, active.keyId), limit, rank);
      assert picked <= rows.Keys;
      hide OpenRow, ValidKeyId, Resealed, Stale, FirstOf;
      var delta := ResealAll(picked, active, ring, draw);
      if delta.None? {
        rows := begun;
        return Denied, picked;
      }
      if delta.value > 0 {
        var used := Sum(Stored(rows));
        if used > limits.maxStoredBytes {
          rows := begun;
          return Denied, picked;
        }
      }
      reply := Done(|picked|);
    }

    method PurgeExpired(scope: Scope, limit: nat, execute: bool, rank: Binding -> int, now: Time)
      returns (reply: Reply<nat>, picked: set<Binding>)
      modifies this
      ensures limit < 1 || limit > 100 ==> reply == Denied && rows == old(rows)
      ensures 1 <= limit <= 100 ==>
                && FirstOf(picked, Lapsed(old(rows), scope, now), limit, rank)
                && reply == Done(|picked|)
                && rows == if execute then old(rows) - picked else old(rows)
    {
      picked := {};
      if limit < 1 || limit > 100 {
        return Denied, picked;
      }
      picked := SelectFirst(Lapsed(rows, scope, now), limit, rank);
      if execute {
        var rest := picked;
        while rest != {}
          invariant rest <= picked && rows == old(rows) - (picked - rest)
          decreases |rest|
        {
          var b :| b in rest;
          if rows[b].expiresAt <= now {
            rows := rows - {b};
          }
          rest := rest - {b};
        }
      }
      reply := Done(|picked|);
    }
  }

  /** The rows in `done` have been resealed, for a total change of `sum` bytes. */
  ghost predicate Progress(begun: Rows, rows: Rows, done: set<Binding>, sum: int, active: NamedKey, ring: Keyring,
      draw: map<Binding, nat>) {
    && done <= begun.Keys
    && rows == Resealed(begun, done, active, draw)
    && sum == Total(Stored(rows)) - Total(Stored(begun))
    && (done == {} || ValidKeyId(active.keyId))
    && forall b :: b in done ==> OpenRow(b, begun[b], ring).Some?
  }

  lemma NoProgress(rows: Rows, active: NamedKey, ring: Keyring, draw: map<Binding, nat>)
    ensures Progress(rows, rows, {}, 0, active, ring, draw)
  {
    assert Resealed(rows, {}, active, draw) == rows;
  }

  lemma NextProgress(begun: Rows, rows: Rows, done: set<Binding>, sum: int, b: Binding, active: NamedKey, ring: Keyring,
      draw: map<Binding, nat>)
    requires Progress(begun, rows, done, sum, active, ring, draw) && b in begun && b !in done
    ensures b in rows && rows[b] == begun[b]
    ensures var next := rows[b := Reseal(rows[b], active, Drawn(draw, b))];
      OpenRow(b, rows[b], ring).Some? && ValidKeyId(active.keyId)
      ==> Progress(begun, next, done + {b}, sum + Total(Stored(next)) - Total(Stored(rows)), active, ring, draw)
  {
    hide OpenRow, ValidKeyId, Reseal;
    assert rows[b := Reseal(rows[b], active, Drawn(draw, b))] == Resealed(begun, done + {b}, active, draw);
  }

  lemma DoneProgress(begun: Rows, rows: Rows, done: set<Binding>, sum: int, active: NamedKey, ring: Keyring,
      draw: map<Binding, nat>)
    requires Progress(begun, rows, done, sum, active, ring, draw)
    ensures done == {} || ValidKeyId(active.keyId)
    ensures forall b :: b in done ==> OpenRow(b, begun[b], ring).Some?
    ensures rows == Resealed(begun, done, active, draw)
    ensures sum == Total(Stored(rows)) - Total(Stored(begun))
  {
  }

  lemma ReplaceStored(rows: Rows, b: Binding, e: Envelope, size: nat)
    requires b in rows
    ensures Total(Stored(rows[b := rows[b].(envelope := e, storedBytes := size)]))
        == Total(Stored(rows)) + size - rows[b].storedBytes
  {
    TotalReplace(Stored(rows), b, size);
    assert Stored(rows[b := rows[b].(envelope := e, storedBytes := size)]) == Stored(rows)[b := size];
  }
}
