/** Who may put and read encrypted evidence, and which rows maintenance picks, said in the table's own columns. */
module VaultDecisions {
  import opened Basics
  import opened Hashing
  import opened Totals
  import opened Vault

  /* ---------- the terms ---------- */

  /** Of the two types, one to 8192 bytes, for a positive job id of 128 bits. */
  predicate Acceptable(c: Context) {
    && c.mediaType in {"text/plain", "application/json"} && 1 <= c.sizeBytes <= 8192
    && 0 < c.binding.jobId < 0x1_0000_0000_0000_0000_0000_0000_0000_0000
  }

  /** One to 64 letters, digits, underscores and hyphens. */
  predicate KeyIdSpelled(keyId: string) {
    && keyId != [] && |keyId| <= 64
    && forall i :: 0 <= i < |keyId| ==>
         || 'a' <= keyId[i] <= 'z' || 'A' <= keyId[i] <= 'Z' || '0' <= keyId[i] <= '9'
         || keyId[i] == '_' || keyId[i] == '-'
  }

  /** The rows of one job. */
  ghost function OfJob(rows: Rows, network: string, contract: string, jobId: nat): set<Binding> {
    set b | b in rows && b.network == network && b.contract == contract && b.jobId == jobId
  }

  ghost function PlainSizes(rows: Rows, ids: set<Binding>): map<Binding, nat>
    requires ids <= rows.Keys
  {
    map b | b in ids :: rows[b].sizeBytes
  }

  ghost function PlainBytes(rows: Rows, ids: set<Binding>): nat
    requires ids <= rows.Keys
  {
    Total(PlainSizes(rows, ids))
  }

  /** At most five records of 16000 bytes in all for every job there is. */
  ghost predicate JobsBounded(rows: Rows) {
    forall network, contract, jobId ::
      && |OfJob(rows, network, contract, jobId)| <= 5
      && PlainBytes(rows, OfJob(rows, network, contract, jobId)) <= 16000
  }

  lemma JobSizesAre(rows: Rows, b: Binding)
    ensures var ids := OfJob(rows, b.network, b.contract, b.jobId);
      |JobSizes(rows, b)| == |ids| && Total(JobSizes(rows, b)) == PlainBytes(rows, ids)
  {
    var ids := OfJob(rows, b.network, b.contract, b.jobId);
    assert JobSizes(rows, b) == PlainSizes(rows, ids);
    assert JobSizes(rows, b).Keys == ids;
  }

  lemma JobsAreBounded(rows: Rows, limits: Limits, keys: Keyring)
    requires Inv(rows, limits, keys)
    ensures JobsBounded(rows)
  {
    hide RowsOk, JobSizes, PlainBytes;
    forall network, contract, jobId
      ensures |OfJob(rows, network, contract, jobId)| <= 5
      ensures PlainBytes(rows, OfJob(rows, network, contract, jobId)) <= 16000
    {
      var b := Binding(network, contract, jobId, "", Sha256([]));
      assert WithinJob(rows, b);
      JobSizesAre(rows, b);
    }
  }

  /** In every run of puts, rotations and purges every job keeps to its bounds. */
  lemma JobsStayBounded(s: State, es: seq<Event>, limits: Limits, keys: Keyring, rank: Binding -> int)
    requires Inv(s.rows, limits, keys) && Run(s, es, limits, keys, rank)
    ensures JobsBounded(Final(s, es, limits).rows)
    ensures |Final(s, es, limits).rows| <= limits.maxRecords
  {
    hide Inv, Run, Final;
    CapacityHoldsInEveryRun(s, es, limits, keys, rank);
    JobsAreBounded(Final(s, es, limits).rows, limits, keys);
    CountBounded(Final(s, es, limits).rows, limits, keys);
  }

  lemma CountBounded(rows: Rows, limits: Limits, keys: Keyring)
    requires Inv(rows, limits, keys)
    ensures |rows| <= limits.maxRecords
  {
  }

  /* ---------- reading ---------- */

  /** A row of a reachable table opens for its own context under any keyring that knows its key. */
  lemma OpensIff(rows: Rows, limits: Limits, keys: Keyring, ring: Keyring, b: Binding)
    requires Inv(rows, limits, keys) && Trusted(ring, keys) && b in rows
    ensures OpenRow(b, rows[b], ring).Some? <==> rows[b].envelope.keyId in ring
    ensures OpenRow(b, rows[b], ring).Some? ==> OpenRow(b, rows[b], ring).value == rows[b].envelope.plaintext
    ensures |rows[b].envelope.plaintext| == rows[b].sizeBytes && Sha256(rows[b].envelope.plaintext) == b.sha256
    ensures Acceptable(Context(b, rows[b].mediaType, rows[b].sizeBytes))
  {
    hide WithinLimits, WithinJob, ValidKeyId, SerializedSize;
    assert RowOk(b, rows[b], keys);
  }

  /** Evidence is read exactly by an authorised caller who names an unexpired row's binding, type and size, while its
      key is known; what is read has that size and the binding's digest. */
  lemma ReadIff(rows: Rows, limits: Limits, keys: Keyring, ring: Keyring, c: Context, authorized: bool, now: Time)
    requires Inv(rows, limits, keys) && Trusted(ring, keys)
    ensures var r := Get(rows, c, ring, authorized, now);
      && (r.Done? <==>
            && authorized && c.binding in rows && now < rows[c.binding].expiresAt
            && rows[c.binding].mediaType == c.mediaType && rows[c.binding].sizeBytes == c.sizeBytes
            && rows[c.binding].envelope.keyId in ring)
      && (r.Done? ==>
            && r.value == rows[c.binding].envelope.plaintext
            && |r.value| == c.sizeBytes && Sha256(r.value) == c.binding.sha256)
  {
    if c.binding in rows {
      OpensIff(rows, limits, keys, ring, c.binding);
    }
    hide Inv, OpenRow, Trusted;
  }

  /* ---------- writing ---------- */

  /** The caller may write these bytes: the context is acceptable and says what they are, and the active key has a name
      the column takes. */
  predicate Writable(p: PutCall) {
    && Acceptable(p.context) && p.authorizedFirst && KeyIdSpelled(p.active.keyId)
    && |p.bytes| == p.context.sizeBytes && Sha256(p.bytes) == p.context.binding.sha256
  }

  /** Length of the stored JSON: 113 characters, the key id, and four for every three bytes begun. */
  function StoredLength(p: PutCall): nat {
    113 + |p.active.keyId| + (|p.bytes| + 2) / 3 * 4
  }

  /** What is not yet stored is created exactly when it fits the table and its job. */
  lemma CreatedIff(rows: Rows, limits: Limits, p: PutCall, now: Time)
    requires p.context.binding !in rows
    ensures var out, b := PutSpec(rows, limits, p, now), p.context.binding;
      && (out.1.Done? <==>
            && Writable(p) && p.authorizedAgain
            && |rows| + 1 <= limits.maxRecords && Total(Stored(rows)) + StoredLength(p) <= limits.maxStoredBytes
            && |OfJob(rows, b.network, b.contract, b.jobId)| + 1 <= 5
            && PlainBytes(rows, OfJob(rows, b.network, b.contract, b.jobId)) + p.context.sizeBytes <= 16000)
      && (out.1.Denied? ==> out.0 == rows)
      && (out.1.Done? ==>
            && out.1.value == Vault.Put(now + 1000 * limits.retentionSeconds, true)
            && out.0 == rows[b := Row(p.context.mediaType, p.context.sizeBytes,
                 Sealed(p.active.keyId, p.active.key, p.iv, p.context, p.bytes), StoredLength(p),
                 now + 1000 * limits.retentionSeconds)])
  {
    JobSizesAre(rows, p.context.binding);
    KeyIdsAre(p.active.keyId);
    hide OfJob, PlainBytes, JobSizes, Stored, Total, ValidKeyId, KeyIdSpelled;
  }

  lemma KeyIdsAre(keyId: string)
    ensures ValidKeyId(keyId) <==> KeyIdSpelled(keyId)
  {
    if ValidKeyId(keyId) {
      forall i | 0 <= i < |keyId| ensures keyId[i] in keyId {
      }
    }
    if KeyIdSpelled(keyId) {
      forall c | c in keyId ensures 'a' <= c <= 'z' || 'A' <= c <= 'Z' || '0' <= c <= '9' || c == '_' || c == '-' {
        var i :| 0 <= i < |keyId| && keyId[i] == c;
      }
    }
  }

  /** What is stored already is never written again: a retry is told the original expiry exactly while the row is
      unexpired, of the same type and size, and its key is known. */
  lemma RetriedIff(rows: Rows, limits: Limits, keys: Keyring, p: PutCall, now: Time)
    requires Inv(rows, limits, keys) && Trusted(p.ring, keys) && p.context.binding in rows
    ensures var out, row := PutSpec(rows, limits, p, now), rows[p.context.binding];
      && out.0 == rows
      && (out.1.Done? <==>
            && Writable(p) && p.authorizedAgain && now < row.expiresAt
            && row.mediaType == p.context.mediaType && row.sizeBytes == p.context.sizeBytes
            && row.envelope.keyId in p.ring)
      && (out.1.Done? ==> out.1.value == Vault.Put(row.expiresAt, false))
  {
    OpensIff(rows, limits, keys, p.ring, p.context.binding);
    KeyIdsAre(p.active.keyId);
    hide Inv, OpenRow, Trusted, ValidKeyId, KeyIdSpelled, RoomFor;
  }

  /* ---------- maintenance ---------- */

  /** Rows of the scope that another key sealed. */
  ghost function UnderOtherKeys(rows: Rows, scope: Scope, keyId: string): set<Binding> {
    set b | b in rows && b.network == scope.network && b.contract in scope.contracts
            && rows[b].envelope.keyId != keyId
  }

  ghost function ExpiredRows(rows: Rows, scope: Scope, now: Time): set<Binding> {
    set b | b in rows && b.network == scope.network && b.contract in scope.contracts && rows[b].expiresAt <= now
  }

  /** As many as the limit allows, and nothing left that comes before any of them. */
  ghost predicate TakesFirst(all: set<Binding>, taken: set<Binding>, limit: nat, rank: Binding -> int) {
    && taken <= all && |taken| == Min(limit, |all|)
    && forall p, q :: p in taken && q in all - taken ==> rank(p) <= rank(q)
  }

  /** Maintenance looks at rows of its network and contracts only: a rotation at those another key sealed, a purge at
      those that have expired. */
  lemma PickedInScope(rows: Rows, scope: Scope, keyId: string, now: Time, limit: nat, rank: Binding -> int,
      picked: set<Binding>)
    ensures FirstOf(picked, Stale(rows, scope, keyId), limit, rank) <==>
            TakesFirst(UnderOtherKeys(rows, scope, keyId), picked, limit, rank)
    ensures FirstOf(picked, Lapsed(rows, scope, now), limit, rank) <==>
            TakesFirst(ExpiredRows(rows, scope, now), picked, limit, rank)
  {
    assert Stale(rows, scope, keyId) == UnderOtherKeys(rows, scope, keyId);
    assert Lapsed(rows, scope, now) == ExpiredRows(rows, scope, now);
  }
}
