/** The encrypted evidence table: capped inserts, expiry, and key rotation in bounded batches. */
module Vault {
  import opened Basics
  import opened Hashing
  import opened Totals

  type Time = nat
  datatype Binding = Binding(network: string, contract: string, jobId: nat, provider: string, sha256: Digest)

  datatype Context = Context(binding: Binding, mediaType: string, sizeBytes: nat)

  datatype NamedKey = NamedKey(keyId: string, key: nat)

  /** AES-256-GCM with the context and key id as additional data: opens only under exactly what sealed it. */
  datatype Envelope = Sealed(keyId: string, key: nat, iv: nat, context: Context, plaintext: Bytes)

  datatype Row = Row(mediaType: string, sizeBytes: nat, envelope: Envelope, storedBytes: nat, expiresAt: Time)

  type Rows = map<Binding, Row>

  type Keyring = map<string, nat>

  datatype Limits = Limits(maxStoredBytes: nat, maxRecords: nat, retentionSeconds: nat)

  datatype Scope = Scope(network: string, contracts: set<string>)

  datatype Reply<+T> = Done(value: T) | Denied

  const JOB_RECORDS := 5
  const JOB_BYTES := 16000

  /* ---------- sealing ---------- */

  predicate ValidKeyId(keyId: string) {
    && 1 <= |keyId| <= 64
    && forall c :: c in keyId ==> 'a' <= c <= 'z' || 'A' <= c <= 'Z' || '0' <= c <= '9' || c == '_' || c == '-'
  }

  predicate Genuine(bytes: Bytes, c: Context) {
    |bytes| == c.sizeBytes && Sha256(bytes) == c.binding.sha256
  }

  function Seal(bytes: Bytes, c: Context, active: NamedKey, iv: nat): Option<Envelope> {
    if ValidKeyId(active.keyId) && Genuine(bytes, c) then Some(Sealed(active.keyId, active.key, iv, c, bytes)) else None
  }

  function Open(e: Envelope, c: Context, key: nat): Option<Bytes> {
    if e.key == key && e.context == c && Genuine(e.plaintext, c) then Some(e.plaintext) else None
  }

  /** Length of the JSON text: fixed fields, the key id, and base64 of the ciphertext. */
  function SerializedSize(e: Envelope): nat {
    113 + |e.keyId| + 4 * ((|e.plaintext| + 2) / 3)
  }

  function ContextOf(b: Binding, row: Row): Context {
    Context(b, row.mediaType, row.sizeBytes)
  }

  function OpenRow(b: Binding, row: Row, ring: Keyring): Option<Bytes> {
    if row.envelope.keyId in ring then Open(row.envelope, ContextOf(b, row), ring[row.envelope.keyId]) else None
  }

  /* ---------- usage ---------- */

  function Stored(rows: Rows): map<Binding, nat> {
    map b | b in rows :: rows[b].storedBytes
  }

  predicate SameJob(a: Binding, b: Binding) {
    a.network == b.network && a.contract == b.contract && a.jobId == b.jobId
  }

  function JobSizes(rows: Rows, b: Binding): map<Binding, nat> {
    map k | k in rows && SameJob(k, b) :: rows[k].sizeBytes
  }

  /* ---------- put and get ---------- */

  datatype PutCall = PutCall(context: Context, bytes: Bytes, active: NamedKey, ring: Keyring, iv: nat,
                             authorizedFirst: bool, authorizedAgain: bool)

  datatype Put = Put(expiresAt: Time, created: bool)

  ghost predicate RoomFor(rows: Rows, limits: Limits, c: Context, size: nat) {
    && |rows| < limits.maxRecords
    && Total(Stored(rows)) + size <= limits.maxStoredBytes
    && |JobSizes(rows, c.binding)| < JOB_RECORDS
    && Total(JobSizes(rows, c.binding)) + c.sizeBytes <= JOB_BYTES
  }

  predicate ValidContext(c: Context) {
    && 1 <= c.sizeBytes <= 8192 && (c.mediaType == "text/plain" || c.mediaType == "application/json")
    && ValidJobId(c.binding.jobId)
  }

  function NewRow(c: Context, e: Envelope, limits: Limits, now: Time): Row {
    Row(c.mediaType, c.sizeBytes, e, SerializedSize(e), now + 1000 * limits.retentionSeconds)
  }

  predicate Retryable(row: Row, p: PutCall, now: Time) {
    && now < row.expiresAt && row.mediaType == p.context.mediaType && row.sizeBytes == p.context.sizeBytes
    && OpenRow(p.context.binding, row, p.ring).Some?
    && p.authorizedAgain
  }

  ghost function PutSpec(rows: Rows, limits: Limits, p: PutCall, now: Time): (Rows, Reply<Put>) {
    var b := p.context.binding;
    var sealed := Seal(p.bytes, p.context, p.active, p.iv);
    if !ValidContext(p.context) || !p.authorizedFirst || sealed.None? then (rows, Denied)
    else if b in rows then
      (rows, if Retryable(rows[b], p, now) then Done(Put(rows[b].expiresAt, false)) else Denied)
    else if RoomFor(rows, limits, p.context, SerializedSize(sealed.value)) && p.authorizedAgain then
      var row := NewRow(p.context, sealed.value, limits, now);
      (rows[b := row], Done(Put(row.expiresAt, true)))
    else (rows, Denied)
  }

  function Get(rows: Rows, c: Context, ring: Keyring, authorized: bool, now: Time): Reply<Bytes> {
    if !ValidContext(c) || !authorized || c.binding !in rows || rows[c.binding].expiresAt <= now
       || rows[c.binding].mediaType != c.mediaType || rows[c.binding].sizeBytes != c.sizeBytes
       || OpenRow(c.binding, rows[c.binding], ring).None? then Denied
    else Done(OpenRow(c.binding, rows[c.binding], ring).value)
  }

  /* ---------- rotation and expiry ---------- */

  predicate InScope(b: Binding, scope: Scope) {
    b.network == scope.network && b.contract in scope.contracts
  }

  function Stale(rows: Rows, scope: Scope, keyId: string): set<Binding> {
    set b | b in rows && InScope(b, scope) && rows[b].envelope.keyId != keyId
  }

  function Lapsed(rows: Rows, scope: Scope, now: Time): set<Binding> {
    set b | b in rows && InScope(b, scope) && rows[b].expiresAt <= now
  }

  /** What ORDER BY ... LIMIT picks: as many as allowed, none of them after one that is left. */
  predicate FirstOf(picked: set<Binding>, all: set<Binding>, limit: nat, rank: Binding -> int) {
    && picked <= all
    && |picked| == Min(limit, |all|)
    && forall p, q :: p in picked && q in all && q !in picked ==> rank(p) <= rank(q)
  }

  function Reseal(row: Row, active: NamedKey, iv: nat): Row {
    var e := Sealed(active.keyId, active.key, iv, row.envelope.context, row.envelope.plaintext);
    row.(envelope := e, storedBytes := SerializedSize(e))
  }

  /** The random IV drawn for a row. */
  function Drawn(draw: map<Binding, nat>, b: Binding): nat {
    if b in draw then draw[b] else 0
  }

  function Resealed(rows: Rows, picked: set<Binding>, active: NamedKey, draw: map<Binding, nat>): Rows {
    map b | b in rows :: if b in picked then Reseal(rows[b], active, Drawn(draw, b)) else rows[b]
  }

  /** One rotation transaction over the picked rows: all of them are resealed, or nothing changes. */
  ghost function RotateSpec(rows: Rows, cap: nat, picked: set<Binding>, active: NamedKey, ring: Keyring,
      draw: map<Binding, nat>)
    : (Rows, Reply<nat>)
  {
    var next := Resealed(rows, picked, active, draw);
    if picked != {} && !ValidKeyId(active.keyId) then (rows, Denied)
    else if exists b :: b in picked && b in rows && OpenRow(b, rows[b], ring).None? then (rows, Denied)
    else if Total(Stored(next)) > Total(Stored(rows)) && Total(Stored(next)) > cap then (rows, Denied)
    else (next, Done(|picked|))
  }

  /* ---------- what always holds ---------- */

  predicate RowOk(b: Binding, row: Row, keys: Keyring) {
    && ValidContext(ContextOf(b, row))
    && ValidKeyId(row.envelope.keyId)
    && row.envelope.keyId in keys && row.envelope.key == keys[row.envelope.keyId]
    && row.envelope.context == ContextOf(b, row)
    && Genuine(row.envelope.plaintext, ContextOf(b, row))
    && row.storedBytes == SerializedSize(row.envelope)
  }

  predicate RowsOk(rows: Rows, keys: Keyring) {
    forall b :: b in rows ==> RowOk(b, rows[b], keys)
  }

  ghost predicate WithinLimits(rows: Rows, limits: Limits) {
    && |rows| <= limits.maxRecords
    && Total(Stored(rows)) <= limits.maxStoredBytes
  }

  ghost predicate WithinJob(rows: Rows, b: Binding) {
    |JobSizes(rows, b)| <= JOB_RECORDS && Total(JobSizes(rows, b)) <= JOB_BYTES
  }

  ghost predicate Inv(rows: Rows, limits: Limits, keys: Keyring) {
    RowsOk(rows, keys) && WithinLimits(rows, limits) && forall b :: WithinJob(rows, b)
  }

  /** A process's keyring holds only true keys, and its active key is one of them. */
  predicate Trusted(ring: Keyring, keys: Keyring) {
    forall k :: k in ring ==> k in keys && keys[k] == ring[k]
  }

  predicate TrustedKey(active: NamedKey, keys: Keyring) {
    active.keyId in keys && keys[active.keyId] == active.key
  }

  /** The column's own size check can never refuse an envelope. */
  lemma StoredSizeFitsColumn(b: Binding, row: Row, keys: Keyring)
    requires RowOk(b, row, keys)
    ensures 1 <= row.storedBytes <= 12000
  {
  }

  lemma InsertKeepsJob(rows: Rows, b: Binding, row: Row, k: Binding)
    requires b !in rows && WithinJob(rows, k)
    requires |JobSizes(rows, b)| < JOB_RECORDS && Total(JobSizes(rows, b)) + row.sizeBytes <= JOB_BYTES
    ensures WithinJob(rows[b := row], k)
  {
    if SameJob(b, k) {
      assert JobSizes(rows, k) == JobSizes(rows, b);
      assert JobSizes(rows[b := row], k) == JobSizes(rows, k)[b := row.sizeBytes];
      TotalInsert(JobSizes(rows, k), b, row.sizeBytes);
    } else {
      assert JobSizes(rows[b := row], k) == JobSizes(rows, k);
    }
  }

  lemma StoredInsert(rows: Rows, b: Binding, row: Row)
    requires b !in rows
    ensures Total(Stored(rows[b := row])) == Total(Stored(rows)) + row.storedBytes
  {
    assert Stored(rows[b := row]) == Stored(rows)[b := row.storedBytes];
    TotalInsert(Stored(rows), b, row.storedBytes);
  }

  lemma InsertKeepsInv(rows: Rows, limits: Limits, keys: Keyring, c: Context, row: Row)
    requires Inv(rows, limits, keys) && c.binding !in rows && RowOk(c.binding, row, keys)
    requires RoomFor(rows, limits, c, row.storedBytes) && row.sizeBytes == c.sizeBytes
    ensures Inv(rows[c.binding := row], limits, keys)
  {
    hide WithinJob, RowOk, Stored, JobSizes, Total;
    var next := rows[c.binding := row];
    StoredInsert(rows, c.binding, row);
    assert |next| == |rows| + 1;
    forall k ensures WithinJob(next, k) {
      InsertKeepsJob(rows, c.binding, row, k);
    }
  }

  lemma PutKeepsInv(rows: Rows, limits: Limits, keys: Keyring, p: PutCall, now: Time)
    requires Inv(rows, limits, keys) && TrustedKey(p.active, keys)
    ensures Inv(PutSpec(rows, limits, p, now).0, limits, keys)
  {
    hide Inv, OpenRow, RoomFor, Retryable, ValidKeyId, ValidContext;
    var next := PutSpec(rows, limits, p, now).0;
    if next != rows {
      InsertKeepsInv(rows, limits, keys, p.context, next[p.context.binding]);
    }
  }

  lemma ResealKeepsRow(b: Binding, row: Row, keys: Keyring, active: NamedKey, iv: nat)
    requires RowOk(b, row, keys) && TrustedKey(active, keys) && ValidKeyId(active.keyId)
    ensures RowOk(b, Reseal(row, active, iv), keys)
    ensures OpenRow(b, Reseal(row, active, iv), keys) == OpenRow(b, row, keys)
  {
  }

  lemma RotateKeepsInv(rows: Rows, limits: Limits, keys: Keyring, picked: set<Binding>, active: NamedKey, ring: Keyring,
      draw: map<Binding, nat>)
    requires Inv(rows, limits, keys) && TrustedKey(active, keys) && picked <= rows.Keys
    ensures Inv(RotateSpec(rows, limits.maxStoredBytes, picked, active, ring, draw).0, limits, keys)
  {
    hide RowOk, ValidKeyId, OpenRow, TrustedKey;
    var next := RotateSpec(rows, limits.maxStoredBytes, picked, active, ring, draw).0;
    assert next.Keys == rows.Keys;
    forall b | b in next ensures RowOk(b, next[b], keys) {
      if b in picked && next != rows {
        ResealKeepsRow(b, rows[b], keys, active, Drawn(draw, b));
      }
    }
    forall b ensures WithinJob(next, b) {
      assert WithinJob(rows, b);
      assert JobSizes(next, b) == JobSizes(rows, b);
    }
    assert |next| == |rows| by {
      assert |next.Keys| == |rows.Keys|;
    }
  }

  lemma DeleteKeepsInv(rows: Rows, limits: Limits, keys: Keyring, gone: set<Binding>)
    requires Inv(rows, limits, keys)
    ensures Inv(rows - gone, limits, keys)
  {
    var next := rows - gone;
    TotalSubmap(Stored(next), Stored(rows));
    SmallerMap(next, rows);
    forall b ensures WithinJob(next, b) {
      assert WithinJob(rows, b);
      TotalSubmap(JobSizes(next, b), JobSizes(rows, b));
      SmallerMap(JobSizes(next, b), JobSizes(rows, b));
    }
  }

  lemma SmallerMap<K, V>(small: map<K, V>, big: map<K, V>)
    requires small.Keys <= big.Keys
    ensures |small| <= |big|
    decreases |small|
  {
    if small != map[] {
      var k :| k in small;
      SmallerMap(small - {k}, big - {k});
    }
  }

  /* ---------- runs ---------- */

  datatype Event =
    | Putting(call: PutCall)
    | Rotating(scope: Scope, limit: nat, active: NamedKey, ring: Keyring, draw: map<Binding, nat>, picked: set<Binding>)
    | Purging(scope: Scope, picked: set<Binding>)
    | Passing(ms: nat)

  datatype State = State(rows: Rows, now: Time)

  ghost predicate Enabled(s: State, e: Event, keys: Keyring, rank: Binding -> int) {
    match e
    case Putting(p) => Trusted(p.ring, keys) && TrustedKey(p.active, keys)
    case Rotating(scope, limit, active, ring, draw, picked) =>
      && Trusted(ring, keys) && TrustedKey(active, keys) && 1 <= limit <= 100
      && FirstOf(picked, Stale(s.rows, scope, active.keyId), limit, rank)
    case Purging(scope, picked) => picked <= Lapsed(s.rows, scope, s.now)
    case Passing(_) => true
  }

  ghost function Step(s: State, e: Event, limits: Limits): State {
    match e
    case Putting(p) => s.(rows := PutSpec(s.rows, limits, p, s.now).0)
    case Rotating(_, _, active, ring, draw, picked) =>
      s.(rows := RotateSpec(s.rows, limits.maxStoredBytes, picked, active, ring, draw).0)
    case Purging(_, picked) => s.(rows := s.rows - picked)
    case Passing(ms) => s.(now := s.now + ms)
  }

  ghost predicate Run(s: State, es: seq<Event>, limits: Limits, keys: Keyring, rank: Binding -> int)
    decreases |es|
  {
    es != [] ==> Enabled(s, es[0], keys, rank) && Run(Step(s, es[0], limits), es[1..], limits, keys, rank)
  }

  ghost function Final(s: State, es: seq<Event>, limits: Limits): State
    decreases |es|
  {
    if es == [] then s else Final(Step(s, es[0], limits), es[1..], limits)
  }

  /** What a record means to its readers. */
  predicate SameMeaning(before: Row, after: Row) {
    && after.envelope.plaintext == before.envelope.plaintext
    && after.mediaType == before.mediaType && after.sizeBytes == before.sizeBytes
    && after.expiresAt == before.expiresAt
  }

  predicate Kept(b: Binding, row: Row, s: State) {
    if b in s.rows then SameMeaning(row, s.rows[b]) else row.expiresAt <= s.now
  }

  lemma StepKeepsInv(s: State, e: Event, limits: Limits, keys: Keyring, rank: Binding -> int)
    requires Inv(s.rows, limits, keys) && Enabled(s, e, keys, rank)
    ensures Inv(Step(s, e, limits).rows, limits, keys)
  {
    hide Inv, PutSpec, RotateSpec, Trusted, TrustedKey;
    match e
    case Putting(p) => PutKeepsInv(s.rows, limits, keys, p, s.now);
    case Rotating(_, _, active, ring, draw, picked) => RotateKeepsInv(s.rows, limits, keys, picked, active, ring, draw);
    case Purging(_, picked) => DeleteKeepsInv(s.rows, limits, keys, picked);
    case Passing(_) =>
  }

  lemma StepKeepsMeaning(s: State, e: Event, limits: Limits, keys: Keyring, rank: Binding -> int, b: Binding)
    requires Enabled(s, e, keys, rank) && b in s.rows
    ensures Kept(b, s.rows[b], Step(s, e, limits))
  {
  }

  /** In every run of puts, rotations and purges sharing one cap, usage stays within every limit. */
  lemma {:induction false} CapacityHoldsInEveryRun(s: State, es: seq<Event>, limits: Limits, keys: Keyring,
      rank: Binding -> int)
    requires Inv(s.rows, limits, keys) && Run(s, es, limits, keys, rank)
    ensures Inv(Final(s, es, limits).rows, limits, keys)
    decreases |es|
  {
    hide Inv, Enabled, Step;
    if es != [] {
      StepKeepsInv(s, es[0], limits, keys, rank);
      CapacityHoldsInEveryRun(Step(s, es[0], limits), es[1..], limits, keys, rank);
    }
  }

  /** A record either keeps its plaintext and its expiry over the whole run, whatever keys it passed through,
      or its binding had expired before it could be purged. */
  lemma {:induction false} EvidenceKeepsItsMeaning(s: State, es: seq<Event>, limits: Limits, keys: Keyring,
      rank: Binding -> int, b: Binding, row: Row)
    requires Inv(s.rows, limits, keys) && Run(s, es, limits, keys, rank)
    requires b in s.rows && SameMeaning(row, s.rows[b])
    ensures var end := Final(s, es, limits);
      end.now < row.expiresAt ==> b in end.rows && SameMeaning(row, end.rows[b])
    decreases |es|
  {
    hide Inv, Enabled, Step;
    if es != [] {
      var next := Step(s, es[0], limits);
      StepKeepsInv(s, es[0], limits, keys, rank);
      StepKeepsMeaning(s, es[0], limits, keys, rank, b);
      if b in next.rows {
        EvidenceKeepsItsMeaning(next, es[1..], limits, keys, rank, b, row);
      } else {
        ClockOnlyAdvances(next, es[1..], limits);
      }
    }
  }

  lemma {:induction false} ClockOnlyAdvances(s: State, es: seq<Event>, limits: Limits)
    ensures s.now <= Final(s, es, limits).now
    decreases |es|
  {
    hide PutSpec, RotateSpec;
    if es != [] {
      ClockOnlyAdvances(Step(s, es[0], limits), es[1..], limits);
    }
  }

  /** What was put is what an authorised reader with the keys gets back, at any later moment of any run before
      expiry. */
  lemma PutThenGet(s: State, p: PutCall, es: seq<Event>, limits: Limits, keys: Keyring, rank: Binding -> int)
    requires Inv(s.rows, limits, keys) && Enabled(s, Putting(p), keys, rank)
    requires PutSpec(s.rows, limits, p, s.now).1.Done?
    requires Run(Step(s, Putting(p), limits), es, limits, keys, rank)
    ensures var end := Final(Step(s, Putting(p), limits), es, limits);
      end.now < PutSpec(s.rows, limits, p, s.now).1.value.expiresAt
      ==> Get(end.rows, p.context, keys, true, end.now) == Done(p.bytes)
  {
    var b := p.context.binding;
    var next := Step(s, Putting(p), limits);
    PutKeepsInv(s.rows, limits, keys, p, s.now);
    PutStores(s, p, limits, keys, rank);
    hide PutSpec, Step, Enabled, Inv, Run, Final;
    EvidenceKeepsItsMeaning(next, es, limits, keys, rank, b, next.rows[b]);
    CapacityHoldsInEveryRun(next, es, limits, keys, rank);
    var end := Final(next, es, limits);
    if end.now < next.rows[b].expiresAt {
      ReadBack(end.rows, limits, keys, p.context, end.now);
    }
  }

  lemma PutStores(s: State, p: PutCall, limits: Limits, keys: Keyring, rank: Binding -> int)
    requires Inv(s.rows, limits, keys) && Enabled(s, Putting(p), keys, rank)
    requires PutSpec(s.rows, limits, p, s.now).1.Done?
    ensures var next := Step(s, Putting(p), limits);
      && p.context.binding in next.rows && ValidContext(p.context)
      && ContextOf(p.context.binding, next.rows[p.context.binding]) == p.context
      && next.rows[p.context.binding].envelope.plaintext == p.bytes
      && next.rows[p.context.binding].expiresAt == PutSpec(s.rows, limits, p, s.now).1.value.expiresAt
  {
    if p.context.binding in s.rows {
      assert RowOk(p.context.binding, s.rows[p.context.binding], keys);
    }
  }

  lemma ReadBack(rows: Rows, limits: Limits, keys: Keyring, c: Context, now: Time)
    requires Inv(rows, limits, keys) && ValidContext(c)
    requires c.binding in rows && ContextOf(c.binding, rows[c.binding]) == c && now < rows[c.binding].expiresAt
    ensures Get(rows, c, keys, true, now) == Done(rows[c.binding].envelope.plaintext)
  {
    assert RowOk(c.binding, rows[c.binding], keys);
  }

  /* ---------- progress ---------- */

  /** A committed batch lowers the number of stale rows by exactly the smaller of the limit and what remained. */
  lemma BatchProgress(rows: Rows, scope: Scope, limit: nat, rank: Binding -> int, cap: nat, picked: set<Binding>,
      active: NamedKey, ring: Keyring, draw: map<Binding, nat>)
    requires FirstOf(picked, Stale(rows, scope, active.keyId), limit, rank)
    requires RotateSpec(rows, cap, picked, active, ring, draw).1.Done?
    ensures var stale := |Stale(rows, scope, active.keyId)|;
      && RotateSpec(rows, cap, picked, active, ring, draw).1 == Done(Min(limit, stale))
      && |Stale(RotateSpec(rows, cap, picked, active, ring, draw).0, scope, active.keyId)| == stale - Min(limit, stale)
  {
    var next := Resealed(rows, picked, active, draw);
    assert Stale(next, scope, active.keyId) == Stale(rows, scope, active.keyId) - picked;
  }

  /** A batch of readable rows commits exactly when it does not both grow the table and overrun the cap. */
  lemma BatchCommitsIff(rows: Rows, limits: Limits, keys: Keyring, picked: set<Binding>, active: NamedKey,
      draw: map<Binding, nat>)
    requires Inv(rows, limits, keys) && ValidKeyId(active.keyId) && picked <= rows.Keys
    ensures RotateSpec(rows, limits.maxStoredBytes, picked, active, keys, draw).1.Done?
            <==> Total(Stored(Resealed(rows, picked, active, draw))) <= limits.maxStoredBytes
  {
    assert forall b :: b in picked ==> RowOk(b, rows[b], keys);
  }

  /** Rotating to a key id no longer than the old ones never needs more room, so it is never refused. */
  lemma ShorterKeyIdAlwaysCommits(rows: Rows, limits: Limits, keys: Keyring, picked: set<Binding>, active: NamedKey,
      draw: map<Binding, nat>)
    requires Inv(rows, limits, keys) && ValidKeyId(active.keyId) && picked <= rows.Keys
    requires forall b :: b in picked ==> |active.keyId| <= |rows[b].envelope.keyId|
    ensures RotateSpec(rows, limits.maxStoredBytes, picked, active, keys, draw).1.Done?
  {
    var next := Resealed(rows, picked, active, draw);
    forall b | b in rows ensures Stored(next)[b] <= Stored(rows)[b] {
      assert RowOk(b, rows[b], keys);
    }
    TotalPointwise(Stored(next), Stored(rows));
    BatchCommitsIff(rows, limits, keys, picked, active, draw);
  }

  lemma {:induction false} TotalPointwise<K>(small: map<K, nat>, big: map<K, nat>)
    requires small.Keys == big.Keys && forall k :: k in small ==> small[k] <= big[k]
    ensures Total(small) <= Total(big)
    decreases |small|
  {
    if small == map[] {
      assert big == map[];
    } else {
      var k :| k in small;
      TotalSplit(small, k);
      TotalSplit(big, k);
      TotalPointwise(small - {k}, big - {k});
    }
  }

  /** No event other than a put under another key makes a row stale again. */
  predicate WritesOnly(e: Event, keyId: string) {
    match e
    case Putting(p) => p.active.keyId == keyId
    case Rotating(_, _, active, _, _, _) => active.keyId == keyId
    case _ => true
  }

  /** Committed batches of at least `limit` rows over this scope in the run. */
  ghost function Batches(s: State, es: seq<Event>, limits: Limits, scope: Scope, limit: nat): nat
    decreases |es|
  {
    if es == [] then 0
    else
      (if es[0].Rotating? && es[0].scope == scope && es[0].limit == limit && Committed(s, es[0], limits) then 1 else 0)
      + Batches(Step(s, es[0], limits), es[1..], limits, scope, limit)
  }

  ghost predicate Committed(s: State, e: Event, limits: Limits)
    requires e.Rotating?
  {
    RotateSpec(s.rows, limits.maxStoredBytes, e.picked, e.active, e.ring, e.draw).1.Done?
  }

  lemma StaleNeverGrows(s: State, e: Event, limits: Limits, keys: Keyring, rank: Binding -> int, scope: Scope,
      keyId: string)
    requires Enabled(s, e, keys, rank) && WritesOnly(e, keyId)
    ensures Stale(Step(s, e, limits).rows, scope, keyId) <= Stale(s.rows, scope, keyId)
  {
  }

  /** Rotation terminates: once writers have moved to the new key, k committed batches leave at most n - k*limit stale
      rows. */
  lemma {:induction false} RotationTerminates(s: State, es: seq<Event>, limits: Limits, keys: Keyring,
      rank: Binding -> int, scope: Scope, limit: nat, keyId: string)
    requires Run(s, es, limits, keys, rank) && forall i :: 0 <= i < |es| ==> WritesOnly(es[i], keyId)
    ensures |Stale(Final(s, es, limits).rows, scope, keyId)|
            <= Max(0, |Stale(s.rows, scope, keyId)| - Batches(s, es, limits, scope, limit) * limit)
    decreases |es|
  {
    hide Stale, Step, FirstOf, RotateSpec, Enabled, Committed;
    if es != [] {
      var e, next := es[0], Step(s, es[0], limits);
      RotationTerminates(next, es[1..], limits, keys, rank, scope, limit, keyId);
      StaleNeverGrows(s, e, limits, keys, rank, scope, keyId);
      SubsetSize(Stale(next.rows, scope, keyId), Stale(s.rows, scope, keyId));
      var k := Batches(next, es[1..], limits, scope, limit);
      var stale, after := |Stale(s.rows, scope, keyId)|, |Stale(next.rows, scope, keyId)|;
      if e.Rotating? && e.scope == scope && e.limit == limit && Committed(s, e, limits) {
        BatchStep(s, e, limits, keys, rank);
        Countdown(stale, after, k, limit);
      } else {
        assert Batches(s, es, limits, scope, limit) == k;
      }
    }
  }

  lemma Countdown(stale: nat, after: nat, k: nat, limit: nat)
    requires after == stale - Min(limit, stale)
    ensures Max(0, after - k * limit) <= Max(0, stale - (k + 1) * limit)
  {
    assert (k + 1) * limit == k * limit + limit;
  }

  lemma BatchStep(s: State, e: Event, limits: Limits, keys: Keyring, rank: Binding -> int)
    requires Enabled(s, e, keys, rank) && e.Rotating? && Committed(s, e, limits)
    ensures var stale := |Stale(s.rows, e.scope, e.active.keyId)|;
      |Stale(Step(s, e, limits).rows, e.scope, e.active.keyId)| == stale - Min(e.limit, stale)
  {
    BatchProgress(s.rows, e.scope, e.limit, rank, limits.maxStoredBytes, e.picked, e.active, e.ring, e.draw);
  }

  /* ---------- a refused rotation ---------- */

  const NOTE: Bytes := [0]
  const WALLET := "ST000000000000000000002AMW42H"
  const BINDING := Binding("testnet", WALLET + ".evidence", 1, WALLET, Sha256(NOTE))
  const OLD_KEY := NamedKey("a", 1)
  const NEW_KEY := NamedKey("ab", 2)
  const KEYS: Keyring := map["a" := 1, "ab" := 2]
  const TIGHT := Limits(118, 1, 600)
  const ONE_SCOPE := Scope("testnet", {WALLET + ".evidence"})

  const FIRST_PUT := PutCall(Context(BINDING, "text/plain", 1), NOTE, OLD_KEY, KEYS, 0, true, true)
  const FULL_ROW := NewRow(FIRST_PUT.context, Sealed("a", 1, 0, FIRST_PUT.context, NOTE), TIGHT, 0)
  const FULL := State(map[BINDING := FULL_ROW], 0)

  lemma PutFills(rank: Binding -> int)
    ensures Enabled(State(map[], 0), Putting(FIRST_PUT), KEYS, rank)
        && Step(State(map[], 0), Putting(FIRST_PUT), TIGHT) == FULL
    ensures Inv(FULL.rows, TIGHT, KEYS)
  {
    EmptyHolds();
    PutKeepsInv(map[], TIGHT, KEYS, FIRST_PUT, 0);
    hide Inv, RoomFor, Total;
  }

  lemma RotationOverflows(rank: Binding -> int)
    ensures var rotate := Rotating(ONE_SCOPE, 1, NEW_KEY, KEYS, map[], {BINDING});
      Enabled(FULL, rotate, KEYS, rank) && !Committed(FULL, rotate, TIGHT) && Step(FULL, rotate, TIGHT) == FULL
  {
    hide Total;
    OneRow(FULL_ROW);
    OneRow(Reseal(FULL_ROW, NEW_KEY, 0));
    assert Stale(FULL.rows, ONE_SCOPE, "ab") == {BINDING};
    assert Resealed(FULL.rows, {BINDING}, NEW_KEY, map[]) == map[BINDING := Reseal(FULL_ROW, NEW_KEY, 0)];
  }

  /** A put can fill the table to the last byte; rotation to a longer key id is then refused, and stays refused on every
      retry. */
  lemma RotationCanBeRefused(rank: Binding -> int) returns (es: seq<Event>, rotate: Event)
    ensures Run(State(map[], 0), es, TIGHT, KEYS, rank) && rotate.Rotating?
    ensures var s := Final(State(map[], 0), es, TIGHT);
      Inv(s.rows, TIGHT, KEYS) && Enabled(s, rotate, KEYS, rank) && !Committed(s, rotate, TIGHT)
          && Step(s, rotate, TIGHT) == s
  {
    hide Enabled, Step, Inv, Committed;
    PutFills(rank);
    RotationOverflows(rank);
    es := [Putting(FIRST_PUT)];
    assert es[1..] == [];
    assert Run(FULL, [], TIGHT, KEYS, rank) && Final(FULL, [], TIGHT) == FULL;
    rotate := Rotating(ONE_SCOPE, 1, NEW_KEY, KEYS, map[], {BINDING});
  }

  lemma EmptyHolds()
    ensures Inv(map[], TIGHT, KEYS) && RoomFor(map[], TIGHT, Context(BINDING, "text/plain", 1), 118)
  {
    var none: Rows := map[];
    assert Stored(none) == map[];
    forall b ensures JobSizes(none, b) == map[] {
    }
  }

  lemma OneRow(row: Row)
    ensures Total(Stored(map[BINDING := row])) == row.storedBytes
  {
    assert Stored(map[BINDING := row]) == map[BINDING := row.storedBytes];
    var none: map<Binding, nat> := map[];
    TotalInsert(none, BINDING, row.storedBytes);
    assert none[BINDING := row.storedBytes] == map[BINDING := row.storedBytes];
  }
}
