/** Evidence retention policy: the fixed periods, the backup manifest, its phases, and the recovery gate. */
module EvidencePolicy {
  import opened Basics
  import opened Hashing

  type Time = nat
  type Id = nat
  type Version = nat

  const RETENTION: nat := 2592000000
  const GRACE: nat := 604800000
  const UPLOAD: nat := 300000
  const SIGNING_SLACK: nat := 60000
  const MAX_TIMESTAMP: nat := 8640000000000000

  /** What the ledger trusts about the primary object; the key is the evidence id. */
  datatype Source = Source(key: Id, version: Version, sha256: Digest, sizeBytes: nat, mediaType: string,
      expiresAt: Time)

  /** `backupVersion` is None while it reads "pending". */
  datatype Manifest = Manifest(source: Source, backupKey: Id, backupVersion: Option<Version>, capturedAt: Time,
      deleteAt: Time)

  predicate ValidMedia(mediaType: string) {
    mediaType == "text/plain" || mediaType == "application/json"
  }

  predicate ValidManifest(m: Manifest) {
    && 1 <= m.source.sizeBytes <= 8192 && ValidMedia(m.source.mediaType)
    && m.backupKey == m.source.key
    && m.capturedAt < m.source.expiresAt && m.source.expiresAt - m.capturedAt <= RETENTION
    && m.deleteAt == m.source.expiresAt + GRACE && m.deleteAt <= MAX_TIMESTAMP
  }

  datatype Phase = Restorable | RetainedOnly | PurgeDue

  function PhaseOf(m: Manifest, now: Time): Option<Phase> {
    if !ValidManifest(m) || now < m.capturedAt then None
    else if now >= m.deleteAt then Some(PurgeDue)
    else if now >= m.source.expiresAt then Some(RetainedOnly)
    else Some(Restorable)
  }

  predicate BytesMatch(e: Source, bytes: Bytes) {
    |bytes| == e.sizeBytes && Sha256(bytes) == e.sha256
  }

  predicate VerifyRecovery(m: Manifest, bytes: Bytes, expected: Source, now: Time) {
    PhaseOf(m, now) == Some(Restorable) && m.source == expected && BytesMatch(m.source, bytes)
  }

  function PhaseRank(p: Phase): nat {
    match p case Restorable => 0 case RetainedOnly => 1 case PurgeDue => 2
  }

  /** A manifest only ever moves towards deletion, and always spends the whole grace period unreadable but kept. */
  lemma PhasesOnlyAdvance(m: Manifest, now: Time, later: Time)
    requires PhaseOf(m, now).Some? && now <= later
    ensures PhaseOf(m, later).Some? && PhaseRank(PhaseOf(m, now).value) <= PhaseRank(PhaseOf(m, later).value)
    ensures PhaseOf(m, now) == Some(Restorable) && later < now + GRACE ==> PhaseOf(m, later) != Some(PurgeDue)
  {
  }

  /** The clock alone decides the phase of a valid manifest: readable until the record expires, then kept for seven
      days, then due for deletion. */
  lemma PhaseIff(m: Manifest, now: Time)
    requires ValidManifest(m)
    ensures PhaseOf(m, now).None? <==> now < m.capturedAt
    ensures PhaseOf(m, now) == Some(Restorable) <==> m.capturedAt <= now < m.source.expiresAt
    ensures PhaseOf(m, now) == Some(RetainedOnly) <==> m.source.expiresAt <= now < m.source.expiresAt + 604800000
    ensures PhaseOf(m, now) == Some(PurgeDue) <==> m.source.expiresAt + 604800000 <= now
  {
  }

  /** Recovery is granted exactly before expiry, for bytes of the recorded size and digest, under a manifest of the
      ledger's own source whose key, capture time and deletion date are in order. */
  lemma RecoveryGrantedIff(m: Manifest, bytes: Bytes, expected: Source, now: Time)
    ensures VerifyRecovery(m, bytes, expected, now) <==>
            && m.source == expected && |bytes| == expected.sizeBytes && Sha256(bytes) == expected.sha256
            && 1 <= expected.sizeBytes <= 8192 && expected.mediaType in {"text/plain", "application/json"}
            && m.backupKey == expected.key
            && m.capturedAt <= now < expected.expiresAt <= m.capturedAt + 2592000000
            && m.deleteAt == expected.expiresAt + 604800000 <= 8640000000000000
  {
  }

  /** Recovery is granted for exactly one byte string, and only under the ledger's own record of it. */
  lemma RecoveryNamesOneObject(m: Manifest, n: Manifest, a: Bytes, b: Bytes, expected: Source, now: Time, later: Time)
    requires VerifyRecovery(m, a, expected, now) && VerifyRecovery(n, b, expected, later)
    ensures a == b && m.source == n.source && m.backupKey == n.backupKey && m.deleteAt == n.deleteAt
  {
  }
}
