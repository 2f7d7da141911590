/** Small shared vocabulary: optional values and sums over finite maps. */
module Basics {

  datatype Option<+T> = None | Some(value: T)

  function Coalesce<T>(first: Option<T>, fallback: T): Option<T> {
    if first.Some? then first else Some(fallback)
  }

  function Min(a: int, b: int): int {
    if a <= b then a else b
  }

  function Max(a: int, b: int): int {
    if a <= b then b else a
  }

  /** Job ids are positive and fit 128 bits. */
  predicate ValidJobId(jobId: nat) {
    1 <= jobId < 0x1_0000_0000_0000_0000_0000_0000_0000_0000
  }

  lemma SubsetSize<T>(a: set<T>, b: set<T>)
    requires a <= b
    ensures |a| <= |b|
  {
    assert b == a + (b - a);
  }
}

/** Bytes and their SHA-256 digest, taken to be collision free. */
module Hashing {

  type Bytes = seq<bv8>

  datatype Digest = Sha256(of: Bytes)
}

/** Totals over finite maps, independent of the order in which keys are visited. */
module Totals {

  ghost function Total<K>(m: map<K, nat>): nat
    decreases |m|
  {
    if m == map[] then 0 else
      var k :| k in m;
      m[k] + Total(m - {k})
  }

  lemma {:induction false} TotalSplit<K>(m: map<K, nat>, k: K)
    requires k in m
    ensures Total(m) == m[k] + Total(m - {k})
    decreases |m|
  {
    var j :| j in m && Total(m) == m[j] + Total(m - {j});
    if j != k {
      TotalSplit(m - {j}, k);
      TotalSplit(m - {k}, j);
      assert (m - {j}) - {k} == (m - {k}) - {j};
    }
  }

  lemma TotalInsert<K>(m: map<K, nat>, k: K, v: nat)
    requires k !in m
    ensures Total(m[k := v]) == Total(m) + v
  {
    TotalSplit(m[k := v], k);
    assert m[k := v] - {k} == m;
  }

  lemma TotalReplace<K>(m: map<K, nat>, k: K, v: nat)
    requires k in m
    ensures Total(m[k := v]) == Total(m) - m[k] + v
  {
    TotalSplit(m, k);
    TotalSplit(m[k := v], k);
    assert m[k := v] - {k} == m - {k};
  }

  /** Adds the values up one key at a time. */
  method Sum<K(==)>(m: map<K, nat>) returns (n: nat)
    ensures n == Total(m)
  {
    n := 0;
    var rest := m;
    while rest != map[]
      invariant n + Total(rest) == Total(m)
      decreases |rest|
    {
      var k :| k in rest;
      TotalSplit(rest, k);
      n := n + rest[k];
      rest := rest - {k};
    }
  }

  /** A restriction of a map never totals more than the map. */
  lemma {:induction false} TotalSubmap<K>(small: map<K, nat>, big: map<K, nat>)
    requires forall k :: k in small ==> k in big && big[k] == small[k]
    ensures Total(small) <= Total(big)
    decreases |small|
  {
    if small == map[] {
    } else {
      var k :| k in small;
      TotalSplit(small, k);
      TotalSplit(big, k);
      TotalSubmap(small - {k}, big - {k});
    }
  }

  /** Renaming the keys of a map one-to-one leaves its total unchanged. */
  lemma {:induction false} TotalRename<K, L>(m: map<K, nat>, rename: map<K, L>, n: map<L, nat>)
    requires rename.Keys == m.Keys
    requires forall j, k :: j in rename && k in rename && rename[j] == rename[k] ==> j == k
    requires forall k :: k in m ==> rename[k] in n && n[rename[k]] == m[k]
    requires forall l :: l in n ==> exists k :: k in rename && rename[k] == l
    ensures Total(m) == Total(n)
    decreases |m|
  {
    if m == map[] {
      assert n == map[];
    } else {
      var k :| k in m;
      TotalSplit(m, k);
      TotalSplit(n, rename[k]);
      var rest := rename - {k};
      forall l | l in n - {rename[k]}
        ensures exists j :: j in rest && rest[j] == l
      {
        var j :| j in rename && rename[j] == l;
        assert j in rest && rest[j] == l;
      }
      TotalRename(m - {k}, rest, n - {rename[k]});
    }
  }
}
