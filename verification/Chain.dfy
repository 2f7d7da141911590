/** A chain that grows or replaces a bounded number of top blocks, and what a confirmation says about it. */
module Chain {
  import opened Basics
  import opened Reconciliation

  datatype Block = Block(hash: string, txids: set<string>)

  type Blocks = seq<Block>

  /** `b` follows `a` by growth or by replacing at most `depth` top blocks, never getting shorter. */
  ghost predicate Reorganised(a: Blocks, b: Blocks, depth: nat) {
    && |a| <= |b|
    && (forall i :: 0 <= i && i + depth < |a| ==> b[i] == a[i])
  }

  predicate Canonical(c: Blocks, height: nat, hash: string) {
    height < |c| && c[height].hash == hash
  }

  /** The block is canonical and lies below everything a reorganisation may replace. */
  predicate Buried(c: Blocks, height: nat, hash: string, depth: nat) {
    height + depth < |c| && c[height].hash == hash
  }

  lemma BuriedStays(a: Blocks, b: Blocks, height: nat, hash: string, depth: nat)
    requires Reorganised(a, b, depth) && Buried(a, height, hash, depth)
    ensures Buried(b, height, hash, depth)
  {
  }

  /** An answer about a mined transaction names the block of the chain that holds it. */
  predicate HonestTx(c: Blocks, txid: string, tx: TxResponse) {
    tx.TxResponse? && tx.body.Some? && tx.body.value.status == "success"
      && tx.body.value.blockHeight.Some? && tx.body.value.blockHash.Some?
    ==> Canonical(c, tx.body.value.blockHeight.value, tx.body.value.blockHash.value)
        && txid in c[tx.body.value.blockHeight.value].txids
  }

  predicate HonestInfo(c: Blocks, info: InfoResponse) {
    info.InfoResponse? && info.tip.Some? ==> info.tip.value + 1 == |c|
  }

  lemma ConfirmedIsBuried(c: Blocks, txid: string, tx: TxResponse, info: InfoResponse, minConfirmations: nat,
      depth: nat)
    requires HonestTx(c, txid, tx) && HonestInfo(c, info)
    requires Max(minConfirmations, 1) > depth
    ensures var o := Observe(txid, tx, info, minConfirmations);
      o.ChainConfirmed? ==> Buried(c, o.blockHeight, o.blockHash, depth) && txid in c[o.blockHeight].txids
  {
    TerminalOnlyFromThisTransaction(txid, tx, info, minConfirmations);
  }

  /** Confirmation at this depth survives any one reorganisation of the chain it was read from. */
  ghost predicate ConfirmationIsFinal(minConfirmations: nat, depth: nat) {
    forall c: Blocks, d: Blocks, txid: string, tx: TxResponse, info: InfoResponse ::
      Reorganised(c, d, depth) && HonestTx(c, txid, tx) && HonestInfo(c, info)
      && Observe(txid, tx, info, minConfirmations).ChainConfirmed?
      ==>
          Canonical(d, Observe(txid, tx, info, minConfirmations).blockHeight,
          Observe(txid, tx, info, minConfirmations).blockHash)
  }

  /** A chain of equal blocks, each holding the transaction. */
  function Uniform(n: nat, hash: string, txid: string): Blocks {
    seq(n, _ => Block(hash, {txid}))
  }

  lemma ShallowConfirmationCanVanish(minConfirmations: nat, depth: nat)
    requires Max(minConfirmations, 1) <= depth
    ensures !ConfirmationIsFinal(minConfirmations, depth)
  {
    var n := Max(minConfirmations, 1);
    var txid := ['0', 'x'] + seq(64, _ => '0');
    var c, d := Uniform(n, "a", txid), Uniform(n, "b", txid);
    var tx := TxResponse(200, Some(TxBody(txid, "success", Some(0), Some("a"))));
    var info := InfoResponse(200, Some(n - 1));
    assert Reorganised(c, d, depth);
    assert HonestTx(c, txid, tx) && HonestInfo(c, info);
    assert !StartsWith("success", "abort") by { assert "success"[0] != "abort"[0]; }
    assert !StartsWith("success", "drop") by { assert "success"[0] != "drop"[0]; }
    assert Observe(txid, tx, info, minConfirmations) == ChainConfirmed(0, "a", n);
    assert !Canonical(d, 0, "a");
  }

  /** Depth is finality exactly when the required confirmations exceed what a reorganisation may replace. */
  lemma FinalIffDeeperThanReorganisations(minConfirmations: nat, depth: nat)
    ensures ConfirmationIsFinal(minConfirmations, depth) <==> Max(minConfirmations, 1) > depth
  {
    if Max(minConfirmations, 1) > depth {
      forall c: Blocks, d: Blocks, txid: string, tx: TxResponse, info: InfoResponse |
        Reorganised(c, d, depth) && HonestTx(c, txid, tx) && HonestInfo(c, info)
        && Observe(txid, tx, info, minConfirmations).ChainConfirmed?
        ensures Canonical(d, Observe(txid, tx, info, minConfirmations).blockHeight,
            Observe(txid, tx, info, minConfirmations).blockHash)
      {
        ConfirmedIsBuried(c, txid, tx, info, minConfirmations, depth);
        var o := Observe(txid, tx, info, minConfirmations);
        BuriedStays(c, d, o.blockHeight, o.blockHash, depth);
      }
    } else {
      ShallowConfirmationCanVanish(minConfirmations, depth);
    }
  }

  /** The same, when the chain may be reorganised, and grow by at most `growth` blocks, between reading the transaction
      and the tip. */
  ghost predicate FinalAcrossReads(minConfirmations: nat, depth: nat, growth: nat) {
    forall c: Blocks, e: Blocks, d: Blocks, txid: string, tx: TxResponse, info: InfoResponse ::
      Reorganised(c, e, depth) && |e| <= |c| + growth && Reorganised(e, d, depth) && HonestTx(c, txid, tx)
          && HonestInfo(e, info)
      && Observe(txid, tx, info, minConfirmations).ChainConfirmed?
      ==>
          Canonical(d, Observe(txid, tx, info, minConfirmations).blockHeight,
          Observe(txid, tx, info, minConfirmations).blockHash)
  }

  lemma DeepAcrossReads(c: Blocks, e: Blocks, d: Blocks, txid: string, tx: TxResponse, info: InfoResponse,
      minConfirmations: nat,
      depth: nat, growth: nat)
    requires Reorganised(c, e, depth) && |e| <= |c| + growth && Reorganised(e, d, depth)
    requires HonestTx(c, txid, tx) && HonestInfo(e, info)
    requires depth == 0 || Max(minConfirmations, 1) > depth + growth
    ensures var o := Observe(txid, tx, info, minConfirmations); o.ChainConfirmed? ==>
        Canonical(d, o.blockHeight, o.blockHash)
  {
    TerminalOnlyFromThisTransaction(txid, tx, info, minConfirmations);
    var o := Observe(txid, tx, info, minConfirmations);
    if o.ChainConfirmed? {
      assert Buried(c, o.blockHeight, o.blockHash, depth);
    }
  }

  lemma ReplacedBetweenReads(minConfirmations: nat, depth: nat, growth: nat)
    requires depth > 0 && Max(minConfirmations, 1) <= depth + growth
    ensures !FinalAcrossReads(minConfirmations, depth, growth)
  {
    var txid := ['0', 'x'] + seq(64, _ => '0');
    var c, e := Uniform(depth, "a", txid), Uniform(depth + growth, "b", txid);
    var tx := TxResponse(200, Some(TxBody(txid, "success", Some(0), Some("a"))));
    var info := InfoResponse(200, Some(depth + growth - 1));
    assert Reorganised(c, e, depth) && Reorganised(e, e, depth);
    assert HonestTx(c, txid, tx) && HonestInfo(e, info);
    assert !StartsWith("success", "abort") by { assert "success"[0] != "abort"[0]; }
    assert !StartsWith("success", "drop") by { assert "success"[0] != "drop"[0]; }
    assert Observe(txid, tx, info, minConfirmations) == ChainConfirmed(0, "a", depth + growth);
    assert !Canonical(e, 0, "a");
  }

  /** Blocks that arrive between the two reads count as confirmations of a block they may have replaced: the required
      depth then has to exceed both bounds together. */
  lemma FinalAcrossReadsIff(minConfirmations: nat, depth: nat, growth: nat)
    ensures FinalAcrossReads(minConfirmations, depth, growth) <==>
        depth == 0 || Max(minConfirmations, 1) > depth + growth
  {
    if depth == 0 || Max(minConfirmations, 1) > depth + growth {
      forall c: Blocks, e: Blocks, d: Blocks, txid: string, tx: TxResponse, info: InfoResponse |
        Reorganised(c, e, depth) && |e| <= |c| + growth && Reorganised(e, d, depth) && HonestTx(c, txid, tx)
            && HonestInfo(e, info)
        && Observe(txid, tx, info, minConfirmations).ChainConfirmed?
        ensures Canonical(d, Observe(txid, tx, info, minConfirmations).blockHeight,
            Observe(txid, tx, info, minConfirmations).blockHash)
      {
        DeepAcrossReads(c, e, d, txid, tx, info, minConfirmations, depth, growth);
      }
    } else {
      ReplacedBetweenReads(minConfirmations, depth, growth);
    }
  }
}
