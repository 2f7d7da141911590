/** The public payment list: what one load computes, and the four-worker pool that computes it. */
module PublicPayments {
  import opened Basics

  const LIMIT := 25
  const WORKERS := 4

  datatype AssetId = STX | SBTC | USDCx

  datatype AssetInfo = AssetInfo(id: AssetId, canonicalAssetId: string, postConditionAsset: string, decimals: nat)

  datatype Config = Config(network: string, publicUrl: string, mppUrl: string, stx: AssetInfo, sbtc: AssetInfo,
      usdcx: AssetInfo)

  /** A row of the store, once its shape is parsed. */
  datatype SourceRow =
    | Malformed
    | Row(txid: string, network: string, canonicalUrl: string, assetId: string, amountAtomic: string, payer: string,
          payTo: string, blockHeight: int, blockHash: string, confirmedAt: string, deliveryStatus: Option<string>)

  datatype Moved = Moved(kind: string, sender: Option<string>, recipient: Option<string>, amount: Option<string>,
      assetId: Option<string>)

  datatype ChainEvent = ChainEvent(eventType: string, asset: Option<Moved>)

  datatype ChainTx = ChainTx(txid: string, status: string, canonical: bool, unanchored: bool, blockHeight: int,
      blockHash: string, sender: string, feeRate: string, resultRepr: string, eventCount: int, events: seq<ChainEvent>)

  /** What the chain API answers for a transaction; everything that throws is Unavailable. */
  datatype Response = NotFound | Unavailable | Found(tx: ChainTx)

  type Chain = map<string, Response>

  datatype Protocol = X402 | MPP

  datatype Payment = Payment(txid: string, protocol: Protocol, asset: AssetId, amountAtomic: string, decimals: nat,
      payer: string, payTo: string, fee: string, blockHeight: int, confirmedAt: string, deliveryStatus: string)

  function Answer(chain: Chain, txid: string): Response {
    if txid in chain then chain[txid] else Unavailable
  }

  function FindAsset(cfg: Config, canonicalAssetId: string): Option<AssetInfo> {
    if cfg.stx.canonicalAssetId == canonicalAssetId then Some(cfg.stx)
    else if cfg.sbtc.canonicalAssetId == canonicalAssetId then Some(cfg.sbtc)
    else if cfg.usdcx.canonicalAssetId == canonicalAssetId then Some(cfg.usdcx)
    else None
  }

  function ProtocolOf(cfg: Config, row: SourceRow): Protocol
    requires row.Row?
  {
    if row.canonicalUrl == cfg.mppUrl then MPP else X402
  }

  /** In scope, before looking at other rows or the asset. */
  predicate InScope(cfg: Config, row: SourceRow) {
    row.Row? && row.network == cfg.network && (row.canonicalUrl == cfg.publicUrl || row.canonicalUrl == cfg.mppUrl)
  }

  predicate AssetAllowed(cfg: Config, row: SourceRow)
    requires row.Row?
  {
    var asset := FindAsset(cfg, row.assetId);
    asset.Some? && (ProtocolOf(cfg, row) == MPP ==> asset.value.id == USDCx)
  }

  predicate Transfers(e: ChainEvent) {
    e.asset.Some? && e.asset.value.kind == "transfer"
        && (e.eventType == "stx_asset" || e.eventType == "fungible_token_asset")
  }

  function TransfersIn(events: seq<ChainEvent>): seq<ChainEvent> {
    if events == [] then []
    else (if Transfers(events[0]) then [events[0]] else []) + TransfersIn(events[1..])
  }

  predicate PaidExactly(row: SourceRow, asset: AssetInfo, tx: ChainTx)
    requires row.Row?
  {
    var transfers := TransfersIn(tx.events);
    && tx.txid == row.txid && tx.status == "success" && tx.canonical && !tx.unanchored
    && tx.blockHeight == row.blockHeight && tx.blockHash == row.blockHash && tx.sender == row.payer
    && tx.resultRepr == "(ok true)" && tx.eventCount == |tx.events|
    && |transfers| == 1 && transfers[0].asset.Some?
    && transfers[0].asset.value.sender == Some(row.payer)
    && transfers[0].asset.value.recipient == Some(row.payTo)
    && transfers[0].asset.value.amount == Some(row.amountAtomic)
    && if asset.id == STX then transfers[0].eventType == "stx_asset"
       else
         && transfers[0].eventType == "fungible_token_asset"
         && transfers[0].asset.value.assetId == Some(asset.postConditionAsset)
  }

  function PaymentOf(cfg: Config, row: SourceRow, asset: AssetInfo, tx: ChainTx): Payment
    requires row.Row?
  {
    var status := if row.deliveryStatus.Some? then row.deliveryStatus.value else "unavailable";
    Payment(row.txid, ProtocolOf(cfg, row), asset.id, row.amountAtomic, asset.decimals, row.payer, row.payTo,
        tx.feeRate, row.blockHeight, row.confirmedAt, status)
  }

  /** The record a fetched row gets: None when the row throws, Some(None) when it is excluded. */
  function Entry(cfg: Config, chain: Chain, row: SourceRow): Option<Option<Payment>> {
    if !row.Row? || !AssetAllowed(cfg, row) then None else
    var asset := FindAsset(cfg, row.assetId).value;
    match Answer(chain, row.txid)
    case NotFound => Some(None)
    case Unavailable => None
    case Found(tx) => Some(if PaidExactly(row, asset, tx) then Some(PaymentOf(cfg, row, asset, tx)) else None)
  }

  /* ---------- the sequential pass ---------- */

  function TxIds(rows: seq<SourceRow>, n: nat): set<string>
    requires n <= |rows|
  {
    set i | 0 <= i < n && rows[i].Row? :: rows[i].txid
  }

  predicate Accepted(cfg: Config, rows: seq<SourceRow>, i: nat)
    requires i < |rows|
  {
    InScope(cfg, rows[i]) && rows[i].txid !in TxIds(rows, i) && AssetAllowed(cfg, rows[i])
  }

  /** The first n rows one after another: their records, or None as soon as one throws. */
  function Sequential(cfg: Config, chain: Chain, rows: seq<SourceRow>, n: nat): (r: Option<seq<Option<Payment>>>)
    requires n <= |rows|
    ensures r.Some? ==> |r.value| == n
    ensures r.Some? ==> forall i :: 0 <= i < n ==>
        Accepted(cfg, rows, i) && Entry(cfg, chain, rows[i]) == Some(r.value[i])
    ensures r.None? ==> exists i :: 0 <= i < n && !(Accepted(cfg, rows, i) && Entry(cfg, chain, rows[i]).Some?)
  {
    if n == 0 then Some([])
    else
      var before := Sequential(cfg, chain, rows, n - 1);
      if before.None? then None
      else if Accepted(cfg, rows, n - 1) && Entry(cfg, chain, rows[n - 1]).Some? then
        Some(before.value + [Entry(cfg, chain, rows[n - 1]).value])
      else None
  }

  function Kept(records: seq<Option<Payment>>): (kept: seq<Payment>)
    ensures |kept| <= |records|
  {
    if records == [] then []
    else
      var last := records[|records| - 1];
      Kept(records[..|records| - 1]) + (if last.Some? then [last.value] else [])
  }

  datatype Snapshot = Snapshot(payments: seq<Payment>, excludedCount: nat, hasMore: bool)

  function SequentialLoad(cfg: Config, chain: Chain, rows: seq<SourceRow>): Option<Snapshot> {
    if |rows| > LIMIT + 1 then None
    else
      var records := Sequential(cfg, chain, rows, Min(|rows|, LIMIT));
      if records.None? then None
      else Some(Snapshot(Kept(records.value), |records.value| - |Kept(records.value)|, |rows| > LIMIT))
  }

  /* ---------- what a listed payment is, field by field ---------- */

  predicate IsTransfer(e: ChainEvent) {
    match e.asset
    case None => false
    case Some(moved) => moved.kind == "transfer" && e.eventType in {"stx_asset", "fungible_token_asset"}
  }

  ghost predicate OnlyTransfer(events: seq<ChainEvent>, k: int) {
    0 <= k < |events| && IsTransfer(events[k]) && forall j :: 0 <= j < |events| && j != k ==> !IsTransfer(events[j])
  }

  /** The first configured asset of this canonical id: STX, then sBTC, then USDCx. */
  predicate Configured(cfg: Config, canonicalAssetId: string, asset: AssetInfo) {
    && asset.canonicalAssetId == canonicalAssetId
    && (|| asset == cfg.stx
        || (asset == cfg.sbtc && cfg.stx.canonicalAssetId != canonicalAssetId)
        || (asset == cfg.usdcx && cfg.stx.canonicalAssetId != canonicalAssetId
            && cfg.sbtc.canonicalAssetId != canonicalAssetId))
  }

  /** The k-th event is the transaction's only transfer, of what the row asks for, from its payer to its recipient. */
  ghost predicate MovesExactly(row: SourceRow, asset: AssetInfo, tx: ChainTx, k: int)
    requires row.Row?
  {
    && OnlyTransfer(tx.events, k)
    && var moved := tx.events[k].asset.value;
    && moved.sender == Some(row.payer) && moved.recipient == Some(row.payTo) && moved.amount == Some(row.amountAtomic)
    && match asset.id
       case STX => tx.events[k].eventType == "stx_asset"
       case _ => tx.events[k].eventType == "fungible_token_asset" && moved.assetId == Some(asset.postConditionAsset)
  }

  /** The transaction succeeded, was sent by the payer, and is anchored in the row's canonical block. */
  predicate Settled(row: SourceRow, tx: ChainTx)
    requires row.Row?
  {
    && tx.txid == row.txid && tx.sender == row.payer
    && tx.status == "success" && tx.resultRepr == "(ok true)" && tx.eventCount == |tx.events|
    && tx.canonical && !tx.unanchored && tx.blockHeight == row.blockHeight && tx.blockHash == row.blockHash
  }

  /** The chain holds this row's transaction, which paid the row in full with this asset; the payment says so. */
  ghost predicate PaidWith(cfg: Config, chain: Chain, row: SourceRow, asset: AssetInfo, k: int, p: Payment) {
    && row.Row? && row.txid in chain && chain[row.txid].Found? && Configured(cfg, row.assetId, asset)
    && Settled(row, chain[row.txid].tx) && MovesExactly(row, asset, chain[row.txid].tx, k)
    && p.txid == row.txid && p.payer == row.payer && p.payTo == row.payTo && p.amountAtomic == row.amountAtomic
    && p.blockHeight == row.blockHeight && p.confirmedAt == row.confirmedAt && p.fee == chain[row.txid].tx.feeRate
    && p.asset == asset.id && p.decimals == asset.decimals
    && (p.protocol == MPP <==> row.canonicalUrl == cfg.mppUrl)
    && p.deliveryStatus == match row.deliveryStatus case Some(status) => status case None => "unavailable"
  }

  ghost predicate PaidRow(cfg: Config, chain: Chain, row: SourceRow, p: Payment) {
    exists asset, k :: PaidWith(cfg, chain, row, asset, k, p)
  }

  lemma {:induction false} TransfersAre(events: seq<ChainEvent>)
    ensures TransfersIn(events) == [] <==> forall j :: 0 <= j < |events| ==> !IsTransfer(events[j])
    ensures forall k :: OnlyTransfer(events, k) ==> TransfersIn(events) == [events[k]]
    ensures |TransfersIn(events)| == 1 ==> exists k :: OnlyTransfer(events, k)
  {
    if events != [] {
      var rest := events[1..];
      TransfersAre(rest);
      assert forall j :: 1 <= j < |events| ==> events[j] == rest[j - 1];
      forall k | OnlyTransfer(events, k) ensures TransfersIn(events) == [events[k]] {
        if k > 0 {
          assert OnlyTransfer(rest, k - 1);
        }
      }
      if |TransfersIn(events)| == 1 {
        if Transfers(events[0]) {
          assert OnlyTransfer(events, 0);
        } else {
          var k :| OnlyTransfer(rest, k);
          assert OnlyTransfer(events, k + 1);
        }
      }
    }
  }

  lemma PaidExactlyIff(row: SourceRow, asset: AssetInfo, tx: ChainTx)
    requires row.Row?
    ensures PaidExactly(row, asset, tx) <==> Settled(row, tx) && exists k :: MovesExactly(row, asset, tx, k)
  {
    TransfersAre(tx.events);
    if PaidExactly(row, asset, tx) {
      var k :| OnlyTransfer(tx.events, k);
      assert MovesExactly(row, asset, tx, k);
    }
    if k :| MovesExactly(row, asset, tx, k) {
      assert OnlyTransfer(tx.events, k);
    }
  }

  lemma AssetIs(cfg: Config, canonicalAssetId: string)
    ensures forall asset ::
        Configured(cfg, canonicalAssetId, asset) <==> FindAsset(cfg, canonicalAssetId) == Some(asset)
  {
  }

  lemma EntryIsPaid(cfg: Config, chain: Chain, row: SourceRow, p: Payment)
    requires Entry(cfg, chain, row) == Some(Some(p))
    ensures PaidRow(cfg, chain, row, p)
  {
    var asset, tx := FindAsset(cfg, row.assetId).value, chain[row.txid].tx;
    AssetIs(cfg, row.assetId);
    PaidExactlyIff(row, asset, tx);
    hide PaidExactly, FindAsset, Configured, MovesExactly, Settled;
    var k :| MovesExactly(row, asset, tx, k);
    assert PaidWith(cfg, chain, row, asset, k, p);
  }

  lemma PaidIsEntry(cfg: Config, chain: Chain, row: SourceRow, p: Payment)
    requires PaidRow(cfg, chain, row, p) && Entry(cfg, chain, row).Some?
    ensures Entry(cfg, chain, row) == Some(Some(p))
  {
    var asset, k :| PaidWith(cfg, chain, row, asset, k, p);
    AssetIs(cfg, row.assetId);
    PaidExactlyIff(row, asset, chain[row.txid].tx);
    hide PaidExactly, FindAsset, Configured, MovesExactly, Settled;
  }

  /** The listed payments come from distinct rows in row order, and the chain paid each of them in full. */
  ghost predicate TracedTo(cfg: Config, chain: Chain, rows: seq<SourceRow>, n: nat, kept: seq<Payment>, from: seq<nat>)
    requires n <= |rows|
  {
    && |from| == |kept|
    && (forall k :: 0 <= k < |from| ==> from[k] < n && PaidRow(cfg, chain, rows[from[k]], kept[k]))
    && (forall j, k :: 0 <= j < k < |from| ==> from[j] < from[k] && kept[j].txid != kept[k].txid)
  }

  /** Every payment listed is a distinct transaction of some row that the chain confirms in full, in row order. */
  lemma {:induction false} ListedPaymentsArePaid(cfg: Config, chain: Chain, rows: seq<SourceRow>, n: nat)
      returns (from: seq<nat>)
    requires n <= |rows| && Sequential(cfg, chain, rows, n).Some?
    ensures TracedTo(cfg, chain, rows, n, Kept(Sequential(cfg, chain, rows, n).value), from)
  {
    hide InScope, AssetAllowed, Entry, PaidRow, TxIds, TracedTo, FindAsset, Answer;
    TracedNone(cfg, chain, rows);
    if n == 0 {
      from := [];
    } else {
      var records := Sequential(cfg, chain, rows, n).value;
      from := ListedPaymentsArePaid(cfg, chain, rows, n - 1);
      var earlier := Sequential(cfg, chain, rows, n - 1).value;
      assert records[..n - 1] == earlier;
      if records[n - 1].Some? {
        var p := records[n - 1].value;
        assert Kept(records) == Kept(earlier) + [p];
        EntryIsPaid(cfg, chain, rows[n - 1], p);
        TracedNext(cfg, chain, rows, n - 1, Kept(earlier), from, p);
        from := from + [n - 1];
      } else {
        assert Kept(records) == Kept(earlier);
        TracedSkip(cfg, chain, rows, n - 1, Kept(earlier), from);
      }
    }
  }

  lemma TracedNone(cfg: Config, chain: Chain, rows: seq<SourceRow>)
    ensures TracedTo(cfg, chain, rows, 0, [], [])
  {
  }

  lemma TracedSkip(cfg: Config, chain: Chain, rows: seq<SourceRow>, n: nat, kept: seq<Payment>, from: seq<nat>)
    requires n < |rows| && TracedTo(cfg, chain, rows, n, kept, from)
    ensures TracedTo(cfg, chain, rows, n + 1, kept, from)
  {
    hide PaidRow;
  }

  lemma TracedNext(cfg: Config, chain: Chain, rows: seq<SourceRow>, n: nat, kept: seq<Payment>, from: seq<nat>,
      p: Payment)
    requires n < |rows| && TracedTo(cfg, chain, rows, n, kept, from)
    requires PaidRow(cfg, chain, rows[n], p) && rows[n].txid !in TxIds(rows, n)
    ensures TracedTo(cfg, chain, rows, n + 1, kept + [p], from + [n])
  {
    PaidHasTxid(cfg, chain, rows[n], p);
    ListedBefore(cfg, chain, rows, n, kept, from);
    hide PaidRow, TxIds;
  }

  lemma PaidHasTxid(cfg: Config, chain: Chain, row: SourceRow, p: Payment)
    requires PaidRow(cfg, chain, row, p)
    ensures row.Row? && p.txid == row.txid
  {
  }

  lemma ListedBefore(cfg: Config, chain: Chain, rows: seq<SourceRow>, n: nat, kept: seq<Payment>, from: seq<nat>)
    requires n <= |rows| && |from| == |kept|
    requires forall k :: 0 <= k < |from| ==> from[k] < n && PaidRow(cfg, chain, rows[from[k]], kept[k])
    ensures forall k :: 0 <= k < |from| ==> kept[k].txid in TxIds(rows, n)
  {
    hide Settled, MovesExactly, Configured;
    forall k | 0 <= k < |from| ensures kept[k].txid in TxIds(rows, n) {
      assert PaidRow(cfg, chain, rows[from[k]], kept[k]);
    }
  }

  lemma {:induction false} KeptHolds(records: seq<Option<Payment>>, i: nat)
    requires i < |records| && records[i].Some?
    ensures records[i].value in Kept(records)
    decreases |records|
  {
    if i < |records| - 1 {
      KeptHolds(records[..|records| - 1], i);
    }
  }

  /** A row is listed exactly when the chain paid it, and as that payment; otherwise it is excluded. */
  lemma ListedIff(cfg: Config, chain: Chain, rows: seq<SourceRow>, n: nat, i: nat)
    requires n <= |rows| && Sequential(cfg, chain, rows, n).Some? && i < n
    ensures var records := Sequential(cfg, chain, rows, n).value;
      && (records[i].Some? <==> exists p :: PaidRow(cfg, chain, rows[i], p))
      && forall p :: PaidRow(cfg, chain, rows[i], p) ==> records[i] == Some(p) && p in Kept(records)
  {
    hide Entry, PaidRow, Accepted;
    var records := Sequential(cfg, chain, rows, n).value;
    assert Accepted(cfg, rows, i) && Entry(cfg, chain, rows[i]) == Some(records[i]);
    if records[i].Some? {
      EntryIsPaid(cfg, chain, rows[i], records[i].value);
      KeptHolds(records, i);
    }
    forall p | PaidRow(cfg, chain, rows[i], p) ensures records[i] == Some(p) {
      PaidIsEntry(cfg, chain, rows[i], p);
    }
  }

  /* ---------- when a load succeeds ---------- */

  /** A well-formed row of this network and one of its two resources, with a transaction of its own and a configured
      asset, which is USDCx if it was paid over MPP. */
  ghost predicate Sound(cfg: Config, rows: seq<SourceRow>, i: nat)
    requires i < |rows|
  {
    && rows[i].Row? && rows[i].network == cfg.network && rows[i].canonicalUrl in {cfg.publicUrl, cfg.mppUrl}
    && (forall j :: 0 <= j < i && rows[j].Row? ==> rows[j].txid != rows[i].txid)
    && exists asset :: Configured(cfg, rows[i].assetId, asset)
                       && (rows[i].canonicalUrl == cfg.mppUrl ==> asset.id == USDCx)
  }

  /** The chain says the transaction is unknown, or describes it. */
  predicate Answered(chain: Chain, row: SourceRow) {
    row.Row? && row.txid in chain && (chain[row.txid].NotFound? || chain[row.txid].Found?)
  }

  lemma SoundIff(cfg: Config, chain: Chain, rows: seq<SourceRow>, i: nat)
    requires i < |rows|
    ensures Accepted(cfg, rows, i) && Entry(cfg, chain, rows[i]).Some? <==>
            Sound(cfg, rows, i) && Answered(chain, rows[i])
  {
    if rows[i].Row? {
      AssetIs(cfg, rows[i].assetId);
      hide FindAsset, Configured, PaidExactly;
      if rows[i].txid in TxIds(rows, i) {
        var j :| 0 <= j < i && rows[j].Row? && rows[j].txid == rows[i].txid;
      } else {
        forall j | 0 <= j < i && rows[j].Row? ensures rows[j].txid != rows[i].txid {
          assert rows[j].txid in TxIds(rows, i);
        }
      }
    }
  }

  /** A load succeeds exactly when the store gave at most 26 rows and each of the first 25 is sound and answered; it
      says how many of them it left out and whether there are more. */
  lemma LoadSucceedsIff(cfg: Config, chain: Chain, rows: seq<SourceRow>)
    ensures SequentialLoad(cfg, chain, rows).Some? <==>
            && |rows| <= 26
            && forall i :: 0 <= i < Min(|rows|, 25) ==> Sound(cfg, rows, i) && Answered(chain, rows[i])
    ensures SequentialLoad(cfg, chain, rows).Some? ==>
              var s := SequentialLoad(cfg, chain, rows).value;
              && |s.payments| + s.excludedCount == Min(|rows|, 25) && (s.hasMore <==> |rows| == 26)
              && s.payments == Kept(Sequential(cfg, chain, rows, Min(|rows|, 25)).value)
  {
    hide Sound, Answered, Accepted, Entry;
    forall i | 0 <= i < Min(|rows|, LIMIT)
      ensures Accepted(cfg, rows, i) && Entry(cfg, chain, rows[i]).Some? <==>
              Sound(cfg, rows, i) && Answered(chain, rows[i])
    {
      SoundIff(cfg, chain, rows, i);
    }
    if |rows| <= LIMIT + 1 {
      var records := Sequential(cfg, chain, rows, Min(|rows|, LIMIT));
      if records.None? {
        var i :| 0 <= i < Min(|rows|, LIMIT) && !(Accepted(cfg, rows, i) && Entry(cfg, chain, rows[i]).Some?);
      }
    }
  }

  /* ---------- the pool ---------- */

  datatype Worker = Ready | Awaiting(index: nat) | Finished

  /** records[index] = value on a sparse array: writing past the end leaves holes. */
  function Assigned(records: seq<Option<Option<Payment>>>, index: nat,
      value: Option<Payment>): seq<Option<Option<Payment>>> {
    if index < |records| then records[index := Some(value)]
    else records + seq(index - |records|, _ => None) + [Some(value)]
  }

  function Weight(w: Worker): nat {
    match w case Ready => 1 case Awaiting(_) => 2 case Finished => 0
  }

  function Weights(ws: seq<Worker>): nat {
    if ws == [] then 0 else Weight(ws[0]) + Weights(ws[1..])
  }

  lemma {:induction false} WeightsUpdate(ws: seq<Worker>, k: nat, w: Worker)
    requires k < |ws|
    ensures Weights(ws[k := w]) == Weights(ws) - Weight(ws[k]) + Weight(w)
  {
    if k == 0 {
      assert ws[0 := w][1..] == ws[1..];
    } else {
      assert ws[k := w][1..] == ws[1..][k - 1 := w];
      WeightsUpdate(ws[1..], k - 1, w);
    }
  }

  /** While no worker has thrown: rows below `next` were each taken once, and are recorded or still awaited. */
  ghost predicate PoolOk(cfg: Config, chain: Chain, rows: seq<SourceRow>, workers: seq<Worker>, next: nat,
      seen: set<string>, records: seq<Option<Option<Payment>>>, fetched: seq<nat>)
  {
    var n := Min(|rows|, LIMIT);
    var taken := Min(next, n);
    && |workers| == WORKERS
    && (forall w :: 0 <= w < WORKERS && workers[w].Finished? ==> n <= next)
    && seen == TxIds(rows, taken)
    && (forall i :: 0 <= i < taken ==> Accepted(cfg, rows, i))
    && |fetched| == taken && (forall i :: 0 <= i < taken ==> fetched[i] == i)
    && |records| <= taken
    && (forall i :: 0 <= i < |records| && records[i].Some? ==> Entry(cfg, chain, rows[i]) == records[i])
    && (forall w :: 0 <= w < WORKERS && workers[w].Awaiting? ==>
          workers[w].index < taken && (workers[w].index < |records| ==> records[workers[w].index].None?))
    && (forall v, w :: 0 <= v < w < WORKERS && workers[v].Awaiting? && workers[w].Awaiting? ==>
       workers[v].index != workers[w].index)
    && (forall i :: 0 <= i < taken ==>
          || (i < |records| && records[i].Some?)
          || (exists w :: 0 <= w < WORKERS && workers[w] == Awaiting(i)))
  }
}
