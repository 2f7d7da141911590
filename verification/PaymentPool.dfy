/** The four workers of one load, stepped in any order, against the sequential pass. */
module PaymentPool {
  import opened Basics
  import opened PublicPayments

  lemma StartOk(cfg: Config, chain: Chain, rows: seq<SourceRow>)
    ensures PoolOk(cfg, chain, rows, [Ready, Ready, Ready, Ready], 0, {}, [], [])
    ensures Weights([Ready, Ready, Ready, Ready]) == WORKERS
  {
    assert TxIds(rows, 0) == {};
    assert [Ready, Ready, Ready, Ready][1..] == [Ready, Ready, Ready];
    assert [Ready, Ready, Ready][1..] == [Ready, Ready] && [Ready, Ready][1..] == [Ready];
  }

  lemma RetireOk(cfg: Config, chain: Chain, rows: seq<SourceRow>, workers: seq<Worker>, next: nat, seen: set<string>,
                 records: seq<Option<Option<Payment>>>, fetched: seq<nat>, w: nat)
    requires PoolOk(cfg, chain, rows, workers, next, seen, records, fetched)
    requires w < WORKERS && workers[w] == Ready && next >= Min(|rows|, LIMIT)
    ensures PoolOk(cfg, chain, rows, workers[w := Finished], next + 1, seen, records, fetched)
  {
    hide Accepted, Entry, TxIds;
    var after := workers[w := Finished];
    forall i | 0 <= i < Min(|rows|, LIMIT)
      ensures (i < |records| && records[i].Some?) || (exists v :: 0 <= v < WORKERS && after[v] == Awaiting(i))
    {
      if !(i < |records| && records[i].Some?) {
        var v :| 0 <= v < WORKERS && workers[v] == Awaiting(i);
        assert after[v] == Awaiting(i);
      }
    }
  }

  lemma TakeOk(cfg: Config, chain: Chain, rows: seq<SourceRow>, workers: seq<Worker>, next: nat, seen: set<string>,
               records: seq<Option<Option<Payment>>>, fetched: seq<nat>, w: nat)
    requires PoolOk(cfg, chain, rows, workers, next, seen, records, fetched)
    requires w < WORKERS && workers[w] == Ready && next < Min(|rows|, LIMIT) && Accepted(cfg, rows, next)
    ensures PoolOk(cfg, chain, rows, workers[w := Awaiting(next)], next + 1, seen + {rows[next].txid}, records,
        fetched + [next])
  {
    SeenNext(rows, next);
    hide Accepted, Entry, TxIds;
    var after := workers[w := Awaiting(next)];
    assert forall v :: 0 <= v < WORKERS && v != w ==> after[v] == workers[v];
    forall i | 0 <= i < next + 1
      ensures (i < |records| && records[i].Some?) || (exists v :: 0 <= v < WORKERS && after[v] == Awaiting(i))
    {
      if i == next {
        assert after[w] == Awaiting(i);
      } else if !(i < |records| && records[i].Some?) {
        var v :| 0 <= v < WORKERS && workers[v] == Awaiting(i);
        assert after[v] == Awaiting(i);
      }
    }
  }

  lemma SeenNext(rows: seq<SourceRow>, n: nat)
    requires n < |rows| && rows[n].Row?
    ensures TxIds(rows, n + 1) == TxIds(rows, n) + {rows[n].txid}
  {
    assert rows[n].txid in TxIds(rows, n + 1);
  }

  lemma RecordOk(cfg: Config, chain: Chain, rows: seq<SourceRow>, workers: seq<Worker>, next: nat, seen: set<string>,
                 records: seq<Option<Option<Payment>>>, fetched: seq<nat>, w: nat, value: Option<Payment>)
    requires PoolOk(cfg, chain, rows, workers, next, seen, records, fetched)
    requires w < WORKERS && workers[w].Awaiting? && Entry(cfg, chain, rows[workers[w].index]) == Some(value)
    ensures PoolOk(cfg, chain, rows, workers[w := Ready], next, seen, Assigned(records, workers[w].index, value),
        fetched)
  {
    hide Accepted, Entry, TxIds;
    var index := workers[w].index;
    var after, written := workers[w := Ready], Assigned(records, index, value);
    assert written[index] == Some(value);
    assert forall i :: 0 <= i < |written| && i != index ==> written[i] == if i < |records| then records[i] else None;
    forall i | 0 <= i < Min(next, Min(|rows|, LIMIT))
      ensures (i < |written| && written[i].Some?) || (exists v :: 0 <= v < WORKERS && after[v] == Awaiting(i))
    {
      if i != index && !(i < |records| && records[i].Some?) {
        var v :| 0 <= v < WORKERS && workers[v] == Awaiting(i);
        assert after[v] == Awaiting(i);
      }
    }
  }

  /** When every worker has finished, the records are those of the sequential pass. */
  lemma FinishedIsSequential(cfg: Config, chain: Chain, rows: seq<SourceRow>, workers: seq<Worker>, next: nat,
      seen: set<string>, records: seq<Option<Option<Payment>>>, fetched: seq<nat>)
    requires PoolOk(cfg, chain, rows, workers, next, seen, records, fetched)
    requires forall w :: 0 <= w < WORKERS ==> workers[w].Finished?
    ensures var n := Min(|rows|, LIMIT);
      && |records| == n && |fetched| == n
      && Sequential(cfg, chain, rows, n).Some?
      && forall i :: 0 <= i < n ==> records[i] == Some(Sequential(cfg, chain, rows, n).value[i])
  {
    var n := Min(|rows|, LIMIT);
    hide TxIds, Accepted, Entry;
    assert workers[0].Finished?;
    forall i | 0 <= i < n ensures i < |records| && records[i].Some? && Entry(cfg, chain, rows[i]) == records[i]
        && Accepted(cfg, rows, i) {
      assert forall v :: 0 <= v < WORKERS ==> workers[v].Finished? && workers[v] != Awaiting(i);
    }
    if n > 0 {
      assert Accepted(cfg, rows, n - 1);
    }
  }

  lemma CrashIsSequential(cfg: Config, chain: Chain, rows: seq<SourceRow>, i: nat)
    requires i < Min(|rows|, LIMIT) && !(Accepted(cfg, rows, i) && Entry(cfg, chain, rows[i]).Some?)
    ensures Sequential(cfg, chain, rows, Min(|rows|, LIMIT)).None?
  {
    hide Accepted, Entry;
  }

  /** Rows are asked about once each, in index order. */
  ghost predicate InOrder(fetched: seq<nat>, n: int) {
    forall i :: 0 <= i < |fetched| ==> fetched[i] == i < n
  }

  class PaymentLoad {
    const cfg: Config
    const chain: Chain
    const rows: seq<SourceRow>
    var workers: seq<Worker>
    var next: nat
    var seen: set<string>
    var records: seq<Option<Option<Payment>>>
    ghost var fetched: seq<nat>

    ghost predicate Valid()
      reads this
    {
      PoolOk(cfg, chain, rows, workers, next, seen, records, fetched)
    }

    constructor (cfg: Config, chain: Chain, rows: seq<SourceRow>)
      ensures this.cfg == cfg && this.chain == chain && this.rows == rows
      ensures Valid() && next == 0 && Weights(workers) == WORKERS
    {
      this.cfg, this.chain, this.rows := cfg, chain, rows;
      workers, next, seen, records, fetched := [Ready, Ready, Ready, Ready], 0, {}, [], [];
      StartOk(cfg, chain, rows);
    }

    /** A worker takes the next index, checks that row and asks the chain about it; false when it throws. */
    method Take(w: nat) returns (ok: bool)
      requires Valid() && w < WORKERS && workers[w] == Ready
      modifies this
      ensures ok ==> Valid() && next == old(next) + 1
      ensures ok ==>
          workers == old(workers)[w := if old(next) < Min(|rows|, LIMIT) then Awaiting(old(next)) else Finished]
      ensures !ok ==> Sequential(cfg, chain, rows, Min(|rows|, LIMIT)).None?
      ensures fetched == if ok && old(next) < Min(|rows|, LIMIT) then old(fetched) + [old(next)] else old(fetched)
    {
      hide TxIds, FindAsset, Entry;
      var index := next;
      next := next + 1;
      if index >= Min(|rows|, LIMIT) {
        RetireOk(cfg, chain, rows, workers, index, seen, records, fetched, w);
        workers := workers[w := Finished];
        return true;
      }
      var row := rows[index];
      if !InScope(cfg, row) || row.txid in seen {
        CrashIsSequential(cfg, chain, rows, index);
        return false;
      }
      if !AssetAllowed(cfg, row) {
        CrashIsSequential(cfg, chain, rows, index);
        return false;
      }
      TakeOk(cfg, chain, rows, workers, index, seen, records, fetched, w);
      seen := seen + {row.txid};
      fetched := fetched + [index];
      workers := workers[w := Awaiting(index)];
      ok := true;
    }

    /** The chain's answer reaches a waiting worker; false when it throws. */
    method Receive(w: nat) returns (ok: bool)
      requires Valid() && w < WORKERS && workers[w].Awaiting?
      modifies this
      ensures ok ==> Valid() && next == old(next) && workers == old(workers)[w := Ready]
      ensures !ok ==> Sequential(cfg, chain, rows, Min(|rows|, LIMIT)).None?
      ensures fetched == old(fetched)
    {
      hide TxIds, FindAsset, Entry;
      var index := workers[w].index;
      var entry := Entry(cfg, chain, rows[index]);
      if entry.None? {
        CrashIsSequential(cfg, chain, rows, index);
        return false;
      }
      RecordOk(cfg, chain, rows, workers, next, seen, records, fetched, w, entry.value);
      records := Assigned(records, index, entry.value);
      workers := workers[w := Ready];
      ok := true;
    }

    /** Any schedule of the workers: the load settles as the sequential pass does, and asks about no row twice. */
    method Run() returns (result: Option<Snapshot>)
      requires Valid() && next == 0 && Weights(workers) == WORKERS
      modifies this
      ensures result == SequentialLoad(cfg, chain, rows)
      ensures InOrder(fetched, Min(|rows|, LIMIT))
      ensures result.Some? ==> |fetched| == Min(|rows|, LIMIT)
    {
      hide PoolOk, Sequential, InOrder, Weights, Kept;
      FetchedInOrder();
      if |rows| > LIMIT + 1 {
        return None;
      }
      var n := Min(|rows|, LIMIT);
      while exists w :: 0 <= w < WORKERS && workers[w] != Finished
        invariant Valid() && |workers| == WORKERS
        invariant InOrder(fetched, n)
        decreases 2 * Max(0, n - next) + Weights(workers)
      {
        var w: nat :| w < WORKERS && workers[w] != Finished;
        var ok;
        WeightsUpdate(workers, w, Ready);
        WeightsUpdate(workers, w, Finished);
        WeightsUpdate(workers, w, Awaiting(next));
        if workers[w] == Ready {
          ok := Take(w);
        } else {
          AwaitingBelow(w);
          ok := Receive(w);
        }
        if !ok {
          return None;
        }
        FetchedInOrder();
      }
      FinishedIsSequential(cfg, chain, rows, workers, next, seen, records, fetched);
      ghost var entries := Sequential(cfg, chain, rows, n).value;
      var payments := Collect(records, entries);
      result := Some(Snapshot(payments, |records| - |payments|, |rows| > LIMIT));
    }

    lemma FetchedInOrder()
      requires Valid()
      ensures |workers| == WORKERS && InOrder(fetched, Min(|rows|, LIMIT))
    {
    }

    lemma AwaitingBelow(w: nat)
      requires Valid() && w < WORKERS && workers[w].Awaiting?
      ensures workers[w].index < |rows|
    {
    }

    /** records.filter(p => p !== null), which also skips holes. */
    static method Collect(records: seq<Option<Option<Payment>>>, ghost entries: seq<Option<Payment>>)
        returns (payments: seq<Payment>)
      requires |records| == |entries| && forall i :: 0 <= i < |records| ==> records[i] == Some(entries[i])
      ensures payments == Kept(entries)
    {
      payments := [];
      for i := 0 to |records|
        invariant payments == Kept(entries[..i])
      {
        assert entries[..i + 1][..i] == entries[..i];
        if records[i].Some? && records[i].value.Some? {
          payments := payments + [records[i].value.value];
        }
      }
      assert entries[..|records|] == entries;
    }
  }
}
