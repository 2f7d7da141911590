/** The append-only transition log determines every settlement row, and only admits lifecycle words. */
module LedgerLog {
  import opened Basics
  import opened Ledger

  /** The entries of one settlement, oldest first. */
  function History(log: seq<Transition>, s: SettlementId): seq<Transition> {
    if log == [] then []
    else
      var earlier := History(log[..|log| - 1], s);
      if log[|log| - 1].settlementId == s then earlier + [log[|log| - 1]] else earlier
  }

  lemma HistoryAppend(log: seq<Transition>, t: Transition, s: SettlementId)
    ensures History(log + [t], s) == if t.settlementId == s then History(log, s) + [t] else History(log, s)
  {
    assert (log + [t])[..|log|] == log;
  }

  datatype Replayed = Nothing | Replayed(status: Status, failureReason: Option<string>, broadcast: bool)

  /** One entry of the log acting on what has been replayed so far. */
  function ReplayStep(before: Replayed, t: Transition): Replayed {
    Replayed(t.to,
             if t.to == Validated || t.to == Confirmed then None else t.reason,
             t.to == Broadcast || (before.Replayed? && before.broadcast))
  }

  function Replay(h: seq<Transition>): Replayed {
    if h == [] then Nothing else ReplayStep(Replay(h[..|h| - 1]), h[|h| - 1])
  }

  predicate Ending(s: Status) {
    s == Confirmed || s == Failed || s == Dropped
  }

  /** Entry `b` may directly follow entry `a` in one settlement's history. */
  predicate Follows(a: Transition, b: Transition) {
    && b.from == Some(a.to)
    && match a.to
       case Validated => b.to != Validated
       case Broadcast => b.to == Pending || Ending(b.to)
       case Pending => Ending(b.to) || (b.to == Pending && b.reason != a.reason)
       case _ => false
  }

  ghost predicate Lifecycle(h: seq<Transition>) {
    && h != []
    && h[0].from == None && h[0].to == Validated
    && (forall i :: 0 <= i < |h| - 1 ==> Follows(h[i], h[i + 1]))
  }

  /** The row is exactly what its history replays to. */
  ghost predicate RowReplayed(row: Settlement, h: seq<Transition>) {
    && Lifecycle(h)
    && Replay(h) == Replayed(row.status, row.failureReason, row.broadcastAt.Some?)
  }

  ghost predicate LogInv(rows: map<SettlementId, Settlement>, log: seq<Transition>) {
    && (forall s :: s in rows ==> RowReplayed(rows[s], History(log, s)))
    && (forall s :: s !in rows ==> History(log, s) == [])
  }

  /* ---------- preservation ---------- */

  lemma LastReplayed(row: Settlement, h: seq<Transition>)
    requires RowReplayed(row, h)
    ensures h[|h| - 1].to == row.status
    ensures row.status == Pending ==> h[|h| - 1].reason == row.failureReason
  {
  }

  lemma ReplayAppend(row: Settlement, h: seq<Transition>, t: Transition, next: Settlement)
    requires RowReplayed(row, h) && Follows(h[|h| - 1], t)
    requires next.status == t.to
    requires next.failureReason == if t.to == Confirmed then None else t.reason
    requires next.broadcastAt.Some? <==> t.to == Broadcast || row.broadcastAt.Some?
    ensures RowReplayed(next, h + [t])
  {
    var g := h + [t];
    assert g[..|g| - 1] == h;
    forall i | 0 <= i < |g| - 1 ensures Follows(g[i], g[i + 1]) {
      if i < |h| - 1 {
        assert Follows(h[i], h[i + 1]);
      }
    }
  }

  /** One row moves and its entry is appended. */
  lemma EntryKeepsLog(rows: map<SettlementId, Settlement>, log: seq<Transition>, t: Transition, next: Settlement)
    requires LogInv(rows, log)
    requires RowReplayed(next, History(log, t.settlementId) + [t])
    ensures LogInv(rows[t.settlementId := next], log + [t])
  {
    hide RowReplayed, History;
    forall s ensures History(log + [t], s) == if t.settlementId == s then History(log, s) + [t] else History(log, s) {
      HistoryAppend(log, t, s);
    }
  }

  /** Rows change in columns the log does not record. */
  lemma SilentKeepsLog(rows: map<SettlementId, Settlement>, next: map<SettlementId, Settlement>, log: seq<Transition>)
    requires LogInv(rows, log) && rows.Keys == next.Keys
    requires forall s :: s in rows ==> SameRecorded(rows[s], next[s])
    ensures LogInv(next, log)
  {
  }

  predicate SameRecorded(a: Settlement, b: Settlement) {
    a.status == b.status && a.failureReason == b.failureReason && (a.broadcastAt.Some? <==> b.broadcastAt.Some?)
  }

  lemma FirstEntry(s: SettlementId, payment: Payment, now: Time)
    ensures RowReplayed(NewSettlement(payment, now), [Transition(s, None, Validated, Some("payment_verified"), None)])
  {
    var t := Transition(s, None, Validated, Some("payment_verified"), None);
    assert [t][..0] == [];
    assert Replay([]) == Nothing;
  }

  lemma ReserveKeepsLog(db: Db, r: Reservation, now: Time)
    requires LogInv(db.settlements, db.log)
    ensures var next := ReserveSettlement(db, r, now).After(db); LogInv(next.settlements, next.log)
  {
    var out := ReserveSettlement(db, r, now);
    if out.Commit? && out.value.created {
      var t := Transition(r.settlementId, None, Validated, Some("payment_verified"), None);
      FirstEntry(r.settlementId, r.payment, now);
      assert [] + [t] == [t];
      EntryKeepsLog(db.settlements, db.log, t, NewSettlement(r.payment, now));
    }
  }

  lemma StatusKeepsLog(db: Db, s: SettlementId, to: AttemptStatus, reason: Option<string>, at: Time)
    requires LogInv(db.settlements, db.log)
    ensures var next := UpdateSettlementStatus(db, s, to, reason, at).After(db); LogInv(next.settlements, next.log)
  {
    var out := UpdateSettlementStatus(db, s, to, reason, at);
    if out.Commit? {
      var t := Transition(s, Some(Validated), to, reason, None);
      var h := History(db.log, s);
      LastReplayed(db.settlements[s], h);
      ReplayAppend(db.settlements[s], h, t, out.db.settlements[s]);
      EntryKeepsLog(db.settlements, db.log, t, out.db.settlements[s]);
    }
  }

  lemma ApplyKeepsLog(db: Db, o: Observed)
    requires LogInv(db.settlements, db.log)
    ensures var next := ApplyReconciliationResult(db, o).After(db); LogInv(next.settlements, next.log)
  {
    var s := o.settlementId;
    var out := ApplyReconciliationResult(db, o);
    if out.Commit? && Active(db.settlements[s].status) {
      var row := db.settlements[s];
      var h := History(db.log, s);
      LastReplayed(row, h);
      if out.db.log == db.log {
        SilentKeepsLog(db.settlements, out.db.settlements, db.log);
      } else {
        var t := out.db.log[|db.log|];
        assert out.db.log == db.log + [t];
        ReplayAppend(row, h, t, out.db.settlements[s]);
        EntryKeepsLog(db.settlements, db.log, t, out.db.settlements[s]);
      }
    }
  }

  lemma ClaimKeepsLog(db: Db, picked: set<SettlementId>, until: Time)
    requires LogInv(db.settlements, db.log)
    ensures LogInv(ClaimSettlements(db, picked, until).settlements, db.log)
  {
    SilentKeepsLog(db.settlements, ClaimSettlements(db, picked, until).settlements, db.log);
  }

  /** The rows are the replay of the log after any transaction whatsoever. */
  lemma ExecKeepsLog(db: Db, t: Txn)
    requires LogInv(db.settlements, db.log)
    ensures LogInv(Exec(db, t).settlements, Exec(db, t).log)
  {
    hide LogInv;
    match t
    case TxReserve(r, now) => ReserveKeepsLog(db, r, now);
    case TxStatus(s, to, reason, at) => StatusKeepsLog(db, s, to, reason, at);
    case TxApply(o) => ApplyKeepsLog(db, o);
    case TxClaim(limit, at, until, locked, picked) =>
      ClaimKeepsLog(db, picked, until);
    case TxIssue(_, _) =>
    case TxClaimDelivery(_, _, _) =>
    case TxCompleteDelivery(_, _, _, _) =>
  }

  /** Over every history of transactions, with any inputs, each row is the replay of its own log entries. */
  lemma {:induction false} RowsAreReplays(db: Db, ts: seq<Txn>)
    requires LogInv(db.settlements, db.log)
    ensures LogInv(ExecAll(db, ts).settlements, ExecAll(db, ts).log)
    decreases |ts|
  {
    if ts != [] {
      ExecKeepsLog(db, ts[0]);
      RowsAreReplays(Exec(db, ts[0]), ts[1..]);
    }
  }

  lemma EmptyLog()
    ensures LogInv(EMPTY_DB.settlements, EMPTY_DB.log)
  {
  }

  /* ---------- what a lifecycle looks like ---------- */

  /** validated broadcast? pending* (confirmed | failed | dropped)? */
  ghost predicate WordAt(h: seq<Transition>, broadcasts: nat, pendings: nat, endings: nat) {
    && broadcasts <= 1 && endings <= 1
    && |h| == 1 + broadcasts + pendings + endings
    && h[0].to == Validated
    && (broadcasts == 1 ==> h[1].to == Broadcast)
    && (forall i :: 1 + broadcasts <= i < 1 + broadcasts + pendings ==> h[i].to == Pending)
    && (endings == 1 ==> Ending(h[|h| - 1].to))
    && (forall i :: 1 + broadcasts < i < 1 + broadcasts + pendings ==> h[i].reason != h[i - 1].reason)
    && h[0].from == None
    && (forall i :: 1 <= i < |h| ==> h[i].from == Some(h[i - 1].to))
  }

  ghost predicate IsWord(h: seq<Transition>) {
    exists b: nat, p: nat, e: nat :: WordAt(h, b, p, e)
  }

  lemma WordSnoc(h: seq<Transition>, b: nat, p: nat, e: nat, t: Transition)
    requires WordAt(h, b, p, e) && Follows(h[|h| - 1], t)
    ensures IsWord(h + [t])
  {
    var g := h + [t];
    assert forall i :: 0 <= i < |h| ==> g[i] == h[i];
    assert e == 0;
    if t.to == Broadcast {
      assert WordAt(g, 1, 0, 0);
    } else if t.to == Pending {
      assert WordAt(g, b, p + 1, 0);
    } else {
      assert WordAt(g, b, p, 1);
    }
  }

  lemma {:induction false} LifecycleIsWord(h: seq<Transition>)
    requires Lifecycle(h)
    ensures IsWord(h)
    decreases |h|
  {
    if |h| == 1 {
      assert WordAt(h, 0, 0, 0);
    } else {
      var front := h[..|h| - 1];
      LifecycleIsWord(front);
      var b: nat, p: nat, e: nat :| WordAt(front, b, p, e);
      assert Follows(h[|h| - 2], h[|h| - 1]);
      WordSnoc(front, b, p, e, h[|h| - 1]);
      assert front + [h[|h| - 1]] == h;
    }
  }

  /** The two descriptions of a settlement's history agree: local steps and whole words. */
  lemma LifecycleIffWord(h: seq<Transition>)
    ensures Lifecycle(h) <==> IsWord(h)
  {
    if Lifecycle(h) {
      LifecycleIsWord(h);
    }
    if IsWord(h) {
      var b: nat, p: nat, e: nat :| WordAt(h, b, p, e);
      forall i | 0 <= i < |h| - 1 ensures Follows(h[i], h[i + 1]) {
        assert h[i + 1].from == Some(h[i + 1 - 1].to);
        if 1 + b <= i && i + 1 < 1 + b + p {
          assert h[i + 1].reason != h[i + 1 - 1].reason;
        }
      }
    }
  }

  /** Positions at which the recorded status differs from the one before. */
  function StatusChanges(h: seq<Transition>): nat {
    if |h| <= 1 then 0
    else StatusChanges(h[..|h| - 1]) + (if h[|h| - 1].to != h[|h| - 2].to then 1 else 0)
  }

  lemma {:induction false} WordChanges(h: seq<Transition>, b: nat, p: nat, e: nat)
    requires WordAt(h, b, p, e)
    ensures StatusChanges(h) == b + Min(p, 1) + e
    decreases |h|
  {
    if |h| > 1 {
      var front := h[..|h| - 1];
      assert forall i :: 0 <= i < |front| ==> front[i] == h[i];
      if e == 1 {
        assert WordAt(front, b, p, 0);
        WordChanges(front, b, p, 0);
      } else if p > 0 {
        assert WordAt(front, b, p - 1, 0);
        WordChanges(front, b, p - 1, 0);
        if p > 1 {
          assert h[|h| - 1].to == Pending && h[|h| - 2].to == Pending;
        }
      } else {
        assert WordAt(front, 0, 0, 0);
        WordChanges(front, 0, 0, 0);
      }
    }
  }

  /** A settlement changes status at most three times over its whole history. */
  lemma AtMostThreeChanges(h: seq<Transition>)
    requires Lifecycle(h)
    ensures StatusChanges(h) <= 3
  {
    LifecycleIsWord(h);
    var b: nat, p: nat, e: nat :| WordAt(h, b, p, e);
    WordChanges(h, b, p, e);
  }

  /** Exactly one broadcast entry records exactly one broadcast attempt that was accepted. */
  lemma {:induction false} BroadcastRecorded(h: seq<Transition>)
    requires h != []
    ensures Replay(h).Replayed? && (Replay(h).broadcast <==> exists i :: 0 <= i < |h| && h[i].to == Broadcast)
    decreases |h|
  {
    var front := h[..|h| - 1];
    if front != [] {
      BroadcastRecorded(front);
      if Replay(front).broadcast {
        var i :| 0 <= i < |front| && front[i].to == Broadcast;
        assert h[i].to == Broadcast;
      }
      if exists i :: 0 <= i < |h| && h[i].to == Broadcast {
        var i :| 0 <= i < |h| && h[i].to == Broadcast;
        if i < |front| {
          assert front[i].to == Broadcast;
        }
      }
    } else {
      assert Replay(front) == Nothing;
      assert h[0] == h[|h| - 1];
    }
  }
}
