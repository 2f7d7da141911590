/** The order in which pending backups are tried, and exactly when a record has to wait for ever behind others. */
module BackupQueue {
  import opened Basics
  import opened EvidencePolicy

  /** A record of the scope that is not tombstoned; `intent` is the last touch of its backup intent, once one is
      recorded. */
  datatype Row = Row(createdAt: Time, uploadExpiresAt: Time, expiresAt: Time, pinned: bool, intent: Option<Time>,
                     verified: bool)

  datatype State = State(rows: map<Id, Row>, now: Time)

  /** What became of one candidate. A failure before the intent was recorded leaves no row that could be moved back. */
  datatype Attempt = Verified | FailedAfterIntent | FailedBeforeIntent

  datatype Event =
    | Tick(ms: nat)
    | Insert(id: Id, started: Time, retentionSeconds: nat)
    | Complete(id: Id)
    | Remove(id: Id)
    | Forget(id: Id)
    | Batch(limit: nat, picked: set<Id>, attempts: map<Id, Attempt>)

  const EMPTY := State(map[], 0)

  /* ---------- rows ---------- */

  predicate Live(row: Row, now: Time) {
    now < row.expiresAt && !row.verified
  }

  predicate Candidate(s: State, id: Id) {
    id in s.rows && Live(s.rows[id], s.now) && s.rows[id].pinned
  }

  /** It is a candidate, or can still be completed into one. */
  predicate MayCome(row: Row, now: Time) {
    Live(row, now) && (row.pinned || now < row.uploadExpiresAt)
  }

  /** The manifest policy accepts an intent drawn up now. */
  predicate Reservable(row: Row, now: Time) {
    row.expiresAt - now <= RETENTION && row.expiresAt + GRACE <= MAX_TIMESTAMP
  }

  /** Reserving fails, and nothing is recorded that could move the row back. */
  predicate Stuck(row: Row, now: Time) {
    row.intent.None? && !Reservable(row, now)
  }

  function SortTime(row: Row): Time {
    if row.intent.Some? then row.intent.value else row.createdAt
  }

  /** ORDER BY coalesce(updated_at, created_at), id. */
  predicate Sooner(rows: map<Id, Row>, a: Id, b: Id)
    requires a in rows && b in rows
  {
    SortTime(rows[a]) < SortTime(rows[b]) || (SortTime(rows[a]) == SortTime(rows[b]) && a < b)
  }

  function Candidates(s: State): set<Id> {
    set id | id in s.rows && Candidate(s, id)
  }

  /** Whoever is tried before `x`, or can still be completed into its way. */
  function Rivals(s: State, x: Id): set<Id>
    requires x in s.rows
  {
    set k | k in s.rows && MayCome(s.rows[k], s.now) && Sooner(s.rows, k, x)
  }

  function StuckRivals(s: State, x: Id): set<Id>
    requires x in s.rows
  {
    set k | k in Rivals(s, x) && Stuck(s.rows[k], s.now)
  }

  /* ---------- events ---------- */

  /** ORDER BY ... LIMIT. */
  predicate IsFirst(s: State, limit: nat, picked: set<Id>) {
    && picked <= Candidates(s) && |picked| == Min(limit, |Candidates(s)|)
    && forall a, b :: a in picked && b in Candidates(s) && b !in picked ==> Sooner(s.rows, a, b)
  }

  predicate Enabled(s: State, e: Event) {
    match e
    case Tick(_) => true
    case Insert(id, started, retention) => id !in s.rows && started <= s.now && 600 <= retention <= 31536000
    case Complete(id) =>
      && id in s.rows && s.now < s.rows[id].expiresAt
      && (s.rows[id].pinned || s.now < s.rows[id].uploadExpiresAt)
    case Remove(id) =>
      && id in s.rows
      && (s.rows[id].expiresAt <= s.now || (!s.rows[id].pinned && s.rows[id].uploadExpiresAt + SIGNING_SLACK < s.now))
    case Forget(id) => id in s.rows && s.rows[id].expiresAt + GRACE <= s.now
    // a batch may break off: only some of the picked are attempted then
    case Batch(limit, picked, attempts) =>
      && 1 <= limit <= 10 && IsFirst(s, limit, picked) && attempts.Keys <= picked
      && forall id :: id in attempts && !Reservable(s.rows[id], s.now) ==> attempts[id] == FailedBeforeIntent
  }

  /** A verified row is done with; a failed one moves behind older work, if it has an intent by then. */
  function Touched(row: Row, a: Attempt, now: Time): Row {
    match a
    case Verified => row.(verified := true, intent := Some(now))
    case FailedAfterIntent => row.(intent := Some(now))
    case FailedBeforeIntent => if row.intent.Some? then row.(intent := Some(now)) else row
  }

  function Step(s: State, e: Event): State {
    match e
    case Tick(ms) => s.(now := s.now + ms)
    case Insert(id, started, retention) =>
      s.(rows := s.rows[id := Row(s.now, started + UPLOAD, started + 1000 * retention, false, None, false)])
    case Complete(id) => if id !in s.rows then s else s.(rows := s.rows[id := s.rows[id].(pinned := true)])
    case Remove(id) => s.(rows := s.rows - {id})
    case Forget(id) =>
      if id !in s.rows then s else s.(rows := s.rows[id := s.rows[id].(intent := None, verified := false)])
    case Batch(_, _, attempts) =>
      s.(rows := map id | id in s.rows ::
           if id in attempts then Touched(s.rows[id], attempts[id], s.now) else s.rows[id])
  }

  ghost predicate Run(s: State, es: seq<Event>)
    decreases |es|
  {
    es != [] ==> Enabled(s, es[0]) && Run(Step(s, es[0]), es[1..])
  }

  function After(s: State, es: seq<Event>): State
    decreases |es|
  {
    if es == [] then s else After(Step(s, es[0]), es[1..])
  }

  /** Completed, unexpired records without a verified backup. */
  function Waiting(s: State): set<Id> {
    set id | id in s.rows && s.rows[id].pinned && !s.rows[id].verified && s.now < s.rows[id].expiresAt
  }

  /** Touched less recently, by its intent or else by its creation, or at the same time and smaller. */
  predicate Older(a: Row, i: Id, b: Row, j: Id) {
    var at := match a.intent case Some(updatedAt) => updatedAt case None => a.createdAt;
    var bt := match b.intent case Some(updatedAt) => updatedAt case None => b.createdAt;
    if at == bt then i < j else at < bt
  }

  /** A batch takes the least recently touched of those that wait, up to its limit. */
  lemma BatchTakesOldest(s: State, e: Event)
    requires Enabled(s, e) && e.Batch?
    ensures e.picked <= Waiting(s) && |e.picked| == Min(e.limit, |Waiting(s)|)
    ensures forall a, b :: a in e.picked && b in Waiting(s) - e.picked ==> Older(s.rows[a], a, s.rows[b], b)
  {
    assert Waiting(s) == Candidates(s);
  }

  /** A batch that got to the end of what it picked. */
  predicate Completed(e: Event, limit: nat) {
    e.Batch? && e.limit >= limit && e.attempts.Keys == e.picked
  }

  function Batches(es: seq<Event>, limit: nat): nat {
    if es == [] then 0 else (if Completed(es[0], limit) then 1 else 0) + Batches(es[1..], limit)
  }

  /** Reservations that failed although the policy accepts them: the database was disturbed. */
  function FaultsOf(s: State, e: Event): set<Id> {
    if e.Batch? then
      set id | id in e.attempts && id in s.rows && e.attempts[id] == FailedBeforeIntent && !Stuck(s.rows[id], s.now)
               && s.rows[id].intent.None?
    else {}
  }

  function Faults(s: State, es: seq<Event>): nat
    decreases |es|
  {
    if es == [] then 0 else |FaultsOf(s, es[0])| + Faults(Step(s, es[0]), es[1..])
  }

  predicate TriedIn(es: seq<Event>, x: Id) {
    exists i :: 0 <= i < |es| && es[i].Batch? && x in es[i].attempts
  }

  /* ---------- a bounded wait ---------- */

  /** `x` is a candidate that was last touched before now, and is not yet expired at `later`. */
  predicate Waits(s: State, x: Id, later: Time) {
    Candidate(s, x) && SortTime(s.rows[x]) < s.now <= later < s.rows[x].expiresAt
  }

  predicate Misses(e: Event, x: Id) {
    e.Batch? ==> x !in e.attempts
  }

  lemma StillWaits(s: State, e: Event, x: Id, later: Time)
    requires Waits(s, x, later) && Enabled(s, e) && Misses(e, x) && Step(s, e).now <= later
    ensures Waits(Step(s, e), x, later) && SortTime(Step(s, e).rows[x]) == SortTime(s.rows[x])
    ensures Step(s, e).rows[x].expiresAt == s.rows[x].expiresAt
  {
    hide IsFirst;
  }

  /** Nobody gets ahead of `x` who was not there before, and nobody gets stuck. */
  lemma RivalsOnlyLeave(s: State, e: Event, x: Id, later: Time)
    requires Waits(s, x, later) && Enabled(s, e) && Misses(e, x) && Step(s, e).now <= later
    ensures x in Step(s, e).rows
    ensures Rivals(Step(s, e), x) <= Rivals(s, x) && StuckRivals(Step(s, e), x) <= StuckRivals(s, x)
  {
    StillWaits(s, e, x, later);
    hide IsFirst;
  }

  /** A completed batch that passes over `x` is a full one from ahead of it; all of it but the stuck and the disturbed
      goes behind or is done. */
  lemma BatchEats(s: State, e: Event, x: Id, later: Time, limit: nat)
    requires Waits(s, x, later) && Enabled(s, e) && Completed(e, limit) && Misses(e, x)
    ensures x in Step(s, e).rows
    ensures |Rivals(Step(s, e), x)| + limit <= |Rivals(s, x)| + |StuckRivals(s, x)| + |FaultsOf(s, e)|
  {
    RivalsOnlyLeave(s, e, x, later);
    PassedOver(s, e, x);
    var idle, faulty := e.picked * StuckRivals(s, x), FaultsOf(s, e);
    var moved := e.picked - idle - faulty;
    MovedAway(s, e, x, moved);
    SubsetSize(idle, StuckRivals(s, x));
    SubsetSize(e.picked, moved + idle + faulty);
    SubsetSize(Rivals(Step(s, e), x), Rivals(s, x) - moved);
    assert |Rivals(s, x) - moved| == |Rivals(s, x)| - |moved|;
    assert |moved + idle + faulty| <= |moved| + |idle| + |faulty|;
  }

  lemma PassedOver(s: State, e: Event, x: Id)
    requires Candidate(s, x) && Enabled(s, e) && e.Batch? && x !in e.picked
    ensures e.picked <= Rivals(s, x) && |e.picked| == e.limit
  {
    assert x in Candidates(s);
    SubsetSize(e.picked, Candidates(s) - {x});
    forall k | k in e.picked ensures k in Rivals(s, x) {
      assert k in Candidates(s) && Sooner(s.rows, k, x);
    }
  }

  lemma MovedAway(s: State, e: Event, x: Id, moved: set<Id>)
    requires x in s.rows && SortTime(s.rows[x]) < s.now && Enabled(s, e) && e.Batch? && e.attempts.Keys == e.picked
    requires e.picked <= Rivals(s, x) && x !in e.picked
    requires moved == e.picked - e.picked * StuckRivals(s, x) - FaultsOf(s, e)
    ensures moved <= Rivals(s, x) && Rivals(Step(s, e), x) !! moved
  {
    hide IsFirst;
    forall k | k in moved ensures k !in Rivals(Step(s, e), x) {
      assert k in e.attempts && k in Rivals(s, x);
    }
  }

  lemma {:induction false} BatchesUntilTried(s: State, es: seq<Event>, x: Id, limit: nat)
    requires Waits(s, x, After(s, es).now) && Run(s, es) && !TriedIn(es, x) && |StuckRivals(s, x)| < limit
    ensures x in After(s, es).rows
    ensures Batches(es, limit) * (limit - |StuckRivals(s, x)|) + |Rivals(After(s, es), x)| <=
            |Rivals(s, x)| + Faults(s, es)
    decreases |es|
  {
    hide Enabled, Step, Waits, Rivals, StuckRivals, Completed, FaultsOf;
    WaitingIs(s, x, After(s, es).now);
    if es != [] {
      var e, t, later := es[0], Step(s, es[0]), After(s, es).now;
      NotTriedLater(es, x);
      ClockAdvances(t, es[1..]);
      StillWaits(s, e, x, later);
      RivalsOnlyLeave(s, e, x, later);
      SubsetSize(StuckRivals(t, x), StuckRivals(s, x));
      SubsetSize(Rivals(t, x), Rivals(s, x));
      BatchesUntilTried(t, es[1..], x, limit);
      Slower(Batches(es[1..], limit), limit, |StuckRivals(t, x)|, |StuckRivals(s, x)|);
      if Completed(e, limit) {
        BatchEats(s, e, x, later, limit);
        assert Batches(es, limit) == Batches(es[1..], limit) + 1;
        OneMore(Batches(es[1..], limit), limit - |StuckRivals(s, x)|);
      }
    }
  }

  lemma WaitingIs(s: State, x: Id, later: Time)
    requires Waits(s, x, later)
    ensures x in s.rows
  {
  }

  lemma Slower(batches: nat, limit: nat, fewer: nat, stuck: nat)
    requires fewer <= stuck < limit
    ensures batches * (limit - stuck) <= batches * (limit - fewer)
  {
  }

  lemma OneMore(batches: nat, size: nat)
    ensures (batches + 1) * size == batches * size + size
  {
  }

  lemma NotTriedLater(es: seq<Event>, x: Id)
    requires es != [] && !TriedIn(es, x)
    ensures !TriedIn(es[1..], x) && Misses(es[0], x)
  {
    forall i | 0 <= i < |es[1..]| && es[1..][i].Batch? ensures x !in es[1..][i].attempts {
      assert es[1..][i] == es[i + 1];
    }
  }

  lemma {:induction false} ClockAdvances(s: State, es: seq<Event>)
    ensures s.now <= After(s, es).now
    decreases |es|
  {
    if es != [] {
      ClockAdvances(Step(s, es[0]), es[1..]);
    }
  }

  /** Whatever happens: with s stuck rivals, fewer than a batch takes, and d rivals in all, a candidate that does not
      expire first is tried within floor((d + f) / (limit - s)) + 1 completed batches, f of whose reservations were
      disturbed. */
  lemma CandidateIsTried(s: State, es: seq<Event>, x: Id, limit: nat)
    requires Waits(s, x, After(s, es).now) && Run(s, es) && |StuckRivals(s, x)| < limit
    requires Batches(es, limit) > (|Rivals(s, x)| + Faults(s, es)) / (limit - |StuckRivals(s, x)|)
    ensures TriedIn(es, x)
  {
    if !TriedIn(es, x) {
      BatchesUntilTried(s, es, x, limit);
      MoreThanFits(Batches(es, limit), limit - |StuckRivals(s, x)|, |Rivals(s, x)| + Faults(s, es));
    }
  }

  lemma MoreThanFits(batches: nat, size: nat, queued: nat)
    requires size > 0 && batches > queued / size
    ensures batches * size > queued
  {
    assert batches * size >= (queued / size + 1) * size;
  }

  /* ---------- a head that does not move ---------- */

  /** Candidates ahead of `x` that are stuck now and will be at `later`. */
  function StuckUntil(s: State, x: Id, later: Time): set<Id>
    requires x in s.rows
  {
    set k | k in s.rows && s.rows[k].pinned && Live(s.rows[k], later) && Stuck(s.rows[k], later) && Sooner(s.rows, k, x)
  }

  lemma HeadStays(s: State, e: Event, x: Id, later: Time)
    requires Waits(s, x, later) && Enabled(s, e) && Misses(e, x) && Step(s, e).now <= later
    ensures x in Step(s, e).rows && StuckUntil(s, x, later) <= StuckUntil(Step(s, e), x, later)
  {
    hide IsFirst;
    StillWaits(s, e, x, later);
  }

  lemma HeadComesFirst(s: State, e: Event, x: Id, later: Time)
    requires Waits(s, x, later) && Enabled(s, e) && e.Batch? && e.limit <= |StuckUntil(s, x, later)|
    ensures x !in e.attempts
  {
    var stuck, others := StuckUntil(s, x, later), e.picked - {x};
    forall k | k in stuck ensures k in Candidates(s) && Sooner(s.rows, k, x) {
    }
    assert x in e.picked ==> |others| == |e.picked| - 1;
    assert x in e.picked ==> stuck <= others;
    if stuck <= others {
      SubsetSize(stuck, others);
    }
  }

  /** While as many candidates ahead stay stuck as a batch takes, a candidate is never tried, over any number of
      batches. */
  lemma {:induction false} StuckHeadBlocks(s: State, es: seq<Event>, x: Id)
    requires Waits(s, x, After(s, es).now) && Run(s, es)
    requires forall i :: 0 <= i < |es| && es[i].Batch? ==> es[i].limit <= |StuckUntil(s, x, After(s, es).now)|
    ensures !TriedIn(es, x)
    decreases |es|
  {
    hide Enabled, Step, Waits, StuckUntil;
    WaitingIs(s, x, After(s, es).now);
    if es != [] {
      var e, t, later := es[0], Step(s, es[0]), After(s, es).now;
      ClockAdvances(t, es[1..]);
      if e.Batch? {
        HeadComesFirst(s, e, x, later);
      }
      StillWaits(s, e, x, later);
      HeadStays(s, e, x, later);
      SubsetSize(StuckUntil(s, x, later), StuckUntil(t, x, later));
      forall i | 0 <= i < |es[1..]| && es[1..][i].Batch? ensures es[1..][i].limit <= |StuckUntil(t, x, later)| {
        assert es[1..][i] == es[i + 1];
      }
      StuckHeadBlocks(t, es[1..], x);
      forall i | 0 <= i < |es| && es[i].Batch? ensures x !in es[i].attempts {
        if i > 0 {
          assert es[1..][i - 1] == es[i];
        }
      }
    }
  }

  /* ---------- both together, as a condition on the present state ---------- */

  /** Enough completed, undisturbed batches of this size try `x`, whatever else happens, unless it expires first. */
  ghost predicate AlwaysTried(s: State, x: Id, limit: nat)
    requires x in s.rows
  {
    exists n: nat :: TriedWithin(s, x, limit, n)
  }

  ghost predicate TriedWithin(s: State, x: Id, limit: nat, n: nat)
    requires x in s.rows
  {
    forall es ::
      Run(s, es) && Faults(s, es) == 0 && Batches(es, limit) > n && After(s, es).now < s.rows[x].expiresAt ==>
        TriedIn(es, x)
  }

  /** A candidate is sure to be tried exactly when fewer than a batch of its rivals are stuck. */
  lemma AlwaysTriedIff(s: State, x: Id, limit: nat)
    requires Waits(s, x, s.now) && 1 <= limit <= 10
    ensures AlwaysTried(s, x, limit) <==> |StuckRivals(s, x)| < limit
  {
    hide Run, Faults, Batches, After, TriedIn, Rivals, StuckRivals, Waits;
    WaitingIs(s, x, s.now);
    if |StuckRivals(s, x)| < limit {
      EnoughBatches(s, x, limit, |Rivals(s, x)| / (limit - |StuckRivals(s, x)|));
    } else {
      forall n: nat ensures !TriedWithin(s, x, limit, n) {
        StillOpen(s, x);
        var es := StarvingRun(s, x, limit, n + 1);
      }
    }
  }

  lemma StillOpen(s: State, x: Id)
    requires Waits(s, x, s.now)
    ensures s.now < s.rows[x].expiresAt
  {
  }

  lemma EnoughBatches(s: State, x: Id, limit: nat, n: nat)
    requires Waits(s, x, s.now) && |StuckRivals(s, x)| < limit && n == |Rivals(s, x)| / (limit - |StuckRivals(s, x)|)
    ensures TriedWithin(s, x, limit, n)
  {
    hide Run, Faults, Batches, After, TriedIn, Rivals, StuckRivals;
    forall es | Run(s, es) && Faults(s, es) == 0 && Batches(es, limit) > n && After(s, es).now < s.rows[x].expiresAt
      ensures TriedIn(es, x)
    {
      ClockAdvances(s, es);
      CandidateIsTried(s, es, x, limit);
    }
  }

  /** All the stuck rivals complete, and then come any number of batches. */
  lemma StarvingRun(s: State, x: Id, limit: nat, n: nat) returns (es: seq<Event>)
    requires Waits(s, x, s.now) && 1 <= limit <= 10 && |StuckRivals(s, x)| >= limit
    ensures Run(s, es) && Faults(s, es) == 0 && Batches(es, limit) >= n && After(s, es).now == s.now && !TriedIn(es, x)
  {
    var stuck := StuckRivals(s, x);
    var cs := CompleteAll(s, stuck, limit);
    var t := After(s, cs);
    var bs := IdleBatches(t, limit, n);
    es := cs + bs;
    RunsOn(s, cs, bs, limit);
    assert stuck <= StuckUntil(t, x, s.now);
    SubsetSize(stuck, StuckUntil(t, x, s.now));
    StuckHeadBlocks(t, bs, x);
    NotTriedInEither(cs, bs, x);
  }

  lemma NotTriedInEither(cs: seq<Event>, bs: seq<Event>, x: Id)
    requires !TriedIn(bs, x) && forall i :: 0 <= i < |cs| ==> !cs[i].Batch?
    ensures !TriedIn(cs + bs, x)
  {
    forall i | 0 <= i < |cs + bs| && (cs + bs)[i].Batch? ensures x !in (cs + bs)[i].attempts {
      assert i >= |cs| && (cs + bs)[i] == bs[i - |cs|];
    }
  }

  function AllPinned(s: State, ids: set<Id>): State {
    s.(rows := map k | k in s.rows :: if k in ids then s.rows[k].(pinned := true) else s.rows[k])
  }

  lemma {:induction false} CompleteAll(s: State, ids: set<Id>, limit: nat) returns (es: seq<Event>)
    requires ids <= s.rows.Keys && forall k :: k in ids ==> MayCome(s.rows[k], s.now)
    ensures Run(s, es) && After(s, es) == AllPinned(s, ids) && Faults(s, es) == 0 && Batches(es, limit) == 0
    ensures forall i :: 0 <= i < |es| ==> !es[i].Batch?
    decreases |ids|
  {
    if ids == {} {
      es := [];
      assert AllPinned(s, {}) == s;
    } else {
      var k :| k in ids;
      var t := Step(s, Complete(k));
      var rest := CompleteAll(t, ids - {k}, limit);
      es := [Complete(k)] + rest;
      assert es[1..] == rest;
      assert AllPinned(t, ids - {k}) == AllPinned(s, ids);
    }
  }

  lemma {:induction false} RunsOn(s: State, es: seq<Event>, fs: seq<Event>, limit: nat)
    requires Run(s, es) && Run(After(s, es), fs)
    ensures Run(s, es + fs) && After(s, es + fs) == After(After(s, es), fs)
    ensures Faults(s, es + fs) == Faults(s, es) + Faults(After(s, es), fs)
    ensures Batches(es + fs, limit) == Batches(es, limit) + Batches(fs, limit)
    decreases |es|
  {
    hide Enabled, Step, FaultsOf, Completed;
    if es == [] {
      assert es + fs == fs;
    } else {
      RunsOn(Step(s, es[0]), es[1..], fs, limit);
      assert (es + fs)[1..] == es[1..] + fs;
    }
  }

  /** ORDER BY ... LIMIT always has an answer. */
  lemma {:induction false} FirstExists(rows: map<Id, Row>, all: set<Id>, limit: nat) returns (picked: set<Id>)
    requires all <= rows.Keys
    ensures picked <= all && |picked| == Min(limit, |all|)
    ensures forall a, b :: a in picked && b in all && b !in picked ==> Sooner(rows, a, b)
    decreases limit
  {
    if limit == 0 || all == {} {
      picked := {};
    } else {
      var first := Earliest(rows, all);
      var rest := FirstExists(rows, all - {first}, limit - 1);
      picked := rest + {first};
      assert |all - {first}| == |all| - 1;
    }
  }

  lemma {:induction false} Earliest(rows: map<Id, Row>, all: set<Id>) returns (first: Id)
    requires all <= rows.Keys && all != {}
    ensures first in all && forall k :: k in all && k != first ==> Sooner(rows, first, k)
    decreases |all|
  {
    var k :| k in all;
    if all == {k} {
      first := k;
    } else {
      var other := Earliest(rows, all - {k});
      first := if Sooner(rows, k, other) then k else other;
      forall j | j in all && j != first ensures Sooner(rows, first, j) {
        assert j == k || j in all - {k};
      }
    }
  }

  /** A batch in which the database answers every time and every copy fails. */
  lemma IdleBatch(s: State, limit: nat) returns (e: Event)
    requires 1 <= limit <= 10
    ensures Enabled(s, e) && Completed(e, limit) && e.limit == limit && FaultsOf(s, e) == {} && Step(s, e).now == s.now
  {
    var picked := FirstExists(s.rows, Candidates(s), limit);
    var attempts := map id | id in picked ::
      if Reservable(s.rows[id], s.now) then FailedAfterIntent else FailedBeforeIntent;
    e := Batch(limit, picked, attempts);
    assert attempts.Keys == picked;
  }

  lemma {:induction false} IdleBatches(s: State, limit: nat, n: nat) returns (es: seq<Event>)
    requires 1 <= limit <= 10
    ensures Run(s, es) && Faults(s, es) == 0 && Batches(es, limit) == n && After(s, es).now == s.now
    ensures forall i :: 0 <= i < |es| ==> es[i].Batch? && es[i].limit == limit
    decreases n
  {
    if n == 0 {
      es := [];
    } else {
      var e := IdleBatch(s, limit);
      hide Enabled, Step, FaultsOf, Completed;
      var rest := IdleBatches(Step(s, e), limit, n - 1);
      es := [e] + rest;
      assert es[1..] == rest;
    }
  }

  /* ---------- when it happens ---------- */

  /** Under the deployed retention, thirty days from before the row was inserted, no rival is ever stuck: everyone is
      tried. */
  lemma DeployedRetentionNeverBlocks(s: State, x: Id, limit: nat)
    requires Waits(s, x, s.now) && 1 <= limit <= 10
    requires forall k :: k in s.rows ==>
               s.rows[k].expiresAt <= s.rows[k].createdAt + RETENTION && s.rows[k].createdAt <= s.now
               && s.rows[k].expiresAt + GRACE <= MAX_TIMESTAMP
    ensures AlwaysTried(s, x, limit)
  {
    assert StuckRivals(s, x) == {};
    AlwaysTriedIff(s, x, limit);
  }

  const LONG := 3456000

  /** Records inserted with a retention of forty days and completed, all at once. */
  const HELD := Row(0, UPLOAD, 1000 * LONG, true, None, false)

  function Held(n: nat): map<Id, Row> {
    if n == 0 then map[] else Held(n - 1)[n - 1 := HELD]
  }

  lemma {:induction false} HeldIs(n: nat)
    ensures |Held(n)| == n
    ensures forall k :: k in Held(n) ==> k < n && Held(n)[k] == HELD
    ensures forall k: Id :: k < n ==> k in Held(n)
  {
    if n == 0 {
      assert Held(0) == map[];
    } else {
      HeldIs(n - 1);
      var before := Held(n - 1);
      assert Held(n) == before[n - 1 := HELD];
    }
  }

  lemma {:induction false} HeldReachable(n: nat) returns (es: seq<Event>)
    ensures Run(EMPTY, es) && After(EMPTY, es) == State(Held(n), 0)
    decreases n
  {
    if n == 0 {
      es := [];
      assert State(Held(n), 0) == EMPTY;
    } else {
      var before := HeldReachable(n - 1);
      var insert, complete := Insert(n - 1, 0, LONG), Complete(n - 1);
      OneMoreHeld(n);
      RunsOn(EMPTY, before, [insert, complete], 1);
      es := before + [insert, complete];
    }
  }

  lemma OneMoreHeld(n: nat)
    requires n > 0
    ensures var s, es := State(Held(n - 1), 0), [Insert(n - 1, 0, LONG), Complete(n - 1)];
      Run(s, es) && After(s, es) == State(Held(n), 0)
  {
    var s, insert, complete := State(Held(n - 1), 0), Insert(n - 1, 0, LONG), Complete(n - 1);
    HeldIs(n - 1);
    var t := Step(s, insert);
    assert Enabled(s, insert) && Enabled(t, complete);
    assert Step(t, complete).rows == Held(n);
    hide Enabled, Step;
    assert [insert, complete][1..] == [complete] && [complete][1..] == [];
    assert Run(Step(t, complete), []);
    assert Run(t, [complete]) && After(t, [complete]) == Step(t, complete);
  }

  lemma HeldAreStuck(n: nat)
    ensures var s := State(Held(n + 1), 1);
      Waits(s, n, s.now) && |StuckRivals(s, n)| == n
  {
    HeldIs(n + 1);
    HeldIs(n);
    var s := State(Held(n + 1), 1);
    hide Held;
    forall k ensures k in StuckRivals(s, n) <==> k in Held(n).Keys {
      assert k in s.rows ==> s.rows[k] == HELD;
    }
    assert StuckRivals(s, n) == Held(n).Keys;
  }

  /** Ten records kept for forty days, and an eleventh record behind them that no number of batches is sure to try. */
  lemma BlockedIsReachable() returns (es: seq<Event>)
    ensures Run(EMPTY, es)
    ensures var s := After(EMPTY, es);
      Waits(s, 10, s.now) && forall limit :: 1 <= limit <= 10 ==> !AlwaysTried(s, 10, limit)
  {
    hide Held, Waits, StuckRivals, Enabled;
    var before := HeldReachable(11);
    es := before + [Tick(1)];
    var s := State(Held(11), 1);
    Ticks(State(Held(11), 0));
    RunsOn(EMPTY, before, [Tick(1)], 1);
    HeldAreStuck(10);
    WaitingIs(s, 10, s.now);
    forall limit | 1 <= limit <= 10 ensures !AlwaysTried(s, 10, limit) {
      AlwaysTriedIff(s, 10, limit);
    }
  }

  lemma Ticks(s: State)
    ensures Run(s, [Tick(1)]) && After(s, [Tick(1)]) == s.(now := s.now + 1)
  {
    assert [Tick(1)][1..] == [];
  }
}
