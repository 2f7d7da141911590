/** The snapshot cache in front of the pool: one load at a time, a freshness deadline, and a cool-down after failure. */
module PaymentCache {
  import opened Basics
  import opened PublicPayments

  const FRESH_MS := 60000
  const COOL_DOWN_MS := 10000

  datatype Cached = Cached(until: nat, value: Snapshot)

  /** `Settled` is the moment between a load's outcome and its promise being forgotten. */
  datatype Pending = NoLoad | Loading | Settled

  datatype Cache = Cache(cached: Option<Cached>, pending: Pending, failedUntil: nat)

  datatype Answer = Served(value: Snapshot) | Joined | CoolingDown | Started

  datatype Event = Ask(at: nat) | Succeed(value: Snapshot, at: nat) | Fail(at: nat) | Forget(at: nat)

  const EMPTY := Cache(None, NoLoad, 0)

  function AskSpec(c: Cache, now: nat): (Cache, Answer) {
    if c.cached.Some? && c.cached.value.until > now then (c, Served(c.cached.value.value))
    else if c.pending != NoLoad then (c, Joined)
    else if c.failedUntil > now then (c, CoolingDown)
    else (c.(pending := Loading), Started)
  }

  function Step(c: Cache, e: Event): Cache {
    match e
    case Ask(at) => AskSpec(c, at).0
    case Succeed(value, at) => c.(cached := Some(Cached(at + FRESH_MS, value)), pending := Settled)
    case Fail(at) => c.(failedUntil := at + COOL_DOWN_MS, pending := Settled)
    case Forget(_) => c.(pending := NoLoad)
  }

  /** A load settles only while it is running, and is forgotten only once settled. */
  predicate Possible(c: Cache, e: Event) {
    match e
    case Ask(_) => true
    case Succeed(_, _) => c.pending == Loading
    case Fail(_) => c.pending == Loading
    case Forget(_) => c.pending == Settled
  }

  class PublicPaymentService {
    var cached: Option<Cached>
    var pending: Pending
    var failedUntil: nat

    function State(): Cache
      reads this
    {
      Cache(cached, pending, failedUntil)
    }

    constructor ()
      ensures State() == EMPTY
    {
      cached, pending, failedUntil := None, NoLoad, 0;
    }

    method Ask(now: nat) returns (a: Answer)
      modifies this
      ensures (State(), a) == AskSpec(old(State()), now)
    {
      if cached.Some? && cached.value.until > now {
        return Served(cached.value.value);
      }
      if pending != NoLoad {
        return Joined;
      }
      if failedUntil > now {
        return CoolingDown;
      }
      pending := Loading;
      a := Started;
    }

    /** The load's promise settles: the cache or the cool-down is set, and the promise is forgotten afterwards. */
    method Settle(result: Option<Snapshot>, now: nat)
      requires pending == Loading
      modifies this
      ensures State() == Step(old(State()), if result.Some? then Succeed(result.value, now) else Fail(now))
    {
      if result.Some? {
        cached := Some(Cached(now + FRESH_MS, result.value));
      } else {
        failedUntil := now + COOL_DOWN_MS;
      }
      pending := Settled;
    }

    method Finally()
      requires pending == Settled
      modifies this
      ensures State() == Step(old(State()), Forget(0))
    {
      pending := NoLoad;
    }
  }

  /* ---------- runs from an empty cache ---------- */

  function After(es: seq<Event>, k: nat): Cache
    requires k <= |es|
  {
    if k == 0 then EMPTY else Step(After(es, k - 1), es[k - 1])
  }

  predicate PossibleAt(es: seq<Event>, k: nat)
    requires k < |es|
  {
    Possible(After(es, k), es[k])
  }

  predicate Run(es: seq<Event>) {
    && (forall k :: 0 <= k < |es| ==> PossibleAt(es, k))
    && (forall j, k :: 0 <= j < k < |es| ==> es[j].at <= es[k].at)
  }

  lemma AfterNext(es: seq<Event>, k: nat)
    requires k < |es|
    ensures After(es, k + 1) == Step(After(es, k), es[k])
  {
  }

  lemma StartsEmpty(es: seq<Event>)
    ensures After(es, 0) == EMPTY
  {
  }

  lemma RunAt(es: seq<Event>, k: nat)
    requires Run(es) && k < |es|
    ensures Possible(After(es, k), es[k])
    ensures forall j :: 0 <= j < k ==> es[j].at <= es[k].at
  {
    hide After;
    assert PossibleAt(es, k);
  }

  predicate Gives(es: seq<Event>, k: nat, a: Answer)
    requires k < |es|
  {
    es[k].Ask? && AskSpec(After(es, k), es[k].at).1 == a
  }

  lemma {:induction false} StaysLoading(es: seq<Event>, i: nat, j: nat)
    requires i < j <= |es| && Run(es) && Gives(es, i, Started)
    requires forall k :: i < k < j ==> !es[k].Succeed? && !es[k].Fail?
    ensures After(es, j).pending == Loading
    decreases j
  {
    hide Run, After;
    AfterNext(es, j - 1);
    RunAt(es, j - 1);
    if i + 1 < j {
      StaysLoading(es, i, j - 1);
    }
  }

  /** At most one load is in flight: between two starts, the first load has succeeded or failed. */
  lemma SingleFlight(es: seq<Event>, i: nat, j: nat)
    requires i < j < |es| && Run(es) && Gives(es, i, Started) && Gives(es, j, Started)
    ensures exists k :: i < k < j && (es[k].Succeed? || es[k].Fail?)
  {
    if forall k :: i < k < j ==> !es[k].Succeed? && !es[k].Fail? {
      StaysLoading(es, i, j);
    }
  }

  lemma {:induction false} CacheRemembers(es: seq<Event>, k: nat, j: nat)
    requires k < j <= |es| && Run(es) && es[k].Succeed?
    ensures After(es, j).cached.Some? && After(es, j).cached.value.until >= es[k].at + FRESH_MS
    decreases j
  {
    hide Run, After;
    AfterNext(es, j - 1);
    RunAt(es, j - 1);
    if k + 1 < j {
      CacheRemembers(es, k, j - 1);
    }
  }

  lemma {:induction false} CacheIsFrom(es: seq<Event>, j: nat) returns (k: nat)
    requires j <= |es| && Run(es) && After(es, j).cached.Some?
    ensures k < j && es[k].Succeed? && After(es, j).cached.value == Cached(es[k].at + FRESH_MS, es[k].value)
    ensures forall m :: k < m < j ==> !es[m].Succeed?
    decreases j
  {
    StartsEmpty(es);
    hide Run, After;
    AfterNext(es, j - 1);
    if es[j - 1].Succeed? {
      k := j - 1;
    } else {
      k := CacheIsFrom(es, j - 1);
    }
  }

  /** A served value is that of the latest successful load, which succeeded less than 60 seconds before. */
  lemma ServedIsFresh(es: seq<Event>, j: nat) returns (k: nat)
    requires j < |es| && Run(es) && es[j].Ask? && AskSpec(After(es, j), es[j].at).1.Served?
    ensures k < j && es[k].Succeed? && Gives(es, j, Served(es[k].value))
    ensures es[k].at <= es[j].at < es[k].at + 60000
    ensures forall m :: k < m < j ==> !es[m].Succeed?
  {
    k := CacheIsFrom(es, j);
  }

  lemma {:induction false} CoolDownRemembers(es: seq<Event>, k: nat, j: nat)
    requires k < j <= |es| && Run(es) && es[k].Fail?
    ensures After(es, j).failedUntil >= es[k].at + COOL_DOWN_MS
    decreases j
  {
    hide Run, After;
    AfterNext(es, j - 1);
    RunAt(es, j - 1);
    if k + 1 < j {
      CoolDownRemembers(es, k, j - 1);
    }
  }

  /** No load starts within 10 seconds of any failure, nor within 60 seconds of any success. */
  lemma LoadsAreApart(es: seq<Event>, k: nat, j: nat)
    requires k < j < |es| && Run(es) && Gives(es, j, Started)
    ensures es[k].Fail? ==> es[j].at >= es[k].at + 10000
    ensures es[k].Succeed? ==> es[j].at >= es[k].at + 60000
  {
    if es[k].Fail? {
      CoolDownRemembers(es, k, j);
    } else if es[k].Succeed? {
      CacheRemembers(es, k, j);
    }
  }

  lemma {:induction false} CoolDownIsFrom(es: seq<Event>, j: nat) returns (k: nat)
    requires j <= |es| && Run(es) && After(es, j).failedUntil > 0
    ensures k < j && es[k].Fail? && After(es, j).failedUntil == es[k].at + COOL_DOWN_MS
    decreases j
  {
    StartsEmpty(es);
    hide Run, After;
    AfterNext(es, j - 1);
    if es[j - 1].Fail? {
      k := j - 1;
    } else {
      k := CoolDownIsFrom(es, j - 1);
    }
  }

  /** A caller starts a load exactly when none is under way, every success is a minute old and every failure ten
      seconds. */
  lemma StartsIff(es: seq<Event>, j: nat)
    requires j < |es| && Run(es) && es[j].Ask?
    ensures Gives(es, j, Started) <==>
            && After(es, j).pending == NoLoad
            && (forall k :: 0 <= k < j && es[k].Succeed? ==> es[k].at + 60000 <= es[j].at)
            && (forall k :: 0 <= k < j && es[k].Fail? ==> es[k].at + 10000 <= es[j].at)
  {
    hide Run, After;
    if Gives(es, j, Started) {
      forall k | 0 <= k < j
        ensures es[k].Succeed? ==> es[k].at + 60000 <= es[j].at
        ensures es[k].Fail? ==> es[k].at + 10000 <= es[j].at
      {
        LoadsAreApart(es, k, j);
      }
    } else {
      var c := After(es, j);
      if c.cached.Some? && c.cached.value.until > es[j].at {
        var k := CacheIsFrom(es, j);
        assert es[k].Succeed? && es[k].at + 60000 > es[j].at;
      } else if c.pending == NoLoad {
        var k := CoolDownIsFrom(es, j);
        assert es[k].Fail? && es[k].at + 10000 > es[j].at;
      }
    }
  }

  /** Successive loads start at least the cool-down apart, however often the page is asked for. */
  lemma StartsAreApart(es: seq<Event>, i: nat, j: nat)
    requires i < j < |es| && Run(es) && Gives(es, i, Started) && Gives(es, j, Started)
    ensures es[j].at >= es[i].at + 10000
  {
    SingleFlight(es, i, j);
    var k :| i < k < j && (es[k].Succeed? || es[k].Fail?);
    LoadsAreApart(es, k, j);
  }

  /** A caller that joins waits for a load that was started before it and whose promise is not yet forgotten. */
  lemma {:induction false} JoinersShareALoad(es: seq<Event>, j: nat) returns (i: nat)
    requires j <= |es| && Run(es) && After(es, j).pending != NoLoad
    ensures i < j && Gives(es, i, Started)
    ensures forall k :: i < k < j ==> !es[k].Forget? && !Gives(es, k, Started)
    decreases j
  {
    StartsEmpty(es);
    hide Run, After;
    AfterNext(es, j - 1);
    RunAt(es, j - 1);
    if After(es, j - 1).pending == NoLoad {
      i := j - 1;
    } else {
      i := JoinersShareALoad(es, j - 1);
    }
  }
}
