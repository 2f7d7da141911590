/** The fixed-window limiter, the evicting admission control, and how they relate. */
module RateLimit {
  import opened Basics

  const WINDOW_MS: nat := 60000
  const MAX_WINDOWS: nat := 10000

  datatype Window = Window(count: nat, startedAt: nat)

  datatype Decision = Decision(allowed: bool, retryAfterSeconds: nat)

  predicate Live(w: Window, now: nat) {
    now - w.startedAt < WINDOW_MS
  }

  function CeilSeconds(ms: nat): nat {
    (ms + 999) / 1000
  }

  /** One call of a limiter that never evicts: the windows afterwards and the decision. */
  function ConsumeCall(windows: map<string, Window>, limit: nat, key: string, now: nat): (map<string, Window>,
      Decision) {
    if key !in windows || !Live(windows[key], now) then
      (windows[key := Window(1, now)], Decision(true, 0))
    else if windows[key].count >= limit then
      (windows, Decision(false, Max(1, CeilSeconds(WINDOW_MS - (now - windows[key].startedAt)))))
    else
      (windows[key := windows[key].(count := windows[key].count + 1)], Decision(true, 0))
  }

  class FixedWindowRateLimiter {
    const maximumPerMinute: nat
    var windows: map<string, Window>

    constructor (maximumPerMinute: nat)
      ensures this.maximumPerMinute == maximumPerMinute && windows == map[]
    {
      this.maximumPerMinute := maximumPerMinute;
      windows := map[];
    }

    method Consume(key: string, now: nat) returns (d: Decision)
      modifies this
      ensures (windows, d) == ConsumeCall(old(windows), maximumPerMinute, key, now)
    {
      if key !in windows || now - windows[key].startedAt >= WINDOW_MS {
        windows := windows[key := Window(1, now)];
        return Decision(true, 0);
      }
      var current := windows[key];
      if current.count >= maximumPerMinute {
        return Decision(false, Max(1, CeilSeconds(WINDOW_MS - (now - current.startedAt))));
      }
      windows := windows[key := current.(count := current.count + 1)];
      d := Decision(true, 0);
    }
  }

  /** A refused caller that waits as told is admitted, and one that waits a whole second less is refused again. */
  lemma RetryAfterIsExact(windows: map<string, Window>, limit: nat, key: string, now: nat, later: nat)
    requires !ConsumeCall(windows, limit, key, now).1.allowed && now <= later && windows[key].startedAt <= now
    ensures var wait := ConsumeCall(windows, limit, key, now).1.retryAfterSeconds * 1000;
      && (now + wait <= later ==> ConsumeCall(windows, limit, key, later).1.allowed)
      && (later + 1000 <= now + wait ==> !ConsumeCall(windows, limit, key, later).1.allowed)
  {
  }

  /* ---------- a real bound ---------- */

  datatype Call = Call(key: string, limit: nat, at: nat)

  predicate Ordered(since: nat, calls: seq<Call>) {
    && (forall i :: 0 <= i < |calls| ==> since <= calls[i].at)
    && (forall i, j :: 0 <= i < j < |calls| ==> calls[i].at <= calls[j].at)
  }

  /** Calls of `key` admitted at times in [from, from + 60 s], both ends included. */
  function Admitted(windows: map<string, Window>, calls: seq<Call>, key: string, from: nat): nat
    decreases |calls|
  {
    if calls == [] then 0
    else
      var c := calls[0];
      var (next, d) := ConsumeCall(windows, c.limit, c.key, c.at);
      (if c.key == key && d.allowed && from <= c.at <= from + WINDOW_MS then 1 else 0) + Admitted(next, calls[1..], key,
          from)
  }

  /** What `n` admissions in the interval so far say about the current window of the key, last called at `last`. */
  predicate Tallied(windows: map<string, Window>, key: string, limit: nat, from: nat, last: nat, n: nat) {
    && (key !in windows ==> n == 0)
    && (last < from ==> n == 0)
    && (key in windows ==>
          var w := windows[key];
          && w.startedAt <= last && w.count <= limit
          && (w.startedAt < from ==> n <= w.count && (n > 0 ==> from < w.startedAt + WINDOW_MS))
          && (from <= w.startedAt <= from + WINDOW_MS ==> n <= w.count + (if from < w.startedAt then limit else 0))
          && (from + WINDOW_MS < w.startedAt ==> n <= 2 * limit))
  }

  lemma TallyStep(windows: map<string, Window>, c: Call, key: string, limit: nat, from: nat, last: nat, n: nat)
    requires Tallied(windows, key, limit, from, last, n) && last <= c.at && limit >= 1
    requires c.key == key ==> c.limit <= limit
    ensures var (next, d) := ConsumeCall(windows, c.limit, c.key, c.at);
      var m := n + (if c.key == key && d.allowed && from <= c.at <= from + WINDOW_MS then 1 else 0);
      Tallied(next, key, limit, from, c.at, m)
  {
  }

  lemma {:induction false} TallyBounds(windows: map<string, Window>, calls: seq<Call>, key: string, limit: nat,
      from: nat, last: nat, n: nat)
    requires Tallied(windows, key, limit, from, last, n) && limit >= 1 && Ordered(last, calls)
    requires forall i :: 0 <= i < |calls| && calls[i].key == key ==> calls[i].limit <= limit
    ensures n + Admitted(windows, calls, key, from) <= 2 * limit
    decreases |calls|
  {
    if calls != [] {
      var c := calls[0];
      var (next, d) := ConsumeCall(windows, c.limit, c.key, c.at);
      TallyStep(windows, c, key, limit, from, last, n);
      var m := n + (if c.key == key && d.allowed && from <= c.at <= from + WINDOW_MS then 1 else 0);
      TallyBounds(next, calls[1..], key, limit, from, c.at, m);
    }
  }

  /** Under a non-decreasing clock, any closed 60-second interval admits at most twice the limit for a key. */
  lemma AtMostTwiceTheLimit(calls: seq<Call>, key: string, limit: nat, from: nat)
    requires limit >= 1 && Ordered(0, calls)
    requires forall i :: 0 <= i < |calls| && calls[i].key == key ==> calls[i].limit <= limit
    ensures Admitted(map[], calls, key, from) <= 2 * limit
  {
    TallyBounds(map[], calls, key, limit, from, 0, 0);
  }

  function Burst(n: nat, key: string, limit: nat, at: nat): seq<Call> {
    seq(n, _ => Call(key, limit, at))
  }

  lemma {:induction false} BurstAdmitted(windows: map<string, Window>, n: nat, key: string, limit: nat, at: nat,
      rest: seq<Call>, from: nat)
    requires key in windows && windows[key].startedAt == at && windows[key].count + n <= limit
    requires from <= at <= from + WINDOW_MS
    ensures Admitted(windows, Burst(n, key, limit, at) + rest, key, from)
            == n + Admitted(windows[key := Window(windows[key].count + n, at)], rest, key, from)
    decreases n
  {
    if n == 0 {
      assert Burst(0, key, limit, at) + rest == rest;
      assert windows[key := Window(windows[key].count, at)] == windows;
    } else {
      var calls := Burst(n, key, limit, at) + rest;
      assert calls[0] == Call(key, limit, at) && calls[1..] == Burst(n - 1, key, limit, at) + rest;
      var next := windows[key := Window(windows[key].count + 1, at)];
      BurstAdmitted(next, n - 1, key, limit, at, rest, from);
      assert next[key := Window(windows[key].count + n, at)] == windows[key := Window(windows[key].count + n, at)];
    }
  }

  /** The bound is reached: a full burst at each end of the interval. */
  lemma TwiceTheLimitIsReached(key: string, limit: nat, from: nat)
    requires limit >= 1
    ensures Ordered(0, Burst(limit, key, limit, from) + Burst(limit, key, limit, from + 60000))
    ensures Admitted(map[], Burst(limit, key, limit, from) + Burst(limit, key, limit, from + 60000), key, from)
        == 2 * limit
  {
    var late := Burst(limit, key, limit, from + WINDOW_MS);
    var calls := Burst(limit, key, limit, from) + late;
    assert calls[1..] == Burst(limit - 1, key, limit, from) + late;
    BurstAdmitted(map[key := Window(1, from)], limit - 1, key, limit, from, late, from);
    var full := map[key := Window(1, from)][key := Window(limit, from)];
    assert late[1..] == Burst(limit - 1, key, limit, from + WINDOW_MS) + [];
    BurstAdmitted(full[key := Window(1, from + WINDOW_MS)], limit - 1, key, limit, from + WINDOW_MS, [], from);
  }

  /* ---------- the evicting admission control ---------- */

  datatype Slot = Slot(until: nat, requests: nat)

  datatype Operation = Prepare | Complete | Download

  function OperationName(op: Operation): string {
    match op case Prepare => "prepare" case Complete => "complete" case Download => "download"
  }

  function OperationLimit(op: Operation): nat {
    if op == Prepare then 10 else 60
  }

  function AdmissionKey(wallet: string, op: Operation): string {
    wallet + ":" + OperationName(op)
  }

  function Evicted(slots: map<string, Slot>, now: nat): map<string, Slot> {
    map k | k in slots && slots[k].until > now :: slots[k]
  }

  /** One admission: expired slots are dropped first, and a new slot needs room for it. */
  function AdmitCall(slots: map<string, Slot>, key: string, limit: nat, now: nat): (map<string, Slot>, bool) {
    var live := Evicted(slots, now);
    if key !in live && |live| >= MAX_WINDOWS then (live, false)
    else
      var slot := if key in live then live[key] else Slot(now + WINDOW_MS, 0);
      if slot.requests >= limit then (live[key := slot], false)
      else (live[key := slot.(requests := slot.requests + 1)], true)
  }

  class EvidenceAdmission {
    var slots: map<string, Slot>

    constructor ()
      ensures slots == map[]
    {
      slots := map[];
    }

    method Admit(wallet: string, op: Operation, now: nat) returns (allowed: bool)
      modifies this
      ensures (slots, allowed) == AdmitCall(old(slots), AdmissionKey(wallet, op), OperationLimit(op), now)
    {
      var key := AdmissionKey(wallet, op);
      var rest := slots.Keys;
      while rest != {}
        invariant rest <= old(slots).Keys
        invariant slots == map k | k in old(slots) && (k in rest || old(slots)[k].until > now) :: old(slots)[k]
        decreases |rest|
      {
        var k :| k in rest;
        if slots[k].until <= now {
          slots := slots - {k};
        }
        rest := rest - {k};
      }
      ghost var live := slots;
      assert live == Evicted(old(slots), now);
      if key !in slots {
        if |slots| >= MAX_WINDOWS {
          return false;
        }
        slots := slots[key := Slot(now + WINDOW_MS, 0)];
      }
      if slots[key].requests >= OperationLimit(op) {
        assert slots == live[key := slots[key]];
        return false;
      }
      slots := slots[key := slots[key].(requests := slots[key].requests + 1)];
      assert slots == live[key := slots[key]];
      allowed := true;
    }
  }

  /** Different wallets or operations never share a key. */
  lemma AdmissionKeyInjective(v: string, p: Operation, w: string, q: Operation)
    ensures AdmissionKey(v, p) == AdmissionKey(w, q) <==> v == w && p == q
  {
    if AdmissionKey(v, p) == AdmissionKey(w, q) {
      var a, b := AdmissionKey(v, p), AdmissionKey(w, q);
      assert a[|a| - 1] == OperationName(p)[|OperationName(p)| - 1];
      assert b[|b| - 1] == OperationName(q)[|OperationName(q)| - 1];
      assert a[|a| - 4] == OperationName(p)[|OperationName(p)| - 4];
      assert b[|b| - 4] == OperationName(q)[|OperationName(q)| - 4];
      assert p == q;
      assert a[..|v|] == v && b[..|w|] == w;
    }
  }

  /** A slot holds what the window of its key holds. */
  predicate Shows(slot: Slot, w: Window) {
    slot.until == w.startedAt + WINDOW_MS && slot.requests == w.count
  }

  /** The slots are exactly the windows live at `now`. */
  ghost predicate Images(live: map<string, Slot>, windows: map<string, Window>, now: nat) {
    && (forall k :: k in windows ==> windows[k].startedAt <= now)
    && (forall k :: k in live <==> k in windows && Live(windows[k], now))
    && (forall k :: k in live ==> Shows(live[k], windows[k]))
  }

  /** No room for the window this call would open. */
  predicate Full(slots: map<string, Slot>, key: string, now: nat) {
    key !in Evicted(slots, now) && |Evicted(slots, now)| >= MAX_WINDOWS
  }

  lemma EvictionKeepsImages(slots: map<string, Slot>, windows: map<string, Window>, last: nat, now: nat)
    requires Images(slots, windows, last) && last <= now
    ensures Images(Evicted(slots, now), windows, now)
  {
    var live := Evicted(slots, now);
    forall k
      ensures k in live <==> k in windows && Live(windows[k], now)
      ensures k in live ==> Shows(live[k], windows[k])
    {
      if k in slots {
        assert Shows(slots[k], windows[k]);
      }
    }
  }

  lemma MirrorStep(slots: map<string, Slot>, windows: map<string, Window>, last: nat, c: Call)
    requires Images(slots, windows, last) && last <= c.at && c.limit >= 1
    ensures AdmitCall(slots, c.key, c.limit, c.at).1 == ConsumeCall(windows, c.limit, c.key, c.at).1.allowed <==>
            !Full(slots, c.key, c.at)
    ensures !Full(slots, c.key, c.at) ==>
              Images(AdmitCall(slots, c.key, c.limit, c.at).0, ConsumeCall(windows, c.limit, c.key, c.at).0, c.at)
  {
    EvictionKeepsImages(slots, windows, last, c.at);
    var live := Evicted(slots, c.at);
    hide Evicted;
    if c.key in live {
      assert Shows(live[c.key], windows[c.key]);
    }
  }

  function AdmitAll(slots: map<string, Slot>, calls: seq<Call>): seq<bool>
    decreases |calls|
  {
    if calls == [] then []
    else
      var (next, ok) := AdmitCall(slots, calls[0].key, calls[0].limit, calls[0].at);
      [ok] + AdmitAll(next, calls[1..])
  }

  function ConsumeAll(windows: map<string, Window>, calls: seq<Call>): seq<bool>
    decreases |calls|
  {
    if calls == [] then []
    else
      var (next, d) := ConsumeCall(windows, calls[0].limit, calls[0].key, calls[0].at);
      [d.allowed] + ConsumeAll(next, calls[1..])
  }

  predicate NeverFull(slots: map<string, Slot>, calls: seq<Call>)
    decreases |calls|
  {
    calls != [] ==>
      && !Full(slots, calls[0].key, calls[0].at)
      && NeverFull(AdmitCall(slots, calls[0].key, calls[0].limit, calls[0].at).0, calls[1..])
  }

  lemma {:induction false} MirrorAll(slots: map<string, Slot>, windows: map<string, Window>, last: nat,
      calls: seq<Call>)
    requires Images(slots, windows, last) && Ordered(last, calls)
    requires forall i :: 0 <= i < |calls| ==> calls[i].limit >= 1
    ensures AdmitAll(slots, calls) == ConsumeAll(windows, calls) <==> NeverFull(slots, calls)
    decreases |calls|
  {
    if calls != [] {
      var c := calls[0];
      MirrorStep(slots, windows, last, c);
      var a, b := AdmitAll(slots, calls), ConsumeAll(windows, calls);
      assert a[0] == AdmitCall(slots, c.key, c.limit, c.at).1
          && b[0] == ConsumeCall(windows, c.limit, c.key, c.at).1.allowed;
      assert a[1..] == AdmitAll(AdmitCall(slots, c.key, c.limit, c.at).0, calls[1..]);
      assert b[1..] == ConsumeAll(ConsumeCall(windows, c.limit, c.key, c.at).0, calls[1..]);
      if !Full(slots, c.key, c.at) {
        MirrorAll(AdmitCall(slots, c.key, c.limit, c.at).0, ConsumeCall(windows, c.limit, c.key, c.at).0, c.at,
            calls[1..]);
        assert a == [a[0]] + a[1..] && b == [b[0]] + b[1..];
      }
    }
  }

  /** Over every sequence of calls, the evicting admission control decides exactly as the never-evicting limiter
      if and only if no call ever needs a new window while 10000 are live. */
  lemma AdmissionAgreesWithLimiter(calls: seq<Call>)
    requires Ordered(0, calls) && forall i :: 0 <= i < |calls| ==> calls[i].limit >= 1
    ensures AdmitAll(map[], calls) == ConsumeAll(map[], calls) <==> NeverFull(map[], calls)
  {
    MirrorAll(map[], map[], 0, calls);
  }

  /* ---------- what one wallet gets ---------- */

  function Repeated(c: Call, n: nat): seq<Call>
    decreases n
  {
    if n == 0 then [] else [c] + Repeated(c, n - 1)
  }

  lemma {:induction false} SlotCountsDown(slots: map<string, Slot>, c: Call, n: nat, done: nat)
    requires c.key in slots && slots[c.key].until > c.at && slots[c.key].requests == Min(done, c.limit)
    ensures |AdmitAll(slots, Repeated(c, n))| == n
    ensures forall i :: 0 <= i < n ==> (AdmitAll(slots, Repeated(c, n))[i] <==> done + i < c.limit)
    decreases n
  {
    if n > 0 {
      var calls := Repeated(c, n);
      var (next, ok) := AdmitCall(slots, c.key, c.limit, c.at);
      assert calls[1..] == Repeated(c, n - 1);
      SlotCountsDown(next, c, n - 1, done + 1);
      assert AdmitAll(slots, calls) == [ok] + AdmitAll(next, calls[1..]);
      forall i | 0 <= i < n ensures AdmitAll(slots, calls)[i] <==> done + i < c.limit {
        if i > 0 {
          assert AdmitAll(slots, calls)[i] == AdmitAll(next, calls[1..])[i - 1];
        }
      }
    }
  }

  /** Of n calls a wallet makes at once, the first ten are admitted if it prepares uploads, and the first sixty if it
      completes or downloads them. */
  lemma FirstOnesAreAdmitted(wallet: string, op: Operation, at: nat, n: nat)
    ensures var admitted := AdmitAll(map[], Repeated(Call(AdmissionKey(wallet, op), OperationLimit(op), at), n));
      && |admitted| == n
      && forall i :: 0 <= i < n ==>
           (admitted[i] <==> i < match op case Prepare => 10 case Complete => 60 case Download => 60)
  {
    var c := Call(AdmissionKey(wallet, op), OperationLimit(op), at);
    if n > 0 {
      var calls := Repeated(c, n);
      var (next, ok) := AdmitCall(map[], c.key, c.limit, c.at);
      assert calls[1..] == Repeated(c, n - 1);
      SlotCountsDown(next, c, n - 1, 1);
      assert AdmitAll(map[], calls) == [ok] + AdmitAll(next, calls[1..]);
      forall i | 0 <= i < n ensures AdmitAll(map[], calls)[i] <==> i < c.limit {
        if i > 0 {
          assert AdmitAll(map[], calls)[i] == AdmitAll(next, calls[1..])[i - 1];
        }
      }
    }
  }

  /* ---------- the slot bound is reached ---------- */

  function Wallet(i: nat): (w: string)
    ensures |w| == i
  {
    if i == 0 then "" else Wallet(i - 1) + "w"
  }

  /** First calls of the wallets from `i` on, all at once. */
  function Crowd(i: nat, n: nat): seq<Call>
    decreases n
  {
    if n == 0 then [] else [Call(AdmissionKey(Wallet(i), Prepare), 10, 0)] + Crowd(i + 1, n - 1)
  }

  function Occupied(i: nat): map<string, Slot> {
    if i == 0 then map[] else Occupied(i - 1)[AdmissionKey(Wallet(i - 1), Prepare) := Slot(WINDOW_MS, 1)]
  }

  lemma {:induction false} OccupiedIs(i: nat)
    ensures |Occupied(i)| == i && Evicted(Occupied(i), 0) == Occupied(i)
    ensures forall k :: k in Occupied(i) ==> |k| < i + 8
    ensures AdmissionKey(Wallet(i), Prepare) !in Occupied(i)
  {
    if i > 0 {
      OccupiedIs(i - 1);
    }
  }

  lemma {:induction false} CrowdFills(i: nat, n: nat)
    requires i <= MAX_WINDOWS && i + n > MAX_WINDOWS
    ensures !NeverFull(Occupied(i), Crowd(i, n))
    decreases n
  {
    hide Evicted, AdmissionKey;
    OccupiedIs(i);
    var calls := Crowd(i, n);
    assert calls[1..] == Crowd(i + 1, n - 1);
    if i < MAX_WINDOWS {
      CrowdFills(i + 1, n - 1);
      assert AdmitCall(Occupied(i), calls[0].key, 10, 0).0 == Occupied(i + 1);
    }
  }

  lemma {:induction false} CrowdAtOnce(i: nat, n: nat)
    ensures |Crowd(i, n)| == n
    ensures forall j :: 0 <= j < n ==> Crowd(i, n)[j].limit >= 1 && Crowd(i, n)[j].at == 0
    decreases n
  {
    hide AdmissionKey, Wallet;
    if n > 0 {
      CrowdAtOnce(i + 1, n - 1);
      assert Crowd(i, n)[1..] == Crowd(i + 1, n - 1);
    }
  }

  /** Ten thousand and one wallets calling at once: the evicting control refuses a caller the plain limiter admits. */
  lemma SlotBoundIsReached() returns (calls: seq<Call>)
    ensures |calls| == 10001 && (forall i :: 0 <= i < |calls| ==> calls[i].at == 0)
    ensures Ordered(0, calls) && AdmitAll(map[], calls) != ConsumeAll(map[], calls)
  {
    calls := Crowd(0, MAX_WINDOWS + 1);
    CrowdFills(0, MAX_WINDOWS + 1);
    CrowdAtOnce(0, MAX_WINDOWS + 1);
    AdmissionAgreesWithLimiter(calls);
  }
}
