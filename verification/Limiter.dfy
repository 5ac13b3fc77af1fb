/** The request limiter (backend/internal/httpapi/limiter.go): a token bucket per key in
    a bounded map, swept of idle buckets when it is full. Tokens and seconds are real
    numbers here. */
module Limiter {
  import opened Domain

  datatype Bucket = Bucket(tokens: real, at: real)

  /** No sweep has happened while nextSweep is None. */
  datatype State = State(buckets: map<Id, Bucket>, nextSweep: Option<real>)

  const LIMIT := 4096
  const IDLE := 120.0

  /** What flows into a bucket between two times. */
  function Gained(from: real, until: real, rate: real): real {
    (until - from) * rate
  }

  function Min(a: real, b: real): real {
    if a <= b then a else b
  }

  predicate SweepDue(s: State, now: real) {
    s.nextSweep.None? || now >= s.nextSweep.value
  }

  function Swept(buckets: map<Id, Bucket>, now: real): map<Id, Bucket> {
    map key | key in buckets && !(now - buckets[key].at > IDLE) :: buckets[key]
  }

  function Spend(rate: real, burst: real, s: State, key: Id, b: Bucket, now: real): (State, bool) {
    var tokens := Min(burst, b.tokens + Gained(b.at, now, rate));
    var allowed := tokens >= 1.0;
    (s.(buckets := s.buckets[key := Bucket(if allowed then tokens - 1.0 else tokens, now)]), allowed)
  }

  /** A full map is swept before a new key, at most once a minute. */
  function Cleared(s: State, now: real): State {
    if |s.buckets| >= LIMIT && SweepDue(s, now) then State(Swept(s.buckets, now), Some(now + 60.0)) else s
  }

  /** allow */
  function Step(rate: real, burst: real, s: State, key: Id, now: real): (State, bool) {
    if key in s.buckets then Spend(rate, burst, s, key, s.buckets[key], now)
    else if |Cleared(s, now).buckets| >= LIMIT then (Cleared(s, now), false)
    else Spend(rate, burst, Cleared(s, now), key, Bucket(burst, now), now)
  }

  // ---------- Runs ----------

  datatype Call = Call(key: Id, now: real)

  predicate InOrder(calls: seq<Call>) {
    forall i, j :: 0 <= i <= j < |calls| ==> calls[i].now <= calls[j].now
  }

  /** The state after the first k calls. */
  function After(rate: real, burst: real, calls: seq<Call>, k: nat): State
    requires k <= |calls|
  {
    if k == 0 then State(map[], None)
    else Step(rate, burst, After(rate, burst, calls, k - 1), calls[k - 1].key, calls[k - 1].now).0
  }

  predicate Allowed(rate: real, burst: real, calls: seq<Call>, k: nat)
    requires k < |calls|
  {
    Step(rate, burst, After(rate, burst, calls, k), calls[k].key, calls[k].now).1
  }

  /** Calls i to j - 1 that are for the key and were allowed. */
  function Admitted(rate: real, burst: real, calls: seq<Call>, key: Id, i: nat, j: nat): nat
    requires i <= j <= |calls|
  {
    if i == j then 0
    else
      Admitted(rate, burst, calls, key, i, j - 1)
      + (if calls[j - 1].key == key && Allowed(rate, burst, calls, j - 1) then 1 else 0)
  }

  // ---------- The level of a bucket ----------

  /** Tokens the key could spend at `now`; a key without a bucket has a full one. */
  function Level(rate: real, burst: real, s: State, key: Id, now: real): real {
    if key in s.buckets then Min(burst, s.buckets[key].tokens + Gained(s.buckets[key].at, now, rate)) else burst
  }

  ghost predicate Valid(burst: real, s: State, now: real) {
    && |s.buckets| <= LIMIT
    && forall key :: key in s.buckets ==> 0.0 <= s.buckets[key].tokens <= burst && s.buckets[key].at <= now
  }

  lemma Product(a: real, b: real)
    requires a >= 0.0 && b >= 0.0
    ensures a * b >= 0.0
  {
  }

  lemma GainedFacts(t0: real, t1: real, t2: real, rate: real)
    requires rate >= 0.0
    ensures Gained(t0, t2, rate) == Gained(t0, t1, rate) + Gained(t1, t2, rate)
    ensures t0 <= t1 ==> Gained(t0, t1, rate) >= 0.0
    ensures t1 <= t2 ==> Gained(t1, t2, rate) >= 0.0
    ensures Gained(t2, t2, rate) == 0.0
  {
    if t0 <= t1 {
      Product(t1 - t0, rate);
    }
    if t1 <= t2 {
      Product(t2 - t1, rate);
    }
  }

  lemma LevelBounds(rate: real, burst: real, s: State, key: Id, t1: real, t2: real)
    requires rate >= 0.0 && burst >= 0.0 && Valid(burst, s, t1) && t1 <= t2
    ensures 0.0 <= Level(rate, burst, s, key, t2) <= burst
    ensures Level(rate, burst, s, key, t2) <= Level(rate, burst, s, key, t1) + Gained(t1, t2, rate)
  {
    hide Gained;
    GainedFacts(if key in s.buckets then s.buckets[key].at else t1, t1, t2, rate);
  }

  /** A bucket idle long enough to be swept has refilled, when two minutes refill any bucket. */
  lemma IdleIsFull(rate: real, burst: real, b: Bucket, now: real)
    requires rate >= 0.0 && burst <= IDLE * rate && b.tokens >= 0.0 && now - b.at > IDLE
    ensures b.tokens + Gained(b.at, now, rate) >= burst
  {
    GainedFacts(b.at, b.at + IDLE, now, rate);
    assert Gained(b.at, b.at + IDLE, rate) == IDLE * rate;
  }

  lemma SweptSize(buckets: map<Id, Bucket>, now: real)
    ensures |Swept(buckets, now)| <= |buckets|
  {
    var swept := Swept(buckets, now);
    assert swept.Keys <= buckets.Keys;
    assert buckets.Keys == swept.Keys + (buckets.Keys - swept.Keys);
    assert |swept.Keys| == |swept| && |buckets.Keys| == |buckets|;
  }

  lemma SweepKeeps(rate: real, burst: real, s: State, now: real, k: Id)
    requires rate >= 0.0 && burst >= 0.0 && Valid(burst, s, now)
    ensures Valid(burst, State(Swept(s.buckets, now), Some(now + 60.0)), now)
    ensures burst <= IDLE * rate ==>
      Level(rate, burst, State(Swept(s.buckets, now), Some(now + 60.0)), k, now) == Level(rate, burst, s, k, now)
  {
    hide Gained;
    SweptSize(s.buckets, now);
    if k in s.buckets && now - s.buckets[k].at > IDLE && burst <= IDLE * rate {
      IdleIsFull(rate, burst, s.buckets[k], now);
    }
  }

  lemma SpendKeeps(rate: real, burst: real, s: State, key: Id, b: Bucket, now: real, k: Id)
    requires rate >= 0.0 && burst >= 0.0 && Valid(burst, s, now)
    requires 0.0 <= b.tokens <= burst && b.at <= now
    requires key in s.buckets || |s.buckets| < LIMIT
    ensures Valid(burst, Spend(rate, burst, s, key, b, now).0, now)
    ensures Level(rate, burst, Spend(rate, burst, s, key, b, now).0, key, now)
      == Min(burst, b.tokens + Gained(b.at, now, rate)) - (if Spend(rate, burst, s, key, b, now).1 then 1.0 else 0.0)
    ensures k != key ==>
      Level(rate, burst, Spend(rate, burst, s, key, b, now).0, k, now) == Level(rate, burst, s, k, now)
  {
    hide Gained;
    GainedFacts(b.at, now, now, rate);
    var t := Spend(rate, burst, s, key, b, now).0;
    assert t.buckets.Keys == s.buckets.Keys + {key};
    assert |t.buckets.Keys| == |t.buckets| && |s.buckets.Keys| == |s.buckets|;
  }

  /** A call takes one token from its own bucket when allowed and none otherwise; no other
      level changes, and no sweep changes a level when two minutes refill any bucket. */
  lemma StepKeeps(rate: real, burst: real, s: State, key: Id, now: real, k: Id)
    requires rate >= 0.0 && burst >= 0.0 && Valid(burst, s, now)
    ensures Valid(burst, Step(rate, burst, s, key, now).0, now)
    ensures burst <= IDLE * rate ==>
      Level(rate, burst, Step(rate, burst, s, key, now).0, k, now)
        == Level(rate, burst, s, k, now) - (if k == key && Step(rate, burst, s, key, now).1 then 1.0 else 0.0)
  {
    hide Valid, Spend, Level, Swept, Gained;
    GainedFacts(now, now, now, rate);
    if key in s.buckets {
      BucketOf(burst, s, key, now);
      SpendKeeps(rate, burst, s, key, s.buckets[key], now, k);
      LevelPresent(rate, burst, s, key, now);
    } else {
      SweepKeeps(rate, burst, s, now, k);
      var t := Cleared(s, now);
      SweptWithout(s.buckets, key, now);
      LevelAbsent(rate, burst, t, key, now);
      if |t.buckets| < LIMIT {
        SpendKeeps(rate, burst, t, key, Bucket(burst, now), now, k);
      } else {
        RefusedOnly(rate, burst, s, key, now);
      }
    }
  }

  lemma RefusedOnly(rate: real, burst: real, s: State, key: Id, now: real)
    requires key !in s.buckets
    requires |Cleared(s, now).buckets| >= LIMIT
    ensures !Step(rate, burst, s, key, now).1
  {
  }

  lemma BucketOf(burst: real, s: State, key: Id, now: real)
    requires Valid(burst, s, now) && key in s.buckets
    ensures 0.0 <= s.buckets[key].tokens <= burst && s.buckets[key].at <= now
  {
  }

  lemma LevelPresent(rate: real, burst: real, s: State, key: Id, now: real)
    requires key in s.buckets
    ensures Level(rate, burst, s, key, now) == Min(burst, s.buckets[key].tokens + Gained(s.buckets[key].at, now, rate))
  {
  }

  lemma LevelAbsent(rate: real, burst: real, s: State, key: Id, now: real)
    requires key !in s.buckets
    ensures Level(rate, burst, s, key, now) == burst
  {
  }

  lemma SweptWithout(buckets: map<Id, Bucket>, key: Id, now: real)
    requires key !in buckets
    ensures key !in Swept(buckets, now)
  {
  }

  // ---------- The bound ----------

  /** At most 4096 keys are tracked, and levels stay between nothing and a full burst. */
  lemma {:induction false} RunIsValid(rate: real, burst: real, calls: seq<Call>, k: nat)
    requires rate >= 0.0 && burst >= 0.0 && InOrder(calls) && k <= |calls|
    ensures k > 0 ==> Valid(burst, After(rate, burst, calls, k), calls[k - 1].now)
    ensures |After(rate, burst, calls, k).buckets| <= LIMIT
    ensures k < |calls| ==> Valid(burst, After(rate, burst, calls, k), calls[k].now)
  {
    hide Step;
    if k > 0 {
      RunIsValid(rate, burst, calls, k - 1);
      StepKeeps(rate, burst, After(rate, burst, calls, k - 1), calls[k - 1].key, calls[k - 1].now, 0);
    }
  }

  /** What was admitted plus what is left is at most what there was plus what flowed in. */
  lemma {:induction false} Balance(rate: real, burst: real, calls: seq<Call>, key: Id, i: nat, j: nat)
    requires rate >= 0.0 && 0.0 <= burst <= IDLE * rate && InOrder(calls) && i < j <= |calls|
    ensures Admitted(rate, burst, calls, key, i, j) as real
        + Level(rate, burst, After(rate, burst, calls, j), key, calls[j - 1].now)
      <= burst + Gained(calls[i].now, calls[j - 1].now, rate)
    decreases j
  {
    hide Step, Level, Valid, Gained;
    var s, now := After(rate, burst, calls, j - 1), calls[j - 1].now;
    RunIsValid(rate, burst, calls, j - 1);
    StepKeeps(rate, burst, s, calls[j - 1].key, now, key);
    if i == j - 1 {
      assert Admitted(rate, burst, calls, key, i, i) == 0;
      LevelBounds(rate, burst, s, key, now, now);
      GainedFacts(now, now, now, rate);
    } else {
      Balance(rate, burst, calls, key, i, j - 1);
      LevelBounds(rate, burst, s, key, calls[j - 2].now, now);
      GainedFacts(calls[i].now, calls[j - 2].now, now, rate);
    }
  }

  /** In any stretch of a run, of length T, a key is admitted at most burst + rate * T
      times, sweeps or not, provided two minutes refill any bucket. */
  lemma RateBound(rate: real, burst: real, calls: seq<Call>, key: Id, i: nat, j: nat)
    requires rate >= 0.0 && 0.0 <= burst <= IDLE * rate && InOrder(calls) && i < j <= |calls|
    ensures Admitted(rate, burst, calls, key, i, j) as real <= burst + Gained(calls[i].now, calls[j - 1].now, rate)
  {
    hide Level, Gained, Step;
    Balance(rate, burst, calls, key, i, j);
    RunIsValid(rate, burst, calls, j);
    LevelBounds(rate, burst, After(rate, burst, calls, j), key, calls[j - 1].now, calls[j - 1].now);
  }

  // ---------- Without the proviso ----------

  /** How long a bucket drained of its n whole tokens takes to hold one again. */
  function Wait(rate: real, burst: real, n: nat): real
    requires rate > 0.0
  {
    ((n + 1) as real - burst) / rate
  }

  /** Two rounds of spending a full bucket to the last bit: n calls for key 0 at once and
      one more after a wait. In between the keys 1 to LIMIT - 1 fill the map, and when all
      of them have been idle long enough the key LIMIT has the map swept. */
  function Schedule(n: nat, wait: real, later: real): seq<Call> {
    seq(n, _ => Call(0, 0.0)) + [Call(0, wait)]
    + seq(LIMIT - 1, i requires 0 <= i < LIMIT - 1 => Call(i + 1, wait)) + [Call(LIMIT, later)]
    + seq(n, _ => Call(0, later)) + [Call(0, later + wait)]
  }

  /** Spending from a bucket that has a token, at the time it was last touched or made. */
  lemma SpendOne(rate: real, burst: real, s: State, key: Id, now: real, level: real)
    requires rate >= 0.0 && 1.0 <= level <= burst
    requires if key in s.buckets then s.buckets[key] == Bucket(level, now) else level == burst && |s.buckets| < LIMIT
    ensures Step(rate, burst, s, key, now) == (s.(buckets := s.buckets[key := Bucket(level - 1.0, now)]), true)
  {
    hide Gained;
    GainedFacts(now, now, now, rate);
  }

  /** Spending the token that a bucket has again after the wait. */
  lemma SpendLast(rate: real, burst: real, s: State, n: nat, now: real)
    requires rate > 0.0 && 1.0 <= burst && n as real <= burst < (n + 1) as real
    requires 0 in s.buckets && s.buckets[0] == Bucket(burst - n as real, now)
    ensures Step(rate, burst, s, 0, now + Wait(rate, burst, n))
      == (s.(buckets := s.buckets[0 := Bucket(0.0, now + Wait(rate, burst, n))]), true)
  {
    var wait := Wait(rate, burst, n);
    assert Gained(now, now + wait, rate) == (n + 1) as real - burst by {
      assert wait * rate == (n + 1) as real - burst;
    }
    hide Gained;
  }

  lemma {:induction false} Draining(rate: real, burst: real, calls: seq<Call>, from: nat, n: nat, now: real)
    requires rate >= 0.0 && n as real <= burst && from + n <= |calls|
    requires forall i :: from <= i < from + n ==> calls[i] == Call(0, now)
    requires 0 !in After(rate, burst, calls, from).buckets
    requires |After(rate, burst, calls, from).buckets| < LIMIT
    ensures
      var s, t := After(rate, burst, calls, from), After(rate, burst, calls, from + n);
      && Admitted(rate, burst, calls, 0, from, from + n) == n
      && t.nextSweep == s.nextSweep
      && t.buckets == if n == 0 then s.buckets else s.buckets[0 := Bucket(burst - n as real, now)]
    decreases n
  {
    hide Step;
    if n > 0 {
      Draining(rate, burst, calls, from, n - 1, now);
      var s := After(rate, burst, calls, from + n - 1);
      assert calls[from + n - 1] == Call(0, now);
      SpendOne(rate, burst, s, 0, now, burst - (n - 1) as real);
    }
  }

  /** A whole round: the key is admitted n + 1 times and its bucket is empty. */
  lemma Round(rate: real, burst: real, calls: seq<Call>, from: nat, n: nat, now: real)
    requires rate > 0.0 && 1.0 <= burst && n as real <= burst < (n + 1) as real && from + n < |calls|
    requires forall i :: from <= i < from + n ==> calls[i] == Call(0, now)
    requires calls[from + n] == Call(0, now + Wait(rate, burst, n))
    requires 0 !in After(rate, burst, calls, from).buckets
    requires |After(rate, burst, calls, from).buckets| < LIMIT
    ensures
      var s, t := After(rate, burst, calls, from), After(rate, burst, calls, from + n + 1);
      && Admitted(rate, burst, calls, 0, from, from + n + 1) == n + 1
      && t == s.(buckets := s.buckets[0 := Bucket(0.0, now + Wait(rate, burst, n))])
  {
    hide Step, Wait;
    Draining(rate, burst, calls, from, n, now);
    SpendLast(rate, burst, After(rate, burst, calls, from + n), n, now);
  }

  lemma {:induction false} Filling(rate: real, burst: real, calls: seq<Call>, from: nat, n: nat, at: real)
    requires rate >= 0.0 && burst >= 1.0 && n < LIMIT && 0 < from && from + n <= |calls|
    requires forall i :: from <= i < from + n ==> calls[i] == Call(i - from + 1, at)
    requires After(rate, burst, calls, from) == State(map[0 := Bucket(0.0, at)], None)
    ensures Filled(After(rate, burst, calls, from + n), n, at)
    decreases n
  {
    hide Step;
    if n > 0 {
      Filling(rate, burst, calls, from, n - 1, at);
      var s := After(rate, burst, calls, from + n - 1);
      assert calls[from + n - 1] == Call(n, at);
      FilledSize(s, n - 1, at);
      SpendOne(rate, burst, s, n, at, burst);
      assert After(rate, burst, calls, from + n) == s.(buckets := s.buckets[n := Bucket(burst - 1.0, at)]);
    } else {
      FilledOne(After(rate, burst, calls, from + n), at);
    }
  }

  /** Buckets for the keys 0 to n, last touched at one time. */
  ghost predicate Filled(s: State, n: nat, at: real) {
    && s.nextSweep.None? && (forall key: Id :: key in s.buckets <==> key <= n)
    && forall key :: key in s.buckets ==> s.buckets[key].at == at
  }

  lemma FilledOne(s: State, at: real)
    requires s == State(map[0 := Bucket(0.0, at)], None)
    ensures Filled(s, 0, at)
  {
  }

  lemma {:induction false} UpTo(keys: set<Id>, n: nat)
    requires forall key: Id :: key in keys <==> key <= n
    ensures |keys| == n + 1
    decreases n
  {
    if n == 0 {
      assert keys == {0};
    } else {
      UpTo(keys - {n}, n - 1);
    }
  }

  lemma FilledSize(s: State, n: nat, at: real)
    requires Filled(s, n, at)
    ensures |s.buckets| == n + 1
  {
    assert forall key: Id :: key in s.buckets.Keys <==> key in s.buckets;
    UpTo(s.buckets.Keys, n);
  }

  lemma {:induction false} AdmittedMore(rate: real, burst: real, calls: seq<Call>, key: Id, i: nat, j: nat, k: nat)
    requires i <= j <= k <= |calls|
    ensures Admitted(rate, burst, calls, key, i, k)
      == Admitted(rate, burst, calls, key, i, j) + Admitted(rate, burst, calls, key, j, k)
    decreases k
  {
    if j < k {
      AdmittedMore(rate, burst, calls, key, i, j, k - 1);
    }
  }

  lemma SweepAll(rate: real, burst: real, s: State, at: real, later: real)
    requires burst >= 1.0 && Filled(s, LIMIT - 1, at) && later - at > IDLE
    ensures Step(rate, burst, s, LIMIT, later).0.buckets.Keys == {LIMIT}
    ensures |Step(rate, burst, s, LIMIT, later).0.buckets| == 1
  {
    FilledSize(s, LIMIT - 1, at);
    assert Swept(s.buckets, later) == map[];
    var t := Step(rate, burst, s, LIMIT, later).0;
    assert t.buckets.Keys == {LIMIT};
    assert |t.buckets.Keys| == |t.buckets|;
  }

  lemma ScheduleCalls(n: nat, wait: real, later: real)
    ensures
      var calls := Schedule(n, wait, later);
      && |calls| == n + 1 + LIMIT + n + 1
      && (forall i :: 0 <= i < n ==> calls[i] == Call(0, 0.0)) && calls[n] == Call(0, wait)
      && (forall i :: n + 1 <= i < n + LIMIT ==> calls[i] == Call(i - n, wait))
      && calls[n + LIMIT] == Call(LIMIT, later)
      && (forall i :: n + 1 + LIMIT <= i < n + 1 + LIMIT + n ==> calls[i] == Call(0, later))
      && calls[n + 1 + LIMIT + n] == Call(0, later + wait)
  {
  }

  lemma ScheduleInOrder(n: nat, wait: real, later: real)
    requires n > 0 && 0.0 < wait < later
    ensures InOrder(Schedule(n, wait, later)) && Schedule(n, wait, later)[0].now == 0.0
  {
    ScheduleCalls(n, wait, later);
    hide Schedule;
  }

  /** A sweep hands the key a second full bucket: with n whole tokens in a burst it is
      admitted 2n + 2 times in two waits and little more than two minutes. */
  lemma SweepRefills(rate: real, burst: real, n: nat, later: real)
    requires rate > 0.0 && burst >= 1.0 && n as real <= burst < (n + 1) as real
    requires later > Wait(rate, burst, n) + IDLE
    ensures
      var wait := Wait(rate, burst, n);
      var calls := Schedule(n, wait, later);
      && InOrder(calls) && |calls| > 0
      && calls[0].now == 0.0 && calls[|calls| - 1].now == later + wait
      && Admitted(rate, burst, calls, 0, 0, |calls|) >= 2 * n + 2
  {
    hide Step, Filled, Wait, Schedule, InOrder, Admitted;
    var wait := Wait(rate, burst, n);
    var calls := Schedule(n, wait, later);
    WaitPositive(rate, burst, n);
    ScheduleCalls(n, wait, later);
    ScheduleInOrder(n, wait, later);
    Round(rate, burst, calls, 0, n, 0.0);
    assert After(rate, burst, calls, n + 1) == State(map[0 := Bucket(0.0, wait)], None);
    Filling(rate, burst, calls, n + 1, LIMIT - 1, wait);
    var swept := n + 1 + LIMIT;
    assert calls[swept - 1] == Call(LIMIT, later);
    SweepAll(rate, burst, After(rate, burst, calls, swept - 1), wait, later);
    assert 0 !in After(rate, burst, calls, swept).buckets.Keys;
    Round(rate, burst, calls, swept, n, later);
    AdmittedMore(rate, burst, calls, 0, 0, n + 1, |calls|);
    AdmittedMore(rate, burst, calls, 0, n + 1, swept, |calls|);
  }

  lemma WaitPositive(rate: real, burst: real, n: nat)
    requires rate > 0.0 && burst < (n + 1) as real
    ensures Wait(rate, burst, n) > 0.0 && Wait(rate, burst, n) * rate == (n + 1) as real - burst
  {
    var wait := Wait(rate, burst, n);
    if wait <= 0.0 {
      Product(-wait, rate);
    }
  }

  /** The claim "burst + rate * T in every stretch of every run". */
  ghost predicate Bounded(rate: real, burst: real) {
    forall calls: seq<Call>, key: Id, i: nat, j: nat :: InOrder(calls) && i < j <= |calls| ==>
      Admitted(rate, burst, calls, key, i, j) as real <= burst + Gained(calls[i].now, calls[j - 1].now, rate)
  }

  lemma TooSlow(rate: real, burst: real)
    requires rate > 0.0 && burst >= 1.0 && burst > IDLE * rate
    ensures !Bounded(rate, burst)
  {
    hide Schedule, Admitted, InOrder, Gained, Wait;
    var n: nat := burst.Floor;
    var wait := Wait(rate, burst, n);
    var spare := (burst - IDLE * rate) / (2.0 * rate);
    Spare(rate, burst, spare);
    WaitPositive(rate, burst, n);
    var later := wait + IDLE + spare;
    SweepRefills(rate, burst, n, later);
    var calls := Schedule(n, wait, later);
    TwoRounds(rate, burst, n, wait, spare);
    var admitted := Admitted(rate, burst, calls, 0, 0, |calls|);
    assert admitted as real > burst + Gained(calls[0].now, calls[|calls| - 1].now, rate);
  }

  lemma Spare(rate: real, burst: real, spare: real)
    requires rate > 0.0 && burst > IDLE * rate && spare == (burst - IDLE * rate) / (2.0 * rate)
    ensures spare > 0.0 && IDLE * rate + spare * rate < burst
  {
    assert spare * (2.0 * rate) == burst - IDLE * rate;
    if spare <= 0.0 {
      Product(-spare, rate);
    }
  }

  /** What flows in during two rounds falls short of the second bucket. */
  lemma TwoRounds(rate: real, burst: real, n: nat, wait: real, spare: real)
    requires wait * rate == (n + 1) as real - burst && IDLE * rate + spare * rate < burst
    ensures (2 * n + 2) as real > burst + Gained(0.0, wait + IDLE + spare + wait, rate)
  {
    assert (wait + IDLE + spare + wait) * rate == wait * rate + IDLE * rate + spare * rate + wait * rate;
  }

  /** The claim holds exactly when two minutes refill a bucket. The configuration allows
      others: 10 a second with a burst of 20000, for one. */
  lemma BoundedExactly(rate: real, burst: real)
    requires rate > 0.0 && burst >= 1.0
    ensures Bounded(rate, burst) <==> burst <= IDLE * rate
  {
    hide Admitted, InOrder, Gained;
    if burst <= IDLE * rate {
      forall calls: seq<Call>, key: Id, i: nat, j: nat | InOrder(calls) && i < j <= |calls|
        ensures Admitted(rate, burst, calls, key, i, j) as real <= burst + Gained(calls[i].now, calls[j - 1].now, rate)
      {
        RateBound(rate, burst, calls, key, i, j);
      }
    } else {
      TooSlow(rate, burst);
    }
  }

  // ---------- When a call is allowed ----------

  /** A new key finds room: the map is not full, or a sweep is due and some bucket has been
      idle for more than two minutes. */
  ghost predicate RoomFor(s: State, now: real) {
    || |s.buckets| < 4096
    || (SweepDue(s, now) && exists k :: k in s.buckets && now - s.buckets[k].at > 120.0)
  }

  lemma SweepMakesRoom(s: State, now: real)
    requires |s.buckets| == LIMIT && SweepDue(s, now)
    ensures |Cleared(s, now).buckets| < LIMIT <==> exists k :: k in s.buckets && now - s.buckets[k].at > 120.0
  {
    var swept := Swept(s.buckets, now);
    assert |swept.Keys| == |swept| && |s.buckets.Keys| == |s.buckets|;
    if k :| k in s.buckets && now - s.buckets[k].at > 120.0 {
      assert s.buckets.Keys == swept.Keys + (s.buckets.Keys - swept.Keys) && k in s.buckets.Keys - swept.Keys;
    } else {
      assert swept.Keys == s.buckets.Keys;
    }
  }

  /** A call is allowed exactly when its bucket holds a token by then and, if it has none yet,
      there is room for one. */
  lemma AllowedExactly(rate: real, burst: real, s: State, key: Id, now: real)
    requires rate >= 0.0 && burst >= 0.0 && Valid(burst, s, now)
    ensures Step(rate, burst, s, key, now).1 <==>
      Level(rate, burst, s, key, now) >= 1.0 && (key in s.buckets || RoomFor(s, now))
  {
    hide Gained, Swept;
    GainedFacts(now, now, now, rate);
    if key !in s.buckets && |s.buckets| == LIMIT && SweepDue(s, now) {
      SweepMakesRoom(s, now);
    }
  }

  /** When the map was last swept before call k: at the latest call of a new key that found it
      full, of those at least a minute after the sweep before. */
  function LastSweep(rate: real, burst: real, calls: seq<Call>, k: nat): Option<real>
    requires k <= |calls|
  {
    if k == 0 then None
    else
      var last, s, call := LastSweep(rate, burst, calls, k - 1), After(rate, burst, calls, k - 1), calls[k - 1];
      if SweepsAfter(last, s, call) then Some(call.now) else last
  }

  /** A new key finds the map full, at least a minute after the last sweep. */
  predicate SweepsAfter(last: Option<real>, s: State, call: Call) {
    call.key !in s.buckets && |s.buckets| >= 4096 && (last.None? || call.now >= last.value + 60.0)
  }

  /** The object remembers when the next sweep may come. */
  lemma {:induction false} NextSweepFollows(rate: real, burst: real, calls: seq<Call>, k: nat)
    requires k <= |calls|
    ensures
      var last := LastSweep(rate, burst, calls, k);
      After(rate, burst, calls, k).nextSweep == if last.None? then None else Some(last.value + 60.0)
    decreases k
  {
    hide Swept, Gained;
    if k > 0 {
      NextSweepFollows(rate, burst, calls, k - 1);
    }
  }

  /** What a call does to the bucket of another key: nothing, but that a sweep takes it when it
      has been idle for more than two minutes. Sweeps come at least a minute apart, whenever a
      new key finds the map full. */
  lemma SweepsExactly(rate: real, burst: real, calls: seq<Call>, k: nat, other: Id)
    requires k < |calls| && other != calls[k].key
    ensures
      var s, t := After(rate, burst, calls, k), After(rate, burst, calls, k + 1);
      var sweeps := SweepsAfter(LastSweep(rate, burst, calls, k), s, calls[k]);
      && (other in t.buckets <==>
            other in s.buckets && !(sweeps && calls[k].now - s.buckets[other].at > 120.0))
      && (other in t.buckets ==> t.buckets[other] == s.buckets[other])
  {
    hide LastSweep, Gained;
    NextSweepFollows(rate, burst, calls, k);
  }

  /** No call of the key from i + 1 to k - 1. */
  predicate Silent(calls: seq<Call>, key: Id, i: nat, k: nat)
    requires k <= |calls|
  {
    forall j :: i < j < k ==> calls[j].key != key
  }

  lemma StepTouches(rate: real, burst: real, s: State, key: Id, now: real, k: Id)
    ensures
      var t := Step(rate, burst, s, key, now).0;
      && (k in t.buckets && k != key ==> k in s.buckets && t.buckets[k] == s.buckets[k])
      && (key in t.buckets ==> t.buckets[key].at == now)
  {
  }

  /** A bucket was last touched by the latest call of its key. */
  lemma {:induction false} LastTouched(rate: real, burst: real, calls: seq<Call>, key: Id, i: nat, k: nat)
    requires i < k <= |calls| && calls[i].key == key && Silent(calls, key, i, k)
    ensures key in After(rate, burst, calls, k).buckets ==>
      After(rate, burst, calls, k).buckets[key].at == calls[i].now
    decreases k
  {
    hide Step;
    StepTouches(rate, burst, After(rate, burst, calls, k - 1), calls[k - 1].key, calls[k - 1].now, key);
    if i < k - 1 {
      LastTouched(rate, burst, calls, key, i, k - 1);
    }
  }

  /** Over runs: a key whose latest call is long enough ago for one token to flow in is allowed,
      whatever it spent before and whatever others do, as long as it has a bucket or finds room
      for one. */
  lemma PatientIsAllowed(rate: real, burst: real, calls: seq<Call>, i: nat, k: nat)
    requires rate >= 0.0 && burst >= 1.0 && InOrder(calls) && i < k < |calls|
    requires calls[i].key == calls[k].key && Silent(calls, calls[k].key, i, k)
    requires Gained(calls[i].now, calls[k].now, rate) >= 1.0
    ensures Allowed(rate, burst, calls, k) <==>
      calls[k].key in After(rate, burst, calls, k).buckets || RoomFor(After(rate, burst, calls, k), calls[k].now)
  {
    hide Gained, Step, RoomFor;
    RunIsValid(rate, burst, calls, k);
    LastTouched(rate, burst, calls, calls[k].key, i, k);
    AllowedExactly(rate, burst, After(rate, burst, calls, k), calls[k].key, calls[k].now);
  }

  /** And a key that has not called yet is allowed exactly when it finds room. */
  lemma NewcomerIsAllowed(rate: real, burst: real, calls: seq<Call>, k: nat)
    requires rate >= 0.0 && burst >= 1.0 && InOrder(calls) && k < |calls|
    requires forall j :: 0 <= j < k ==> calls[j].key != calls[k].key
    ensures Allowed(rate, burst, calls, k) <==> RoomFor(After(rate, burst, calls, k), calls[k].now)
  {
    hide Step, RoomFor;
    RunIsValid(rate, burst, calls, k);
    NeverTouched(rate, burst, calls, calls[k].key, k);
    AllowedExactly(rate, burst, After(rate, burst, calls, k), calls[k].key, calls[k].now);
  }

  lemma {:induction false} NeverTouched(rate: real, burst: real, calls: seq<Call>, key: Id, k: nat)
    requires k <= |calls| && forall j :: 0 <= j < k ==> calls[j].key != key
    ensures key !in After(rate, burst, calls, k).buckets
    decreases k
  {
    hide Step;
    if k > 0 {
      NeverTouched(rate, burst, calls, key, k - 1);
      StepTouches(rate, burst, After(rate, burst, calls, k - 1), calls[k - 1].key, calls[k - 1].now, key);
    }
  }

  // ---------- The object ----------

  class Limit {
    var buckets: map<Id, Bucket>
    var nextSweep: Option<real>
    const rate: real
    const burst: real

    ghost function Now(): State
      reads this
    {
      State(buckets, nextSweep)
    }

    constructor (rate: real, burst: real)
      ensures Now() == State(map[], None) && this.rate == rate && this.burst == burst
    {
      this.rate, this.burst := rate, burst;
      buckets, nextSweep := map[], None;
    }

    method Sweep(now: real)
      modifies this
      ensures buckets == Swept(old(buckets), now) && nextSweep == Some(now + 60.0)
    {
      ghost var before := buckets;
      var rest := buckets.Keys;
      while rest != {}
        invariant rest <= before.Keys
        invariant buckets == map key | key in before && (key in rest || !(now - before[key].at > IDLE)) :: before[key]
        decreases |rest|
      {
        var key :| key in rest;
        if now - buckets[key].at > IDLE {
          buckets := buckets - {key};
        }
        rest := rest - {key};
      }
      nextSweep := Some(now + 60.0);
    }

    method Allow(key: Id, now: real) returns (allowed: bool)
      modifies this
      ensures (Now(), allowed) == Step(rate, burst, old(Now()), key, now)
    {
      var bucket: Bucket;
      if key in buckets {
        bucket := buckets[key];
      } else {
        if |buckets| >= LIMIT {
          if nextSweep.None? || now >= nextSweep.value {
            Sweep(now);
          }
          if |buckets| >= LIMIT {
            return false;
          }
        }
        bucket := Bucket(burst, now);
      }
      var tokens := Min(burst, bucket.tokens + Gained(bucket.at, now, rate));
      allowed := tokens >= 1.0;
      if allowed {
        tokens := tokens - 1.0;
      }
      buckets := buckets[key := Bucket(tokens, now)];
    }
  }
}
