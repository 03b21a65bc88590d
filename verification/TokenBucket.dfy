/**
 * The three token buckets: voice packets per source address, admin requests per user, messages per
 * WebSocket. The sources compute with f64 seconds and tokens; here both are reals.
 */
module TokenBuckets {
  import opened Options

  type Time = real

  datatype Bucket = Bucket(tokens: real, lastRefill: Time)

  /** Capacity, refill rate per second, and how long a bucket may idle before cleanup drops it. */
  datatype Limits = Limits(capacity: real, rate: real, idle: Time)

  /** An idle bucket is full again before it is dropped. */
  predicate Valid(p: Limits) {
    p.capacity >= 0.0 && p.rate >= 0.0 && p.idle >= 0.0 && p.idle * p.rate >= p.capacity
  }

  function Min(a: real, b: real): real {
    if a < b then a else b
  }

  function Credit(rate: real, t: Time): real {
    rate * t
  }

  /** The tokens earned from one time to another, as the difference of two running totals. */
  function Refill(p: Limits, since: Time, now: Time): real {
    Credit(p.rate, now) - Credit(p.rate, since)
  }

  lemma RefillIsRateTimesElapsed(p: Limits, since: Time, now: Time)
    ensures Refill(p, since, now) == (now - since) * p.rate
  {
  }

  lemma RefillNonNegative(p: Limits, since: Time, now: Time)
    requires p.rate >= 0.0 && since <= now
    ensures Refill(p, since, now) >= 0.0
  {
    RefillIsRateTimesElapsed(p, since, now);
  }

  function Refilled(p: Limits, b: Bucket, now: Time): real {
    Min(b.tokens + Refill(p, b.lastRefill, now), p.capacity)
  }

  /** One call: a missing bucket starts full; a call costs one token or is refused. */
  function Take(p: Limits, b: Option<Bucket>, now: Time): (Bucket, bool) {
    var level := Level(p, b, now);
    if level >= 1.0 then (Bucket(level - 1.0, now), true) else (Bucket(level, now), false)
  }

  function Level(p: Limits, b: Option<Bucket>, now: Time): real {
    match b
    case Some(bucket) => Refilled(p, bucket, now)
    case None => p.capacity
  }

  // ---- The calls of one key ----

  function After(p: Limits, times: seq<Time>): Option<Bucket> {
    if times == [] then None
    else Some(Take(p, After(p, times[..|times| - 1]), times[|times| - 1]).0)
  }

  function Decisions(p: Limits, times: seq<Time>): (ds: seq<bool>)
    ensures |ds| == |times|
  {
    if times == [] then []
    else
      var before := times[..|times| - 1];
      Decisions(p, before) + [Take(p, After(p, before), times[|times| - 1]).1]
  }

  function Allowed(ds: seq<bool>): nat {
    if ds == [] then 0 else Allowed(ds[..|ds| - 1]) + if ds[|ds| - 1] then 1 else 0
  }

  ghost predicate Monotone(times: seq<Time>, now: Time) {
    && (forall i :: 0 <= i < |times| ==> times[i] <= now)
    && (forall i, j :: 0 <= i < j < |times| ==> times[i] <= times[j])
  }

  /** What call i leaves for now: capacity and refill since then, less the calls allowed since then. */
  ghost function Bound(p: Limits, times: seq<Time>, now: Time, i: nat): real
    requires i < |times|
  {
    p.capacity + Refill(p, times[i], now) - (Allowed(Decisions(p, times)[i..]) as real)
  }

  /** level is the minimum of the capacity and all the bounds. */
  ghost predicate IsLeastBound(p: Limits, times: seq<Time>, now: Time, level: real) {
    && level <= p.capacity
    && (forall i :: 0 <= i < |times| ==> level <= Bound(p, times, now, i))
    && (level == p.capacity || exists i :: 0 <= i < |times| && level == Bound(p, times, now, i))
  }

  lemma AllowedLast(ds: seq<bool>, d: bool, i: nat)
    requires i <= |ds|
    ensures Allowed((ds + [d])[i..]) == Allowed(ds[i..]) + if d then 1 else 0
  {
    assert (ds + [d])[i..] == ds[i..] + [d];
    assert (ds[i..] + [d])[..|ds[i..]|] == ds[i..];
  }

  /** Whether one more call, at time t, would be allowed. */
  function Answer(p: Limits, times: seq<Time>, t: Time): bool {
    Take(p, After(p, times), t).1
  }

  lemma AllowedStep(p: Limits, times: seq<Time>, t: Time, i: nat)
    requires i <= |times|
    ensures Allowed(Decisions(p, times + [t])[i..])
         == (if i < |times| then Allowed(Decisions(p, times)[i..]) else 0) + if Answer(p, times, t) then 1 else 0
  {
    assert (times + [t])[..|times|] == times;
    AllowedLast(Decisions(p, times), Answer(p, times, t), i);
    if i == |times| { assert Decisions(p, times)[i..] == []; }
  }

  /** The level when call i is the only constraint, one more call having been made at time t. */
  lemma BoundStep(p: Limits, times: seq<Time>, t: Time, now: Time, i: nat)
    requires i <= |times|
    ensures Bound(p, times + [t], now, i)
         == (if i < |times| then Bound(p, times, t, i) else p.capacity)
            + Refill(p, t, now) - if Answer(p, times, t) then 1.0 else 0.0
  {
    AllowedStep(p, times, t, i);
  }

  /** How the level moves over one more call, made at time t. */
  lemma LevelStep(p: Limits, times: seq<Time>, t: Time, now: Time)
    ensures Level(p, After(p, times + [t]), now)
         == Min(Level(p, After(p, times), t) - (if Answer(p, times, t) then 1.0 else 0.0) + Refill(p, t, now), p.capacity)
  {
    assert (times + [t])[..|times|] == times;
  }

  lemma LeastBoundStep(p: Limits, times: seq<Time>, t: Time, now: Time)
    requires IsLeastBound(p, times, t, Level(p, After(p, times), t))
    ensures IsLeastBound(p, times + [t], now, Level(p, After(p, times + [t]), now))
  {
    var l, n := Level(p, After(p, times), t), |times|;
    var next := l - (if Answer(p, times, t) then 1.0 else 0.0) + Refill(p, t, now);
    LevelStep(p, times, t, now);
    forall i | 0 <= i <= n ensures next <= Bound(p, times + [t], now, i) {
      BoundStep(p, times, t, now, i);
    }
    if l == p.capacity {
      BoundStep(p, times, t, now, n);
      assert next == Bound(p, times + [t], now, n);
    } else {
      var i :| 0 <= i < n && l == Bound(p, times, t, i);
      BoundStep(p, times, t, now, i);
      assert next == Bound(p, times + [t], now, i);
    }
  }

  /** Exactness: at every call the level is the least of the capacity and all the bounds so far. */
  lemma {:induction false} LevelIsLeastBound(p: Limits, times: seq<Time>, now: Time)
    requires Valid(p) && Monotone(times, now)
    ensures IsLeastBound(p, times, now, Level(p, After(p, times), now))
    ensures Level(p, After(p, times), now) >= 0.0
  {
    if times != [] {
      var n := |times| - 1;
      var before, t := times[..n], times[n];
      assert times == before + [t];
      LevelIsLeastBound(p, before, t);
      LeastBoundStep(p, before, t, now);
      LevelStep(p, before, t, now);
      RefillNonNegative(p, t, now);
    }
  }

  /** Allowing a call now would give the window that starts with call i too many. */
  ghost predicate Exceeds(p: Limits, times: seq<Time>, answers: seq<bool>, now: Time, i: nat)
    requires i < |times| == |answers|
  {
    (Allowed(answers[i..]) + 1) as real > p.capacity + Refill(p, times[i], now)
  }

  /** A least bound is below one exactly when some bound is. */
  lemma LeastBelowOne(capacity: real, bounds: seq<real>, level: real)
    requires level <= capacity && forall i :: 0 <= i < |bounds| ==> level <= bounds[i]
    requires level == capacity || exists i :: 0 <= i < |bounds| && level == bounds[i]
    ensures level < 1.0 <==> capacity < 1.0 || exists i :: 0 <= i < |bounds| && bounds[i] < 1.0
  {
  }

  ghost function Bounds(p: Limits, times: seq<Time>, now: Time): seq<real> {
    seq(|times|, i requires 0 <= i < |times| => Bound(p, times, now, i))
  }

  lemma LeastOfBounds(p: Limits, times: seq<Time>, now: Time, level: real)
    requires IsLeastBound(p, times, now, level)
    ensures level < 1.0 <==> p.capacity < 1.0 || exists i :: 0 <= i < |times| && Bounds(p, times, now)[i] < 1.0
  {
    var bounds := Bounds(p, times, now);
    assert forall i :: 0 <= i < |times| ==> bounds[i] == Bound(p, times, now, i);
    LeastBelowOne(p.capacity, bounds, level);
  }

  lemma ExceedsIffBelowOne(p: Limits, times: seq<Time>, now: Time, i: nat)
    requires i < |times|
    ensures Exceeds(p, times, Decisions(p, times), now, i) <==> Bounds(p, times, now)[i] < 1.0
  {
    var allowed, refill := Allowed(Decisions(p, times)[i..]), Refill(p, times[i], now);
    assert (allowed + 1) as real == allowed as real + 1.0;
    assert Bounds(p, times, now)[i] == p.capacity + refill - (allowed as real);
  }

  /** The window of some earlier call is full. */
  ghost predicate SomeExceeds(p: Limits, times: seq<Time>, answers: seq<bool>, now: Time) {
    |answers| == |times| && exists i :: 0 <= i < |times| && Exceeds(p, times, answers, now, i)
  }

  lemma SomeExceedsIff(p: Limits, times: seq<Time>, now: Time)
    ensures SomeExceeds(p, times, Decisions(p, times), now) <==> exists i :: 0 <= i < |times| && Bounds(p, times, now)[i] < 1.0
  {
    if i :| 0 <= i < |times| && Bounds(p, times, now)[i] < 1.0 { ExceedsIffBelowOne(p, times, now, i); }
    if i :| 0 <= i < |times| && Exceeds(p, times, Decisions(p, times), now, i) { ExceedsIffBelowOne(p, times, now, i); }
  }

  /** A call is refused exactly when allowing it would break the bound of some window that ends now. */
  lemma RefusedIff(p: Limits, times: seq<Time>, now: Time)
    requires Valid(p) && Monotone(times, now)
    ensures !Answer(p, times, now) <==> 1.0 > p.capacity || SomeExceeds(p, times, Decisions(p, times), now)
  {
    LevelIsLeastBound(p, times, now);
    LeastOfBounds(p, times, now, Level(p, After(p, times), now));
    SomeExceedsIff(p, times, now);
  }

  /** A window up to the newest call, call i being its first. */
  lemma {:induction false} NewestWindowBound(p: Limits, times: seq<Time>, i: nat)
    requires Valid(p) && i < |times| && Monotone(times, times[|times| - 1])
    ensures Allowed(Decisions(p, times)[i..]) as real <= p.capacity + Refill(p, times[i], times[|times| - 1])
  {
    var n := |times| - 1;
    var before, t := times[..n], times[n];
    assert times == before + [t];
    AllowedStep(p, before, t, i);
    if Answer(p, before, t) {
      RefusedIff(p, before, t);
      if i < n { assert !Exceeds(p, before, Decisions(p, before), t, i); }
    } else if i < n {
      NewestWindowBound(p, before, i);
      RefillNonNegative(p, before[n - 1], t);
    }
  }

  /** Later calls do not change earlier answers. */
  lemma {:induction false} DecisionsOfPrefix(p: Limits, times: seq<Time>, n: nat)
    requires n <= |times|
    ensures Decisions(p, times[..n]) == Decisions(p, times)[..n]
    decreases |times|
  {
    if n == |times| {
      assert times[..n] == times;
    } else {
      var before := times[..|times| - 1];
      assert before[..n] == times[..n];
      DecisionsOfPrefix(p, before, n);
    }
  }

  /** Any window of calls, from call i to call j, allows at most capacity + rate * its length. */
  lemma WindowBound(p: Limits, times: seq<Time>, i: nat, j: nat)
    requires Valid(p) && i <= j < |times| && Monotone(times, times[|times| - 1])
    ensures Allowed(Decisions(p, times)[i..j + 1]) as real <= p.capacity + Refill(p, times[i], times[j])
  {
    NewestWindowBound(p, times[..j + 1], i);
    DecisionsOfPrefix(p, times, j + 1);
    assert Decisions(p, times)[..j + 1][i..] == Decisions(p, times)[i..j + 1];
  }

  // ---- Limiters keyed by address or user, with cleanup ----

  datatype Op<K> = Call(key: K, at: Time) | Cleanup(at: Time)

  function Cleaned<K>(p: Limits, m: map<K, Bucket>, now: Time): map<K, Bucket> {
    map k | k in m && now - m[k].lastRefill < p.idle :: m[k]
  }

  function Apply<K>(p: Limits, m: map<K, Bucket>, op: Op<K>): map<K, Bucket> {
    match op
    case Call(k, at) => m[k := Take(p, Lookup(m, k), at).0]
    case Cleanup(at) => Cleaned(p, m, at)
  }

  function State<K>(p: Limits, ops: seq<Op<K>>): map<K, Bucket> {
    if ops == [] then map[] else Apply(p, State(p, ops[..|ops| - 1]), ops[|ops| - 1])
  }

  /** The times of the calls of one key, and the answers they got from the limiter. */
  function CallsOf<K(==)>(ops: seq<Op<K>>, k: K): seq<Time> {
    if ops == [] then []
    else
      var before, op := CallsOf(ops[..|ops| - 1], k), ops[|ops| - 1];
      if op.Call? && op.key == k then before + [op.at] else before
  }

  function AnswersTo<K(==)>(p: Limits, ops: seq<Op<K>>, k: K): seq<bool> {
    if ops == [] then []
    else
      var before, op := ops[..|ops| - 1], ops[|ops| - 1];
      if op.Call? && op.key == k then AnswersTo(p, before, k) + [Take(p, Lookup(State(p, before), k), op.at).1]
      else AnswersTo(p, before, k)
  }

  ghost predicate MonotoneOps<K>(ops: seq<Op<K>>, now: Time) {
    && (forall i :: 0 <= i < |ops| ==> ops[i].at <= now)
    && (forall i, j :: 0 <= i < j < |ops| ==> ops[i].at <= ops[j].at)
  }

  /** The limiter's bucket is the one the key's calls alone would give, or dropped and full again. */
  ghost predicate SameBucket(p: Limits, kept: Option<Bucket>, b: Option<Bucket>, now: Time) {
    || kept == b
    || (kept.None? && b.Some? && b.value.tokens + Refill(p, b.value.lastRefill, now) >= p.capacity)
  }

  lemma SameBucketSameAnswer(p: Limits, kept: Option<Bucket>, b: Option<Bucket>, t: Time, now: Time)
    requires Valid(p) && SameBucket(p, kept, b, t) && t <= now
    ensures Take(p, kept, now) == Take(p, b, now)
    ensures SameBucket(p, kept, b, now)
  {
    if kept != b {
      RefillNonNegative(p, t, now);
    }
  }

  lemma IdleBucketIsFull(p: Limits, b: Bucket, now: Time)
    requires Valid(p) && b.tokens >= 0.0 && now - b.lastRefill >= p.idle
    ensures b.tokens + Refill(p, b.lastRefill, now) >= p.capacity
  {
    RefillIsRateTimesElapsed(p, b.lastRefill, now);
    assert (now - b.lastRefill - p.idle) * p.rate >= 0.0;
  }

  lemma {:induction false} TokensAreNonNegative(p: Limits, times: seq<Time>, now: Time)
    requires Valid(p) && Monotone(times, now) && times != []
    ensures After(p, times).value.tokens >= 0.0
  {
    var n := |times| - 1;
    LevelIsLeastBound(p, times[..n], times[n]);
  }

  lemma {:induction false} CallsAreMonotone<K>(ops: seq<Op<K>>, k: K, now: Time)
    requires MonotoneOps(ops, now)
    ensures Monotone(CallsOf(ops, k), now)
  {
    if ops != [] {
      var n := |ops| - 1;
      CallsAreMonotone(ops[..n], k, ops[n].at);
    }
  }

  /** Cleanups anywhere in the run never show: each key's bucket follows its own calls. */
  lemma {:induction false} BucketFollowsCalls<K>(p: Limits, ops: seq<Op<K>>, k: K, now: Time)
    requires Valid(p) && MonotoneOps(ops, now)
    ensures SameBucket(p, Lookup(State(p, ops), k), After(p, CallsOf(ops, k)), now)
  {
    if ops != [] {
      var n := |ops| - 1;
      var before, op := ops[..n], ops[n];
      var kept, calls := Lookup(State(p, before), k), CallsOf(before, k);
      BucketFollowsCalls(p, before, k, op.at);
      SameBucketSameAnswer(p, kept, After(p, calls), op.at, op.at);
      SameBucketSameAnswer(p, kept, After(p, calls), op.at, now);
      match op
      case Call(key, at) =>
        if key == k {
          assert (calls + [at])[..|calls|] == calls;
        }
      case Cleanup(at) =>
        if kept.Some? && at - kept.value.lastRefill >= p.idle {
          CallsAreMonotone(before, k, at);
          TokensAreNonNegative(p, calls, at);
          IdleBucketIsFull(p, kept.value, at);
          SameBucketSameAnswer(p, None, After(p, calls), at, now);
        }
    }
  }

  lemma {:induction false} AnswersFollowCalls<K>(p: Limits, ops: seq<Op<K>>, k: K, now: Time)
    requires Valid(p) && MonotoneOps(ops, now)
    ensures AnswersTo(p, ops, k) == Decisions(p, CallsOf(ops, k))
  {
    if ops != [] {
      var n := |ops| - 1;
      var before, op := ops[..n], ops[n];
      AnswersFollowCalls(p, before, k, op.at);
      if op.Call? && op.key == k {
        var calls := CallsOf(before, k);
        BucketFollowsCalls(p, before, k, op.at);
        SameBucketSameAnswer(p, Lookup(State(p, before), k), After(p, calls), op.at, op.at);
        assert (calls + [op.at])[..|calls|] == calls;
      }
    }
  }

  /**
   * The limiter as a whole, cleanups included: after any run, a call by k is refused exactly when
   * allowing it would give some window of k's own calls that ends now more than capacity + rate * length.
   */
  lemma LimiterRefusesIff<K>(p: Limits, ops: seq<Op<K>>, k: K, now: Time)
    requires Valid(p) && MonotoneOps(ops, now)
    ensures
      var times, answers := CallsOf(ops, k), AnswersTo(p, ops, k);
      && |times| == |answers|
      && (!Take(p, Lookup(State(p, ops), k), now).1 <==>
            1.0 > p.capacity || SomeExceeds(p, times, answers, now))
  {
    CallsAreMonotone(ops, k, now);
    AnswersFollowCalls(p, ops, k, now);
    BucketFollowsCalls(p, ops, k, now);
    SameBucketSameAnswer(p, Lookup(State(p, ops), k), After(p, CallsOf(ops, k)), now, now);
    RefusedIff(p, CallsOf(ops, k), now);
  }

  /** No window of k's calls was allowed more than capacity + rate * its length. */
  lemma LimiterWindowBound<K>(p: Limits, ops: seq<Op<K>>, k: K, now: Time, i: nat, j: nat)
    requires Valid(p) && MonotoneOps(ops, now) && i <= j < |CallsOf(ops, k)|
    ensures
      var times, answers := CallsOf(ops, k), AnswersTo(p, ops, k);
      && |times| == |answers|
      && Allowed(answers[i..j + 1]) as real <= p.capacity + Refill(p, times[i], times[j])
  {
    var times := CallsOf(ops, k);
    CallsAreMonotone(ops, k, now);
    AnswersFollowCalls(p, ops, k, now);
    WindowBound(p, times, i, j);
  }

  function WithoutCleanups<K>(ops: seq<Op<K>>): seq<Op<K>> {
    if ops == [] then []
    else WithoutCleanups(ops[..|ops| - 1]) + if ops[|ops| - 1].Call? then [ops[|ops| - 1]] else []
  }

  lemma {:induction false} WithoutCleanupsKeepsCalls<K>(ops: seq<Op<K>>, k: K, now: Time)
    requires MonotoneOps(ops, now)
    ensures CallsOf(WithoutCleanups(ops), k) == CallsOf(ops, k) && MonotoneOps(WithoutCleanups(ops), now)
  {
    if ops != [] {
      var n := |ops| - 1;
      WithoutCleanupsKeepsCalls(ops[..n], k, ops[n].at);
      var kept := WithoutCleanups(ops[..n]);
      if ops[n].Call? {
        assert (kept + [ops[n]])[..|kept|] == kept;
      } else {
        assert WithoutCleanups(ops) == kept;
      }
    }
  }

  /** Inserting cleanups anywhere in a run changes no answer to anybody. */
  lemma CleanupIsInvisible<K>(p: Limits, ops: seq<Op<K>>, k: K, now: Time)
    requires Valid(p) && MonotoneOps(ops, now)
    ensures AnswersTo(p, ops, k) == AnswersTo(p, WithoutCleanups(ops), k)
    ensures Take(p, Lookup(State(p, ops), k), now).1 == Take(p, Lookup(State(p, WithoutCleanups(ops)), k), now).1
  {
    var plain := WithoutCleanups(ops);
    WithoutCleanupsKeepsCalls(ops, k, now);
    AnswersFollowCalls(p, ops, k, now);
    AnswersFollowCalls(p, plain, k, now);
    BucketFollowsCalls(p, ops, k, now);
    BucketFollowsCalls(p, plain, k, now);
    SameBucketSameAnswer(p, Lookup(State(p, ops), k), After(p, CallsOf(ops, k)), now, now);
    SameBucketSameAnswer(p, Lookup(State(p, plain), k), After(p, CallsOf(ops, k)), now, now);
  }

  // ---- The three limiters ----

  function VoiceLimits(maxRate: nat): (p: Limits)
    ensures Valid(p) && p.capacity == p.rate == maxRate as real
  {
    Limits(maxRate as real, maxRate as real, 60.0)
  }

  const ADMIN_LIMITS := Limits(10.0, 1.0, 300.0)
  const WS_LIMITS := Limits(30.0, 30.0, 30.0)

  class VoiceRateLimiter<Addr(==)> {
    var buckets: map<Addr, Bucket>
    const maxRate: nat

    constructor (maxPacketsPerSec: nat)
      ensures buckets == map[] && maxRate == maxPacketsPerSec
    {
      buckets, maxRate := map[], maxPacketsPerSec;
    }

    method Allow(addr: Addr, now: Time) returns (ok: bool)
      modifies this
      ensures buckets == Apply(VoiceLimits(maxRate), old(buckets), Call(addr, now))
      ensures ok == Take(VoiceLimits(maxRate), Lookup(old(buckets), addr), now).1
    {
      var bucket := if addr in buckets then buckets[addr] else Bucket(maxRate as real, now);
      var elapsed := now - bucket.lastRefill;
      RefillIsCredit(VoiceLimits(maxRate), bucket.lastRefill, now);
      bucket := Bucket(Min(bucket.tokens + Credit(maxRate as real, elapsed), maxRate as real), now);
      ok := bucket.tokens >= 1.0;
      if ok {
        bucket := bucket.(tokens := bucket.tokens - 1.0);
      }
      buckets := buckets[addr := bucket];
    }

    method Cleanup(now: Time)
      modifies this
      ensures buckets == Apply(VoiceLimits(maxRate), old(buckets), Op.Cleanup(now))
      ensures forall k :: k in buckets <==> k in old(buckets) && now - old(buckets)[k].lastRefill < 60.0
      ensures forall k :: k in buckets ==> buckets[k] == old(buckets)[k]
    {
      var cutoff := now - 60.0;
      buckets := map k | k in buckets && buckets[k].lastRefill > cutoff :: buckets[k];
    }
  }

  class AdminRateLimiter {
    var buckets: map<int, Bucket>
    const rate: real
    const capacity: real

    ghost predicate Valid()
      reads this
    {
      rate == ADMIN_LIMITS.rate && capacity == ADMIN_LIMITS.capacity
    }

    constructor ()
      ensures Valid() && buckets == map[]
    {
      buckets, rate, capacity := map[], 1.0, 10.0;
    }

    method CheckAndConsume(userId: int, now: Time) returns (ok: bool)
      requires Valid()
      modifies this
      ensures buckets == Apply(ADMIN_LIMITS, old(buckets), Call(userId, now))
      ensures ok == Take(ADMIN_LIMITS, Lookup(old(buckets), userId), now).1
    {
      var entry := if userId in buckets then buckets[userId] else Bucket(capacity, now);
      var elapsed := now - entry.lastRefill;
      RefillIsRateTimesElapsed(ADMIN_LIMITS, entry.lastRefill, now);
      entry := Bucket(Min(entry.tokens + elapsed * rate, capacity), now);
      if entry.tokens >= 1.0 {
        entry := entry.(tokens := entry.tokens - 1.0);
        ok := true;
      } else {
        ok := false;
      }
      buckets := buckets[userId := entry];
    }

    method Cleanup(now: Time)
      modifies this
      ensures buckets == Apply(ADMIN_LIMITS, old(buckets), Op.Cleanup(now))
      ensures forall k :: k in buckets <==> k in old(buckets) && now - old(buckets)[k].lastRefill < 300.0
      ensures forall k :: k in buckets ==> buckets[k] == old(buckets)[k]
    {
      var idleThreshold := 300.0;
      buckets := map k | k in buckets && now - buckets[k].lastRefill < idleThreshold :: buckets[k];
    }
  }

  /** The rate limiter fields of one WebSocket connection. */
  class WsLimiter {
    var tokens: real
    var lastRefill: Time

    constructor (now: Time)
      ensures Bucket(tokens, lastRefill) == Bucket(WS_LIMITS.capacity, now)
    {
      tokens, lastRefill := 30.0, now;
    }

    method Admit(now: Time) returns (handled: bool)
      modifies this
      ensures (Bucket(tokens, lastRefill), handled)
           == Take(WS_LIMITS, Some(old(Bucket(tokens, lastRefill))), now)
    {
      var elapsed := now - lastRefill;
      RefillIsRateTimesElapsed(WS_LIMITS, lastRefill, now);
      tokens := Min(tokens + elapsed * 30.0, 30.0);
      lastRefill := now;
      if tokens >= 1.0 {
        tokens := tokens - 1.0;
        handled := true;
      } else {
        handled := false;
      }
    }
  }

  /** A connection's bucket starts full when it opens, which is the same as starting at the first message. */
  lemma FullBucketLikeNone(p: Limits, start: Time, now: Time)
    requires Valid(p) && start <= now
    ensures Take(p, Some(Bucket(p.capacity, start)), now) == Take(p, None, now)
  {
    RefillNonNegative(p, start, now);
  }

  /**
   * One WebSocket: whatever it sends, any window of T seconds has at most 30 + 30 T messages handled,
   * and a message is dropped exactly when handling it would break that for some window ending with it.
   */
  lemma WebSocketWindowBound(times: seq<Time>, now: Time, i: nat, j: nat)
    requires Monotone(times, now) && i <= j < |times|
    ensures Allowed(Decisions(WS_LIMITS, times)[i..j + 1]) as real <= 30.0 + (times[j] - times[i]) * 30.0
    ensures !Answer(WS_LIMITS, times, now) <==>
              exists n :: 0 <= n < |times| && (Allowed(Decisions(WS_LIMITS, times)[n..]) + 1) as real > 30.0 + (now - times[n]) * 30.0
  {
    forall n | 0 <= n < |times|
      ensures Exceeds(WS_LIMITS, times, Decisions(WS_LIMITS, times), now, n) <==>
              (Allowed(Decisions(WS_LIMITS, times)[n..]) + 1) as real > 30.0 + (now - times[n]) * 30.0
    {
      RefillIsRateTimesElapsed(WS_LIMITS, times[n], now);
    }
    WindowBound(WS_LIMITS, times, i, j);
    RefillIsRateTimesElapsed(WS_LIMITS, times[i], times[j]);
    RefusedIff(WS_LIMITS, times, now);
  }

  /** The admin API, cleanups included: any window of T seconds allows a user at most 10 + T requests. */
  lemma AdminWindowBound(ops: seq<Op<int>>, userId: int, now: Time, i: nat, j: nat)
    requires MonotoneOps(ops, now) && i <= j < |CallsOf(ops, userId)|
    ensures
      var times, answers := CallsOf(ops, userId), AnswersTo(ADMIN_LIMITS, ops, userId);
      && |times| == |answers|
      && Allowed(answers[i..j + 1]) as real <= 10.0 + (times[j] - times[i])
  {
    LimiterWindowBound(ADMIN_LIMITS, ops, userId, now, i, j);
    RefillIsRateTimesElapsed(ADMIN_LIMITS, CallsOf(ops, userId)[i], CallsOf(ops, userId)[j]);
  }

  /** In terms of the times between calls. */
  lemma LimiterRefusesByElapsed<K>(p: Limits, ops: seq<Op<K>>, k: K, now: Time)
    requires Valid(p) && MonotoneOps(ops, now)
    ensures
      var times, answers := CallsOf(ops, k), AnswersTo(p, ops, k);
      && |times| == |answers|
      && (!Take(p, Lookup(State(p, ops), k), now).1 <==>
            || 1.0 > p.capacity
            || exists i :: 0 <= i < |times| && (Allowed(answers[i..]) + 1) as real > p.capacity + Credit(p.rate, now - times[i]))
  {
    LimiterRefusesIff(p, ops, k, now);
    forall i | 0 <= i < |CallsOf(ops, k)| == |AnswersTo(p, ops, k)|
      ensures Exceeds(p, CallsOf(ops, k), AnswersTo(p, ops, k), now, i) <==>
              (Allowed(AnswersTo(p, ops, k)[i..]) + 1) as real > p.capacity + Credit(p.rate, now - CallsOf(ops, k)[i])
    {
      ExceedsByElapsed(p, CallsOf(ops, k), AnswersTo(p, ops, k), now, i);
    }
  }

  lemma ExceedsByElapsed(p: Limits, times: seq<Time>, answers: seq<bool>, now: Time, i: nat)
    requires i < |times| == |answers|
    ensures Exceeds(p, times, answers, now, i) <==>
            (Allowed(answers[i..]) + 1) as real > p.capacity + Credit(p.rate, now - times[i])
  {
    RefillIsCredit(p, times[i], now);
  }

  /** An admin request is refused exactly when it would be one too many in some window of the user's that ends with it. */
  lemma AdminRefusedIff(ops: seq<Op<int>>, userId: int, now: Time)
    requires MonotoneOps(ops, now)
    ensures
      var times, answers := CallsOf(ops, userId), AnswersTo(ADMIN_LIMITS, ops, userId);
      && |times| == |answers|
      && (!Take(ADMIN_LIMITS, Lookup(State(ADMIN_LIMITS, ops), userId), now).1 <==>
            exists i :: 0 <= i < |times| && (Allowed(answers[i..]) + 1) as real > 10.0 + (now - times[i]))
  {
    LimiterRefusesByElapsed(ADMIN_LIMITS, ops, userId, now);
    assert forall t :: Credit(ADMIN_LIMITS.rate, t) == t;
  }

  /** A voice packet likewise, for its address. */
  lemma VoiceRefusedIff<Addr>(maxRate: nat, ops: seq<Op<Addr>>, addr: Addr, now: Time)
    requires MonotoneOps(ops, now)
    ensures
      var p := VoiceLimits(maxRate);
      var times, answers := CallsOf(ops, addr), AnswersTo(p, ops, addr);
      && |times| == |answers|
      && (!Take(p, Lookup(State(p, ops), addr), now).1 <==>
            || maxRate == 0
            || exists i :: 0 <= i < |times| && (Allowed(answers[i..]) + 1) as real > maxRate as real + Credit(maxRate as real, now - times[i]))
  {
    LimiterRefusesByElapsed(VoiceLimits(maxRate), ops, addr, now);
  }

  /** Voice, cleanups included: any window of T seconds lets at most rate + rate * T packets of an address through. */
  lemma VoiceWindowBound<Addr>(maxRate: nat, ops: seq<Op<Addr>>, addr: Addr, now: Time, i: nat, j: nat)
    requires MonotoneOps(ops, now) && i <= j < |CallsOf(ops, addr)|
    ensures
      var times, answers := CallsOf(ops, addr), AnswersTo(VoiceLimits(maxRate), ops, addr);
      && |times| == |answers|
      && Allowed(answers[i..j + 1]) as real <= VoiceLimits(maxRate).capacity + Credit(VoiceLimits(maxRate).rate, times[j] - times[i])
  {
    LimiterWindowBound(VoiceLimits(maxRate), ops, addr, now, i, j);
    RefillIsCredit(VoiceLimits(maxRate), CallsOf(ops, addr)[i], CallsOf(ops, addr)[j]);
  }

  lemma RefillIsCredit(p: Limits, since: Time, now: Time)
    ensures Refill(p, since, now) == Credit(p.rate, now - since)
  {
  }
}
