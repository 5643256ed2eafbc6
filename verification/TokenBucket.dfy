/** The token bucket that limits provider requests and tokens per minute.

  Each lock-protected region is one atomic operation at one clock reading. Time and tokens are
  exact reals; the clock is monotone and a sleep lasts at least as long as asked. */
module TokenBucket {
  import opened Wrappers
  import opened Arithmetic

  datatype Limits = Limits(rate: real, max: real)

  /** `_tokens` and `_last_update` */
  datatype Bucket = Bucket(tokens: real, last: Option<real>)

  predicate Positive(k: Limits) { k.rate > 0.0 && k.max > 0.0 }

  predicate InRange(k: Limits, b: Bucket) { -k.max <= b.tokens <= k.max }

  /** Tokens after crediting the time since the last update. */
  function Level(k: Limits, b: Bucket, now: real): real {
    var elapsed := match b.last case None => 0.0 case Some(t) => Max(0.0, now - t);
    Min(k.max, b.tokens + elapsed * k.rate)
  }

  /** How long it takes to earn `missing` tokens. */
  function WaitFor(k: Limits, missing: real): real
    requires Positive(k)
  {
    missing / k.rate
  }

  /** One pass through the locked region for a request of at most `max` tokens: granted, or told
      how long to wait. */
  function Attempt(k: Limits, b: Bucket, n: real, now: real): (bool, Bucket, real)
    requires Positive(k)
  {
    var level := Level(k, b, now);
    if level >= n then (true, Bucket(level - n, Some(now)), 0.0)
    else (false, Bucket(level, Some(now)), WaitFor(k, n - level))
  }

  /** The locked region for a request larger than the bucket: always let through after a wait,
      its debt cut off at `-max`. */
  function Oversized(k: Limits, b: Bucket, n: real, now: real): (Bucket, real)
    requires Positive(k)
  {
    var level := Level(k, b, now);
    (Bucket(Max(-k.max, level - n), Some(now)), if n > level then WaitFor(k, n - level) else 0.0)
  }

  /** What dt seconds earn. */
  function Earned(k: Limits, dt: real): real {
    k.rate * dt
  }

  lemma EarnedAdds(k: Limits, s: real, m: real, t: real)
    requires Positive(k) && s <= m <= t
    ensures Earned(k, t - s) == Earned(k, m - s) + Earned(k, t - m)
    ensures Earned(k, m - s) >= 0.0 && Earned(k, t - m) >= 0.0
  {}

  // ----- any interleaving of callers

  /** One locked region some caller runs, at its clock reading. */
  datatype Op = Op(n: real, now: real)

  function Step(k: Limits, b: Bucket, op: Op): Bucket
    requires Positive(k)
  {
    if op.n <= 0.0 then b
    else if op.n > k.max then Oversized(k, b, op.n, op.now).0
    else Attempt(k, b, op.n, op.now).1
  }

  /** Tokens handed out by `op` to a request that fits the bucket. */
  function Grant(k: Limits, b: Bucket, op: Op): real
    requires Positive(k)
  {
    if 0.0 < op.n <= k.max && Attempt(k, b, op.n, op.now).0 then op.n else 0.0
  }

  function Replay(k: Limits, b: Bucket, ops: seq<Op>): Bucket
    requires Positive(k)
    decreases |ops|
  {
    if ops == [] then b else Replay(k, Step(k, b, ops[0]), ops[1..])
  }

  function Granted(k: Limits, b: Bucket, ops: seq<Op>): real
    requires Positive(k)
    decreases |ops|
  {
    if ops == [] then 0.0 else Grant(k, b, ops[0]) + Granted(k, Step(k, b, ops[0]), ops[1..])
  }

  predicate Monotone(ops: seq<Op>) {
    forall i, j :: 0 <= i < j < |ops| ==> ops[i].now <= ops[j].now
  }

  /** `b` was last updated no later than `now`. */
  predicate UpTo(b: Bucket, now: real) {
    b.last.Some? ==> b.last.value <= now
  }

  lemma StepInRange(k: Limits, b: Bucket, op: Op)
    requires Positive(k) && InRange(k, b) && UpTo(b, op.now)
    ensures InRange(k, Step(k, b, op)) && UpTo(Step(k, b, op), op.now)
  {}

  lemma LevelGrows(k: Limits, b: Bucket, now: real)
    requires Positive(k) && b.tokens <= k.max
    ensures b.tokens <= Level(k, b, now) <= k.max
  {}

  /** The balance never leaves [-max, max]. */
  lemma {:induction false} BalanceBounded(k: Limits, b: Bucket, ops: seq<Op>)
    requires Positive(k) && InRange(k, b) && Monotone(ops)
    requires ops != [] ==> UpTo(b, ops[0].now)
    ensures InRange(k, Replay(k, b, ops))
    decreases |ops|
  {
    if ops != [] {
      StepInRange(k, b, ops[0]);
      BalanceBounded(k, Step(k, b, ops[0]), ops[1..]);
    }
  }

  /** Waiting from s to now adds at most what is earned meanwhile. */
  lemma LevelRate(k: Limits, b: Bucket, s: real, now: real)
    requires Positive(k) && UpTo(b, s) && s <= now && b.tokens <= k.max
    ensures Level(k, b, now) <= Level(k, b, s) + Earned(k, now - s)
  {}

  lemma {:induction false} GrantedFrom(k: Limits, b: Bucket, ops: seq<Op>, s: real, t: real)
    requires Positive(k) && InRange(k, b) && UpTo(b, s) && s <= t && Monotone(ops)
    requires forall i :: 0 <= i < |ops| ==> s <= ops[i].now <= t
    ensures Granted(k, b, ops) <= Max(0.0, Level(k, b, s) + Earned(k, t - s))
    decreases |ops|
  {
    hide Earned, Level, Attempt, Oversized;
    if ops != [] {
      var op, b' := ops[0], Step(k, b, ops[0]);
      if op.n <= 0.0 {
        GrantedFrom(k, b, ops[1..], s, t);
      } else {
        StepInRange(k, b, op);
        GrantedFrom(k, b', ops[1..], op.now, t);
        LevelRate(k, b, s, op.now);
        StepLevel(k, b, op);
        EarnedAdds(k, s, op.now, t);
      }
    }
  }

  /** A locked region takes from the level what it grants, and a grant leaves no debt. */
  lemma StepLevel(k: Limits, b: Bucket, op: Op)
    requires Positive(k) && InRange(k, b) && op.n > 0.0 && UpTo(b, op.now)
    ensures var b' := Step(k, b, op);
      && Level(k, b', op.now) == b'.tokens <= Level(k, b, op.now) - Grant(k, b, op)
      && (Grant(k, b, op) > 0.0 ==> b'.tokens >= 0.0)
  {}

  lemma MonotoneParts(a: seq<Op>, b: seq<Op>)
    requires Monotone(a + b)
    ensures Monotone(a) && Monotone(b)
  {
    forall i, j | 0 <= i < j < |a| ensures a[i].now <= a[j].now {
      assert (a + b)[i].now <= (a + b)[j].now;
    }
    forall i, j | 0 <= i < j < |b| ensures b[i].now <= b[j].now {
      assert (a + b)[|a| + i].now <= (a + b)[|a| + j].now;
    }
  }

  /** In any history, and for any stretch of it whose clock readings lie in [s, t], the requests
      that fit the bucket are granted at most max + rate * (t - s) tokens, however many
      oversized calls are interleaved. */
  lemma RateBound(k: Limits, start: Bucket, before: seq<Op>, during: seq<Op>, s: real, t: real)
    requires Positive(k) && InRange(k, start) && s <= t && Monotone(before + during)
    requires forall i :: 0 <= i < |before| ==> before[i].now <= s
    requires forall i :: 0 <= i < |during| ==> s <= during[i].now <= t
    requires before != [] ==> UpTo(start, before[0].now)
    requires UpTo(start, s)
    ensures Granted(k, Replay(k, start, before), during) <= k.max + Earned(k, t - s)
  {
    hide Level, Granted, Replay, Earned;
    MonotoneParts(before, during);
    hide Monotone;
    BalanceBounded(k, start, before);
    ReplayUpTo(k, start, before, s);
    var b := Replay(k, start, before);
    GrantedFrom(k, b, during, s, t);
    LevelGrows(k, b, s);
    EarnedAdds(k, s, s, t);
  }

  lemma {:induction false} ReplayUpTo(k: Limits, b: Bucket, ops: seq<Op>, s: real)
    requires Positive(k) && InRange(k, b) && Monotone(ops) && UpTo(b, s)
    requires ops != [] ==> UpTo(b, ops[0].now)
    requires forall i :: 0 <= i < |ops| ==> ops[i].now <= s
    ensures UpTo(Replay(k, b, ops), s)
    decreases |ops|
  {
    if ops != [] {
      StepInRange(k, b, ops[0]);
      ReplayUpTo(k, Step(k, b, ops[0]), ops[1..], s);
    }
  }

  /** Tokens through by time t, of requests of any size: an oversized one is through after its wait. */
  function Through(k: Limits, b: Bucket, ops: seq<Op>, t: real): real
    requires Positive(k)
    decreases |ops|
  {
    if ops == [] then 0.0
    else
      var op := ops[0];
      var through := if op.n <= k.max then Grant(k, b, op)
                     else if op.now + Oversized(k, b, op.n, op.now).1 <= t then op.n else 0.0;
      through + Through(k, Step(k, b, op), ops[1..], t)
  }

  /** Requests of n tokens, at times from 0 to t. */
  predicate AllOf(ops: seq<Op>, n: real, t: real) {
    Monotone(ops) && forall i :: 0 <= i < |ops| ==> ops[i].n == n && 0.0 <= ops[i].now <= t
  }

  /** A fresh bucket lets through at most max + rate * t of such requests by any time t. */
  ghost predicate RateBounded(k: Limits, n: real)
    requires Positive(k)
  {
    forall ops, t :: 0.0 <= t && AllOf(ops, n, t) ==> Through(k, Bucket(k.max, None), ops, t) <= k.max + Earned(k, t)
  }

  /** The rate bound holds for a request size exactly when it fits the bucket. */
  lemma RateBoundExact(k: Limits, n: real)
    requires Positive(k) && n > 0.0
    ensures RateBounded(k, n) <==> n <= k.max
  {
    hide Through, Earned, Level, Oversized, WaitFor;
    if n <= k.max {
      forall ops, t | 0.0 <= t && AllOf(ops, n, t)
        ensures Through(k, Bucket(k.max, None), ops, t) <= k.max + Earned(k, t)
      {
        FittingBounded(k, ops, n, t);
      }
    } else {
      var ops := [Op(n, 0.0), Op(n, 0.0), Op(n, 0.0)];
      OversizedEscapesBound(k, n);
      assert AllOf(ops, n, LastWait(k, n));
    }
  }

  lemma FittingBounded(k: Limits, ops: seq<Op>, n: real, t: real)
    requires Positive(k) && 0.0 <= t && AllOf(ops, n, t) && n <= k.max
    ensures Through(k, Bucket(k.max, None), ops, t) <= k.max + Earned(k, t)
  {
    hide Through, Earned, Granted, Level;
    var full := Bucket(k.max, None);
    ThroughGranted(k, full, ops, n, t);
    GrantedFrom(k, full, ops, 0.0, t);
    LevelGrows(k, full, 0.0);
    EarnedAdds(k, 0.0, 0.0, t);
  }

  lemma {:induction false} ThroughGranted(k: Limits, b: Bucket, ops: seq<Op>, n: real, t: real)
    requires Positive(k) && AllOf(ops, n, t) && n <= k.max
    ensures Through(k, b, ops, t) == Granted(k, b, ops)
    decreases |ops|
  {
    if ops != [] {
      ThroughGranted(k, Step(k, b, ops[0]), ops[1..], n, t);
    }
  }

  /** The wait of an oversized request that finds the largest debt. */
  function LastWait(k: Limits, n: real): real
    requires Positive(k)
  {
    WaitFor(k, n + k.max)
  }

  /** Because debt is cut off at -max, three oversized requests to a full bucket are all through
      after the wait of the last, whatever their size, and exceed what the bound would allow. */
  lemma OversizedEscapesBound(k: Limits, n: real)
    requires Positive(k) && n > k.max
    ensures var t := LastWait(k, n);
      && 0.0 <= t && Through(k, Bucket(k.max, None), [Op(n, 0.0), Op(n, 0.0), Op(n, 0.0)], t) == 3.0 * n
      && 3.0 * n > k.max + Earned(k, t)
  {
    hide WaitFor, Earned, Through;
    var b0 := Bucket(k.max, None);
    var b1 := Oversized(k, b0, n, 0.0).0;
    var b2 := Oversized(k, b1, n, 0.0).0;
    var b3 := Oversized(k, b2, n, 0.0).0;
    var (op, t) := (Op(n, 0.0), LastWait(k, n));
    assert b2.tokens == -k.max;
    WaitGrows(k, n - k.max, n + k.max);
    WaitGrows(k, n - b1.tokens, n + k.max);
    WaitEarns(k, n + k.max);
    ThroughFirst(k, b0, [op, op, op], t);
    ThroughFirst(k, b1, [op, op], t);
    ThroughFirst(k, b2, [op], t);
    ThroughNone(k, b3, t);
    assert [op, op, op][1..] == [op, op] && [op, op][1..] == [op] && [op][1..] == [];
  }

  lemma ThroughFirst(k: Limits, b: Bucket, ops: seq<Op>, t: real)
    requires Positive(k) && ops != [] && ops[0].n > k.max && ops[0].now + Oversized(k, b, ops[0].n, ops[0].now).1 <= t
    ensures Through(k, b, ops, t) == ops[0].n + Through(k, Oversized(k, b, ops[0].n, ops[0].now).0, ops[1..], t)
  {}

  lemma ThroughNone(k: Limits, b: Bucket, t: real)
    requires Positive(k)
    ensures Through(k, b, [], t) == 0.0
  {}

  /** Waiting for what is missing earns it. */
  lemma WaitEarns(k: Limits, missing: real)
    requires Positive(k)
    ensures Earned(k, WaitFor(k, missing)) == missing
  {}

  // ----- one caller on its own

  class Clock {
    var now: real

    constructor ()
    {
      now := 0.0;
    }

    /** Time passes between any two readings. */
    method Read() returns (t: real)
      modifies this
      ensures now == t >= old(now)
    {
      t := now;
    }

    method Sleep(seconds: real)
      modifies this
      ensures now >= old(now) + seconds
    {
      now := now + seconds;
    }
  }

  class SyncTokenBucket {
    const limits: Limits
    var bucket: Bucket

    ghost predicate Valid()
      reads this
    {
      Positive(limits) && InRange(limits, bucket)
    }

    constructor (rate: real, maxTokens: Option<real>)
      requires rate > 0.0 && (maxTokens.Some? ==> maxTokens.value >= 0.0)
      ensures Valid() && bucket == Bucket(limits.max, None)
      ensures limits == Limits(rate, if maxTokens.Some? && maxTokens.value != 0.0 then maxTokens.value else rate)
    {
      var max := if maxTokens.Some? && maxTokens.value != 0.0 then maxTokens.value else rate;
      limits := Limits(rate, max);
      bucket := Bucket(max, None);
    }

    /** The oversized path of `acquire`: one update, at the clock reading it leaves in the bucket,
        then one sleep for exactly what is missing. */
    method LetThrough(n: real, clock: Clock) returns (waited: real)
      requires Valid() && UpTo(bucket, clock.now) && n > limits.max
      modifies this, clock
      ensures Valid() && UpTo(bucket, clock.now)
      ensures bucket.last.Some? && old(clock.now) <= bucket.last.value && clock.now >= bucket.last.value + waited
      ensures var level := Level(limits, old(bucket), bucket.last.value);
        waited == WaitFor(limits, n - level) > 0.0 && bucket.tokens == Max(-limits.max, level - n)
      ensures waited <= WaitFor(limits, n - old(bucket.tokens))
    {
      hide Level, WaitFor;
      var now := clock.Read();
      LevelGrows(limits, bucket, now);
      WaitGrows(limits, n - Level(limits, bucket, now), n - bucket.tokens);
      var (b, wait) := Oversized(limits, bucket, n, now);
      bucket, waited := b, wait;
      if wait > 0.0 {
        clock.Sleep(wait);
      }
    }

    /** `acquire` with nobody else at the bucket. A request that fits sleeps only if the first
        clock reading finds too little, once, for exactly what is missing then; it is granted
        from the level at the last reading, as if nothing had been updated in between. */
    method Acquire(n: real, clock: Clock) returns (waited: real, sleeps: nat, ghost first: real)
      requires Valid() && UpTo(bucket, clock.now)
      modifies this, clock
      ensures Valid() && UpTo(bucket, clock.now)
      ensures n <= 0.0 ==> waited == 0.0 && sleeps == 0 && bucket == old(bucket)
      ensures n > 0.0 ==> bucket.last.Some? && old(clock.now) <= first <= bucket.last.value
      ensures n > 0.0 ==>
        var level := Level(limits, old(bucket), first);
        waited == (if level >= n then 0.0 else WaitFor(limits, n - level)) && sleeps == if level >= n then 0 else 1
      ensures clock.now >= old(clock.now) + waited
      ensures 0.0 < n <= limits.max ==>
        bucket.tokens == Level(limits, Anchored(old(bucket), first), bucket.last.value) - n >= 0.0
      ensures 0.0 < n <= limits.max ==>
        bucket.last.value >= first + waited && (sleeps == 0 ==> bucket.last.value == first)
      ensures n > limits.max ==>
        bucket.last.value == first && bucket.tokens == Max(-limits.max, Level(limits, old(bucket), first) - n)
    {
      hide Level, WaitFor;
      waited, sleeps, first := 0.0, 0, clock.now;
      if n <= 0.0 {
        return;
      }
      if n > limits.max {
        waited := LetThrough(n, clock);
        sleeps := 1;
        first := bucket.last.value;
        LevelGrows(limits, old(bucket), first);
        return;
      }
      while true
        invariant Valid() && UpTo(bucket, clock.now) && clock.now >= old(clock.now) + waited
        invariant sleeps == 0 ==> bucket == old(bucket) && waited == 0.0 && first == old(clock.now)
        invariant sleeps == 1 ==>
          && old(clock.now) <= first && bucket == Bucket(Level(limits, old(bucket), first), Some(first))
          && bucket.tokens < n && waited == WaitFor(limits, n - bucket.tokens) && clock.now >= first + waited
        invariant sleeps <= 1 && UpTo(old(bucket), first)
        decreases 1 - sleeps
      {
        var now := clock.Read();
        LevelGrows(limits, bucket, now);
        if sleeps == 0 {
          first := now;
          LevelTwice(limits, bucket, now, now);
        } else {
          SleptEnough(limits, bucket, n, now);
          WaitGrows(limits, 0.0, n - bucket.tokens);
          LevelTwice(limits, old(bucket), first, now);
        }
        LevelNow(limits, Level(limits, bucket, now), now);
        var (granted, b, wait) := Attempt(limits, bucket, n, now);
        bucket := b;
        if granted {
          return;
        }
        WaitGrows(limits, 0.0, n - b.tokens);
        waited := waited + wait;
        clock.Sleep(wait);
        sleeps := sleeps + 1;
      }
    }
  }

  /** The bucket as time starts to count for it: a new one counts from its first reading on. */
  function Anchored(b: Bucket, first: real): Bucket {
    if b.last.Some? then b else Bucket(b.tokens, Some(first))
  }

  /** An update in between changes nothing about the level later on. */
  lemma LevelTwice(k: Limits, b: Bucket, first: real, now: real)
    requires Positive(k) && UpTo(b, first) && first <= now && b.tokens <= k.max
    ensures Level(k, Bucket(Level(k, b, first), Some(first)), now) == Level(k, Anchored(b, first), now)
  {
    EarnedAdds(k, first, first, now);
    assert (now - first) * k.rate == Earned(k, now - first);
    if b.last.Some? {
      var last := b.last.value;
      EarnedAdds(k, last, first, now);
      assert (now - last) * k.rate == Earned(k, now - last) && (first - last) * k.rate == Earned(k, first - last);
    }
    hide Earned;
  }

  lemma LevelNow(k: Limits, tokens: real, now: real)
    requires tokens <= k.max
    ensures Level(k, Bucket(tokens, Some(now)), now) == tokens
  {}

  /** Missing more means waiting longer. */
  lemma WaitGrows(k: Limits, less: real, more: real)
    requires Positive(k) && less <= more
    ensures WaitFor(k, less) <= WaitFor(k, more)
    ensures less > 0.0 ==> WaitFor(k, less) > 0.0
    ensures WaitFor(k, 0.0) == 0.0
  {}

  /** After sleeping for what was missing, the request is covered. */
  lemma SleptEnough(k: Limits, b: Bucket, n: real, now: real)
    requires Positive(k) && b.last.Some? && n <= k.max && b.tokens < n
    requires now >= b.last.value + WaitFor(k, n - b.tokens)
    ensures Level(k, b, now) >= n
  {}
}
