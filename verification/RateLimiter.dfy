/** The per-key token bucket that guards the authentication routes
    (internal/httpapi/ratelimit.go).  Instants are nanoseconds of the monotonic
    clock, as in the source; token counts are exact reals. */
module RateLimiter {
  import opened Wrappers

  type Key = string

  const SECOND: int := 1_000_000_000
  /** Buckets idle for longer than this are dropped by the background sweep. */
  const IDLE_LIMIT: int := 1800 * SECOND

  datatype Params = Params(capacity: int, refillRate: real) {
    ghost predicate Valid() { 0 <= capacity && refillRate > 0.0 }

    /** Tokens that drip in between two instants. */
    function Drip(from: int, to: int): real {
      (to - from) as real / SECOND as real * refillRate
    }

    /** An idle bucket is full again before the sweep may drop it. */
    ghost predicate SweepSafe() { refillRate * 1800.0 >= capacity as real }
  }

  /** The parameters mounted on the login and signup routes: ten attempts, then
      one every five seconds. */
  const MOUNTED: Params := Params(10, 0.2)

  datatype Bucket = Bucket(tokens: real, lastSeen: int)
  datatype Verdict = Verdict(ok: bool, wait: int)

  type Buckets = map<Key, Bucket>

  function Lookup(m: Buckets, key: Key): Option<Bucket> {
    if key in m then Some(m[key]) else None
  }

  /** Tokens on hand at `now`: a new bucket is full, an old one has refilled up to capacity. */
  function OnHand(p: Params, b: Option<Bucket>, now: int): real {
    match b
    case None => p.capacity as real
    case Some(b) =>
      var t := b.tokens + p.Drip(b.lastSeen, now);
      if t > p.capacity as real then p.capacity as real else t
  }

  /** The delay handed to a refused caller: truncated to whole nanoseconds, at least one second. */
  function WaitFor(p: Params, tokens: real): int
    requires p.refillRate != 0.0
  {
    var wait := ((1.0 - tokens) / p.refillRate * SECOND as real).Floor;
    if wait < SECOND then SECOND else wait
  }

  function Take(p: Params, b: Option<Bucket>, now: int): (Bucket, Verdict)
    requires p.refillRate != 0.0
  {
    var t := OnHand(p, b, now);
    if t >= 1.0 then (Bucket(t - 1.0, now), Verdict(true, 0))
    else (Bucket(t, now), Verdict(false, WaitFor(p, t)))
  }

  predicate Idle(b: Bucket, now: int) { now - b.lastSeen > IDLE_LIMIT }

  function Swept(m: Buckets, now: int): Buckets {
    map k | k in m && !Idle(m[k], now) :: m[k]
  }

  /** The mutable limiter.  One mutex guards every call, so each method is one atomic step. */
  class Limiter {
    const p: Params
    var buckets: Buckets

    constructor (capacity: int, refillPerSecond: real)
      requires 0 <= capacity && refillPerSecond > 0.0
      ensures p == Params(capacity, refillPerSecond) && p.Valid() && buckets == map[]
    {
      p := Params(capacity, refillPerSecond);
      buckets := map[];
    }

    method Allow(key: Key, now: int) returns (ok: bool, wait: int)
      requires p.Valid()
      modifies this`buckets
      ensures var (b, v) := Take(p, Lookup(old(buckets), key), now);
              buckets == old(buckets)[key := b] && v == Verdict(ok, wait)
    {
      var b: Bucket;
      if key !in buckets {
        b := Bucket(p.capacity as real, now);
      } else {
        b := buckets[key];
        var elapsed := (now - b.lastSeen) as real / SECOND as real;
        b := b.(tokens := b.tokens + elapsed * p.refillRate);
        if b.tokens > p.capacity as real {
          b := b.(tokens := p.capacity as real);
        }
        b := b.(lastSeen := now);
      }
      assert b == Bucket(OnHand(p, Lookup(buckets, key), now), now);
      if b.tokens >= 1.0 {
        buckets := buckets[key := b.(tokens := b.tokens - 1.0)];
        return true, 0;
      }
      buckets := buckets[key := b];
      wait := ((1.0 - b.tokens) / p.refillRate * SECOND as real).Floor;
      if wait < SECOND {
        wait := SECOND;
      }
      assert wait == WaitFor(p, b.tokens);
      ok := false;
    }

    /** One tick of the background sweep: visits the keys in an arbitrary order. */
    method Sweep(now: int)
      modifies this`buckets
      ensures buckets == Swept(old(buckets), now)
    {
      var todo := buckets.Keys;
      while todo != {}
        invariant todo <= old(buckets).Keys
        invariant buckets == map k | k in old(buckets) && (k in todo || !Idle(old(buckets)[k], now)) :: old(buckets)[k]
        decreases todo
      {
        var k :| k in todo;
        if now - buckets[k].lastSeen > IDLE_LIMIT {
          buckets := buckets - {k};
        }
        todo := todo - {k};
      }
    }
  }

  // ---- whole runs -------------------------------------------------------------

  datatype Op = Call(key: Key, at: int) | Collect(at: int)

  function Apply(p: Params, m: Buckets, op: Op): Buckets
    requires p.refillRate != 0.0
  {
    match op
    case Call(k, now) => m[k := Take(p, Lookup(m, k), now).0]
    case Collect(now) => Swept(m, now)
  }

  /** What the callers of a run are told, in order. */
  function Verdicts(p: Params, m: Buckets, ops: seq<Op>): seq<Verdict>
    requires p.refillRate != 0.0
    decreases |ops|
  {
    if ops == [] then []
    else
      (if ops[0].Call? then [Take(p, Lookup(m, ops[0].key), ops[0].at).1] else [])
      + Verdicts(p, Apply(p, m, ops[0]), ops[1..])
  }

  function WithoutSweeps(ops: seq<Op>): seq<Op> {
    if ops == [] then []
    else (if ops[0].Call? then [ops[0]] else []) + WithoutSweeps(ops[1..])
  }

  /** The clock never runs backwards. */
  ghost predicate Monotone(from: int, ops: seq<Op>)
    decreases |ops|
  {
    ops != [] ==> from <= ops[0].at && Monotone(ops[0].at, ops[1..])
  }

  ghost predicate Sound(p: Params, m: Buckets, now: int) {
    forall k :: k in m ==> 0.0 <= m[k].tokens <= p.capacity as real && m[k].lastSeen <= now
  }

  lemma DripAdds(p: Params, a: int, b: int, c: int)
    requires p.Valid() && a <= b <= c
    ensures p.Drip(a, c) == p.Drip(a, b) + p.Drip(b, c)
    ensures p.Drip(b, c) >= 0.0
  {
    var x, y := (b - a) as real / SECOND as real, (c - b) as real / SECOND as real;
    assert (c - a) as real == (b - a) as real + (c - b) as real;
    assert (x + y) * p.refillRate == x * p.refillRate + y * p.refillRate;
    assert y >= 0.0;
  }

  lemma StepKeepsSound(p: Params, m: Buckets, from: int, op: Op)
    requires p.Valid() && Sound(p, m, from) && from <= op.at
    ensures Sound(p, Apply(p, m, op), op.at)
  {
    if op.Call? && op.key in m {
      DripAdds(p, m[op.key].lastSeen, from, op.at);
      DripAdds(p, m[op.key].lastSeen, m[op.key].lastSeen, from);
    }
  }

  /** `swept` is `kept` minus buckets that would be full by `now`. */
  ghost predicate SameUpToFull(p: Params, swept: Buckets, kept: Buckets, now: int) {
    && (forall k :: k in swept ==> k in kept && kept[k] == swept[k])
    && (forall k :: k in kept && k !in swept ==> OnHand(p, Some(kept[k]), now) == p.capacity as real)
  }

  lemma FullStaysFull(p: Params, b: Bucket, now: int, later: int)
    requires p.Valid() && b.lastSeen <= now <= later
    requires OnHand(p, Some(b), now) == p.capacity as real
    ensures OnHand(p, Some(b), later) == p.capacity as real
  {
    DripAdds(p, b.lastSeen, now, later);
  }

  lemma Longer(x: real, y: real, rate: real)
    requires x <= y && rate >= 0.0
    ensures rate * x <= y * rate
  {
  }

  lemma IdleDrips(p: Params, b: Bucket, now: int)
    requires p.Valid() && p.SweepSafe() && Idle(b, now)
    ensures p.Drip(b.lastSeen, now) >= p.capacity as real
  {
    var seconds := (now - b.lastSeen) as real / SECOND as real;
    assert seconds >= 1800.0;
    Longer(1800.0, seconds, p.refillRate);
    assert p.Drip(b.lastSeen, now) == seconds * p.refillRate;
  }

  lemma IdleIsFull(p: Params, b: Bucket, now: int)
    requires p.Valid() && p.SweepSafe() && b.tokens >= 0.0 && Idle(b, now)
    ensures OnHand(p, Some(b), now) == p.capacity as real
  {
    hide Params.Drip;
    IdleDrips(p, b, now);
  }

  /** The background sweep cannot be noticed: with parameters such as the mounted
      ones, every caller of every run gets the answer a limiter that never drops
      a bucket would give. */
  lemma {:induction false} SweepIsInvisible(p: Params, swept: Buckets, kept: Buckets, from: int, ops: seq<Op>)
    requires p.Valid() && p.SweepSafe()
    requires Sound(p, kept, from) && SameUpToFull(p, swept, kept, from) && Monotone(from, ops)
    ensures Verdicts(p, swept, ops) == Verdicts(p, kept, WithoutSweeps(ops))
    decreases |ops|
  {
    if ops != [] {
      var op := ops[0];
      forall k | k in kept && k !in swept
        ensures OnHand(p, Some(kept[k]), op.at) == p.capacity as real
      {
        FullStaysFull(p, kept[k], from, op.at);
      }
      match op
      case Call(k, now) =>
        assert Take(p, Lookup(swept, k), now) == Take(p, Lookup(kept, k), now);
        StepKeepsSound(p, kept, from, op);
        SweepIsInvisible(p, Apply(p, swept, op), Apply(p, kept, op), now, ops[1..]);
        var rest := WithoutSweeps(ops[1..]);
        assert WithoutSweeps(ops) == [op] + rest && ([op] + rest)[1..] == rest;
      case Collect(now) =>
        forall k | k in swept && Idle(swept[k], now)
          ensures OnHand(p, Some(kept[k]), now) == p.capacity as real
        {
          IdleIsFull(p, kept[k], now);
        }
        SweepIsInvisible(p, Apply(p, swept, op), kept, now, ops[1..]);
        assert WithoutSweeps(ops) == WithoutSweeps(ops[1..]);
    }
  }

  lemma MountedSweepIsInvisible(ops: seq<Op>, from: int)
    requires Monotone(from, ops)
    ensures Verdicts(MOUNTED, map[], ops) == Verdicts(MOUNTED, map[], WithoutSweeps(ops))
  {
    SweepIsInvisible(MOUNTED, map[], map[], from, ops);
  }

  // ---- the admission bound ----------------------------------------------------

  /** How many calls of one key a run admits. */
  function Admitted(p: Params, m: Buckets, ops: seq<Op>, key: Key): nat
    requires p.refillRate != 0.0
    decreases |ops|
  {
    if ops == [] then 0
    else
      (if ops[0].Call? && ops[0].key == key && Take(p, Lookup(m, key), ops[0].at).1.ok then 1 else 0)
      + Admitted(p, Apply(p, m, ops[0]), ops[1..], key)
  }

  /** Potential argument: tokens on hand pay for every admission. */
  lemma {:induction false} AdmissionsArePaidFor(p: Params, m: Buckets, from: int, ops: seq<Op>, key: Key)
    requires p.Valid() && Sound(p, m, from) && Monotone(from, ops) && ops != []
    requires p.SweepSafe() || (forall op :: op in ops ==> op.Call?)
    ensures Admitted(p, m, ops, key) as real
            <= OnHand(p, Lookup(m, key), from) + p.Drip(from, ops[|ops|-1].at)
    decreases |ops|
  {
    var op := ops[0];
    var next := Apply(p, m, op);
    StepKeepsSound(p, m, from, op);
    OnHandGrowsSlowly(p, Lookup(m, key), from, op.at);
    if op.Collect? && key in m && Idle(m[key], op.at) {
      IdleIsFull(p, m[key], op.at);
    }
    var spent := if op.Call? && op.key == key && Take(p, Lookup(m, key), op.at).1.ok then 1.0 else 0.0;
    assert OnHand(p, Lookup(next, key), op.at) <= OnHand(p, Lookup(m, key), op.at) - spent;
    LastIsLate(op.at, ops[1..]);
    if |ops| > 1 {
      AdmissionsArePaidFor(p, next, op.at, ops[1..], key);
      assert ops[1..][|ops[1..]|-1] == ops[|ops|-1];
      DripAdds(p, from, op.at, ops[|ops|-1].at);
    } else {
      DripAdds(p, from, op.at, op.at);
      assert ops[1..] == [];
      TakeLeavesNoDebt(p, Lookup(m, key), op.at, from);
    }
  }

  lemma TakeLeavesNoDebt(p: Params, b: Option<Bucket>, now: int, from: int)
    requires p.Valid() && from <= now
    requires b.Some? ==> b.value.tokens >= 0.0 && b.value.lastSeen <= from
    ensures OnHand(p, b, now) >= 0.0
  {
    if b.Some? {
      DripAdds(p, b.value.lastSeen, from, now);
      DripAdds(p, b.value.lastSeen, b.value.lastSeen, from);
    }
  }

  lemma OnHandGrowsSlowly(p: Params, b: Option<Bucket>, from: int, now: int)
    requires p.Valid() && from <= now && (b.Some? ==> b.value.lastSeen <= from)
    ensures OnHand(p, b, now) <= OnHand(p, b, from) + p.Drip(from, now)
  {
    DripAdds(p, from, from, now);
    if b.Some? {
      DripAdds(p, b.value.lastSeen, from, now);
    }
  }

  lemma {:induction false} LastIsLate(from: int, ops: seq<Op>)
    requires Monotone(from, ops)
    ensures ops != [] ==> from <= ops[|ops|-1].at
    decreases |ops|
  {
    if |ops| > 1 {
      LastIsLate(ops[0].at, ops[1..]);
      assert ops[1..][|ops[1..]|-1] == ops[|ops|-1];
    }
  }

  /** Whatever happened before, between the first and the last of any calls one
      key is admitted at most capacity + rate * elapsed times. */
  lemma AdmissionBound(p: Params, m: Buckets, from: int, ops: seq<Op>, key: Key)
    requires p.Valid() && Sound(p, m, from) && Monotone(from, ops) && ops != []
    requires p.SweepSafe() || (forall op :: op in ops ==> op.Call?)
    ensures Admitted(p, m, ops, key) as real
            <= p.capacity as real + p.Drip(ops[0].at, ops[|ops|-1].at)
  {
    forall k | k in m ensures m[k].lastSeen <= ops[0].at { }
    assert Sound(p, m, ops[0].at);
    assert Monotone(ops[0].at, ops);
    AdmissionsArePaidFor(p, m, ops[0].at, ops, key);
  }

  lemma {:induction false} RunKeepsSound(p: Params, m: Buckets, from: int, ops: seq<Op>) returns (now: int)
    requires p.Valid() && Sound(p, m, from) && Monotone(from, ops)
    ensures Sound(p, Final(p, m, ops), now)
    ensures now == if ops == [] then from else ops[|ops|-1].at
    decreases |ops|
  {
    now := from;
    if ops != [] {
      StepKeepsSound(p, m, from, ops[0]);
      now := RunKeepsSound(p, Apply(p, m, ops[0]), ops[0].at, ops[1..]);
      assert |ops| > 1 ==> ops[1..][|ops[1..]|-1] == ops[|ops|-1];
    }
  }

  /** The same inside any run of a fresh limiter: `before` is its history, `window`
      the calls under observation. */
  lemma WindowBound(p: Params, from: int, before: seq<Op>, window: seq<Op>, key: Key)
    requires p.Valid() && Monotone(from, before) && window != []
    requires Monotone(if before == [] then from else before[|before|-1].at, window)
    requires p.SweepSafe() || (forall op :: op in window ==> op.Call?)
    ensures Admitted(p, Final(p, map[], before), window, key) as real
            <= p.capacity as real + p.Drip(window[0].at, window[|window|-1].at)
  {
    var now := RunKeepsSound(p, map[], from, before);
    AdmissionBound(p, Final(p, map[], before), now, window, key);
  }

  // ---- the retry hint ----------------------------------------------------------

  /** A refused caller who waits exactly as told and makes no other call is
      admitted if and only if the bucket can hold a token at all and the exact
      delay was not cut by the truncation to nanoseconds. */
  lemma RetryAdmittedIff(p: Params, b: Option<Bucket>, now: int)
    requires p.Valid()
    requires !Take(p, b, now).1.ok
    ensures var (after, v) := Take(p, b, now);
            var exact := (1.0 - OnHand(p, b, now)) / p.refillRate * SECOND as real;
            Take(p, Some(after), now + v.wait).1.ok
            <==> p.capacity >= 1 && (exact <= SECOND as real || exact.Floor as real == exact)
  {
    var (after, v) := Take(p, b, now);
    var t := OnHand(p, b, now);
    var exact := (1.0 - t) / p.refillRate * SECOND as real;
    var dripped := p.Drip(now, now + v.wait);
    NeededDrip(p, t, now, v.wait);
    assert after.tokens == t;
    assert t + dripped >= 1.0 <==> v.wait as real >= exact;
  }

  lemma NeededDrip(p: Params, t: real, now: int, wait: int)
    requires p.Valid()
    ensures var exact := (1.0 - t) / p.refillRate * SECOND as real;
            t + p.Drip(now, now + wait) >= 1.0 <==> wait as real >= exact
  {
    var q := (1.0 - t) / p.refillRate;
    assert q * p.refillRate == 1.0 - t;
    var s := wait as real / SECOND as real;
    assert (now + wait - now) as real == wait as real;
    assert p.Drip(now, now + wait) == s * p.refillRate;
    if s >= q {
      assert s * p.refillRate >= q * p.refillRate;
    } else {
      assert s * p.refillRate < q * p.refillRate;
    }
  }

  /** A caller of a limiter whose exact delay is a fraction of a nanosecond is
      told to come back too early. */
  lemma RetryCanBeRefused()
    ensures var p := Params(1, 0.3);
            var b := Bucket(0.0, 0);
            !Take(p, Some(b), 0).1.ok && !Take(p, Some(Take(p, Some(b), 0).0), Take(p, Some(b), 0).1.wait).1.ok
  {
    var p, b := Params(1, 0.3), Bucket(0.0, 0);
    var exact := (1.0 - OnHand(p, Some(b), 0)) / p.refillRate * SECOND as real;
    assert OnHand(p, Some(b), 0) == 0.0;
    assert 3333333333.0 < exact < 3333333334.0;
    assert exact.Floor == 3333333333;
    RetryAdmittedIff(p, Some(b), 0);
  }

  /** With the mounted rate one nanosecond refills 1/5,000,000,000 token, so token
      counts stay whole multiples of that grain. */
  ghost predicate Grained(m: Buckets) {
    forall k :: k in m ==> GrainedTokens(m[k].tokens)
  }

  ghost predicate GrainedTokens(t: real) {
    (t * 5_000_000_000.0).Floor as real == t * 5_000_000_000.0
  }

  lemma Grains(t: real, n: int)
    requires t * 5_000_000_000.0 == n as real
    ensures GrainedTokens(t)
  {
  }

  lemma DripIsGrains(from: int, to: int)
    ensures MOUNTED.Drip(from, to) * 5_000_000_000.0 == (to - from) as real
  {
    var n := (to - from) as real;
    assert n / SECOND as real * 0.2 * 5_000_000_000.0 == n;
  }

  lemma OnHandGrained(b: Option<Bucket>, now: int)
    requires b.Some? ==> GrainedTokens(b.value.tokens)
    ensures GrainedTokens(OnHand(MOUNTED, b, now))
  {
    hide GrainedTokens;
    Grains(10.0, 50_000_000_000);
    if b.Some? {
      RefilledGrained(b.value.tokens, b.value.lastSeen, now);
    }
  }

  lemma RefilledGrained(tokens: real, from: int, now: int)
    requires GrainedTokens(tokens)
    ensures GrainedTokens(tokens + MOUNTED.Drip(from, now))
  {
    var n, drip := (tokens * 5_000_000_000.0).Floor, MOUNTED.Drip(from, now);
    DripIsGrains(from, now);
    assert (tokens + drip) * 5_000_000_000.0 == tokens * 5_000_000_000.0 + drip * 5_000_000_000.0;
    Grains(tokens + drip, n + (now - from));
  }

  lemma OneLess(t: real)
    requires GrainedTokens(t)
    ensures GrainedTokens(t - 1.0)
  {
    var n := (t * 5_000_000_000.0).Floor;
    assert (t - 1.0) * 5_000_000_000.0 == t * 5_000_000_000.0 - 5_000_000_000.0;
    Grains(t - 1.0, n - 5_000_000_000);
  }

  lemma CallKeepsGrain(b: Option<Bucket>, now: int)
    requires b.Some? ==> GrainedTokens(b.value.tokens)
    ensures GrainedTokens(Take(MOUNTED, b, now).0.tokens)
  {
    hide GrainedTokens, OnHand, WaitFor;
    OnHandGrained(b, now);
    var t := OnHand(MOUNTED, b, now);
    OneLess(t);
  }

  lemma {:induction false} RunKeepsGrain(m: Buckets, ops: seq<Op>) returns (after: Buckets)
    requires Grained(m)
    ensures Grained(after) && after == Final(MOUNTED, m, ops)
    decreases |ops|
  {
    hide GrainedTokens, Take;
    if ops == [] {
      after := m;
    } else {
      if ops[0].Call? {
        CallKeepsGrain(Lookup(m, ops[0].key), ops[0].at);
      }
      after := RunKeepsGrain(Apply(MOUNTED, m, ops[0]), ops[1..]);
    }
  }

  function Final(p: Params, m: Buckets, ops: seq<Op>): Buckets
    requires p.refillRate != 0.0
    decreases |ops|
  {
    if ops == [] then m else Final(p, Apply(p, m, ops[0]), ops[1..])
  }

  lemma MountedDelayIsWhole(t: real)
    requires GrainedTokens(t)
    ensures var exact := (1.0 - t) / MOUNTED.refillRate * SECOND as real;
            exact.Floor as real == exact
  {
    var grains := (t * 5_000_000_000.0).Floor;
    assert (1.0 - t) / MOUNTED.refillRate == (1.0 - t) * 5.0;
    assert (1.0 - t) * 5.0 * 1_000_000_000.0 == (5_000_000_000 - grains) as real;
  }

  /** On the mounted routes the hint is always right: after any run whatsoever, a
      refused caller who waits as told and is not seen in between gets in. */
  lemma MountedRetryIsAdmitted(ops: seq<Op>, key: Key, now: int)
    ensures var m := Final(MOUNTED, map[], ops);
            var (after, v) := Take(MOUNTED, Lookup(m, key), now);
            !v.ok ==> Take(MOUNTED, Some(after), now + v.wait).1.ok
  {
    var m := RunKeepsGrain(map[], ops);
    var b := Lookup(m, key);
    if !Take(MOUNTED, b, now).1.ok {
      OnHandGrained(b, now);
      MountedDelayIsWhole(OnHand(MOUNTED, b, now));
      RetryAdmittedIff(MOUNTED, b, now);
    }
  }

  /** The Retry-After header drops the fraction of a second. */
  function HeaderSeconds(wait: int): int {
    if wait / SECOND < 1 then 1 else wait / SECOND
  }

  lemma WholeSeconds(nanos: int, x: real)
    requires nanos as real == x * 1_000_000_000.0
    ensures nanos / SECOND == x.Floor
  {
    var f := x.Floor;
    assert f as real * 1_000_000_000.0 <= nanos as real < (f + 1) as real * 1_000_000_000.0;
    assert f * SECOND <= nanos < (f + 1) * SECOND;
  }

  lemma MountedDelay(t: real)
    ensures (1.0 - t) / MOUNTED.refillRate * SECOND as real == (5.0 - 5.0 * t) * 1_000_000_000.0
  {
    assert (1.0 - t) / MOUNTED.refillRate == 5.0 - 5.0 * t;
  }

  /** What the header says, in terms of the tokens on hand. */
  lemma MountedHeader(t: real)
    requires GrainedTokens(t) && t < 1.0
    ensures HeaderSeconds(WaitFor(MOUNTED, t)) == if t >= 0.8 then 1 else (5.0 - 5.0 * t).Floor
  {
    hide GrainedTokens;
    MountedDelayIsWhole(t);
    MountedDelay(t);
    var exact := (1.0 - t) / MOUNTED.refillRate * SECOND as real;
    WholeSeconds(exact.Floor, 5.0 - 5.0 * t);
  }

  /** Unlike the delay itself the header under-reports: a refused client that follows it is
      admitted if and only if at least 0.8 tokens were on hand, or a whole number of fifths. */
  lemma MountedHeaderIsEnoughIff(ops: seq<Op>, key: Key, now: int)
    ensures var m := Final(MOUNTED, map[], ops);
            var t := OnHand(MOUNTED, Lookup(m, key), now);
            var (after, v) := Take(MOUNTED, Lookup(m, key), now);
            t < 1.0 ==> (Take(MOUNTED, Some(after), now + HeaderSeconds(v.wait) * SECOND).1.ok
                         <==> t >= 0.8 || (5.0 * t).Floor as real == 5.0 * t)
  {
    hide GrainedTokens, HeaderSeconds, WaitFor;
    var m := RunKeepsGrain(map[], ops);
    var b := Lookup(m, key);
    var t := OnHand(MOUNTED, b, now);
    if t < 1.0 {
      OnHandGrained(b, now);
      MountedHeader(t);
      FollowedHeader(t, now);
    }
  }

  lemma DripOfSeconds(now: int, seconds: int)
    ensures MOUNTED.Drip(now, now + seconds * SECOND) == 0.2 * seconds as real
  {
    assert (now + seconds * SECOND - now) as real == seconds as real * 1_000_000_000.0;
  }

  lemma FloorOfWhole(x: real, n: int)
    requires x == n as real
    ensures x.Floor == n
  {
  }

  lemma WholeFifths(x: real)
    ensures (5.0 - x).Floor as real == 5.0 - x <==> x.Floor as real == x
  {
    var k, j := x.Floor, (5.0 - x).Floor;
    if k as real == x {
      FloorOfWhole(5.0 - x, 5 - k);
    }
    if j as real == 5.0 - x {
      FloorOfWhole(x, 5 - j);
    }
  }

  lemma FollowedHeader(t: real, now: int)
    requires t < 1.0
    ensures var header := if t >= 0.8 then 1 else (5.0 - 5.0 * t).Floor;
            Take(MOUNTED, Some(Bucket(t, now)), now + header * SECOND).1.ok
            <==> t >= 0.8 || (5.0 * t).Floor as real == 5.0 * t
  {
    hide Params.Drip;
    var header := if t >= 0.8 then 1 else (5.0 - 5.0 * t).Floor;
    DripOfSeconds(now, header);
    WholeFifths(5.0 * t);
  }

  /** Half a second after its last call a bucket with a tenth of a token is told to wait for
      four and a half seconds; the header says four, and the client is refused again. */
  lemma MountedHeaderCanBeTooEarly()
    ensures var b := Some(Bucket(0.1, 500_000_000));
            var (after, v) := Take(MOUNTED, b, 500_000_000);
            && !v.ok && v.wait == 4_500_000_000 && HeaderSeconds(v.wait) == 4
            && !Take(MOUNTED, Some(after), 500_000_000 + 4 * SECOND).1.ok
  {
    var exact := (1.0 - 0.1) / MOUNTED.refillRate * SECOND as real;
    assert OnHand(MOUNTED, Some(Bucket(0.1, 500_000_000)), 500_000_000) == 0.1;
    assert exact == 4_500_000_000.0;
    assert MOUNTED.Drip(500_000_000, 4_500_000_000) == 0.8;
  }

  // ---- decimal rendering of the header ------------------------------------------

  function Pow10(n: nat): nat { if n == 0 then 1 else 10 * Pow10(n - 1) }

  /** The number a string of decimal digits denotes. */
  function DigitsValue(s: string): int {
    if s == [] then 0 else (s[0] as int - '0' as int) * Pow10(|s| - 1) + DigitsValue(s[1..])
  }

  function Value(s: string): int {
    if s != [] && s[0] == '-' then -DigitsValue(s[1..]) else DigitsValue(s)
  }

  predicate IsDigit(c: char) { '0' <= c <= '9' }

  lemma {:induction false} Pow10Grows(a: nat, b: nat)
    requires a <= b
    ensures 1 <= Pow10(a) <= Pow10(b)
    decreases b
  {
    if a < b {
      Pow10Grows(a, b - 1);
    } else if a > 0 {
      Pow10Grows(a - 1, b - 1);
    }
  }

  function DigitChar(d: int): (c: char)
    requires 0 <= d < 10
    ensures IsDigit(c) && c as int - '0' as int == d
  {
    ('0' as int + d) as char
  }

  /** The number still to be rendered `m` in front of the digits already written. */
  function Rendered(m: int, tail: string): int {
    m * Pow10(|tail|) + DigitsValue(tail)
  }

  lemma PrependDigit(m: nat, tail: string)
    requires DigitsValue(tail) >= 0
    ensures var s := [DigitChar(m % 10)] + tail;
            Rendered(m / 10, s) == Rendered(m, tail) && DigitsValue(s) >= 0
  {
    var s := [DigitChar(m % 10)] + tail;
    assert s[1..] == tail;
    Pow10Grows(0, |tail|);
    var q, r, w := m / 10, m % 10, Pow10(|tail|);
    assert m == 10 * q + r;
    assert (10 * q + r) * w == q * (10 * w) + r * w;
    assert r * w >= 0;
  }

  /** A 64-bit number has at most 19 digits, so the buffer has room for them and a sign. */
  lemma RoomLeft(m: int, tail: string)
    requires m > 0 && DigitsValue(tail) >= 0 && Rendered(m, tail) < 0x8000_0000_0000_0000
    ensures |tail| < 19
  {
    Pow10Grows(0, |tail|);
    AtLeastOnce(m, Pow10(|tail|));
    if |tail| >= 19 {
      Pow10Grows(19, |tail|);
      TenToThe19();
    }
  }

  lemma AtLeastOnce(m: int, w: nat)
    requires m > 0
    ensures m * w >= w
  {
    assert (m - 1) * w >= 0;
  }

  lemma TenToThe19()
    ensures Pow10(19) == 10_000_000_000_000_000_000
  {
    assert Pow10(6) == 1_000_000;
    assert Pow10(12) == 1_000_000_000_000;
  }

  const LEAST: int := -0x8000_0000_0000_0000

  /** 64-bit negation: the most negative number has none and stays as it is. */
  function Negated(n: int): int { if n == LEAST then LEAST else -n }

  /** Fills a 20-byte buffer from the back.  The rendering denotes the number if and only if
      it is not the most negative one, which comes out as a bare sign. */
  method Itoa(n: int) returns (s: string)
    requires LEAST <= n < 0x8000_0000_0000_0000
    ensures Value(s) == n <==> n != LEAST
    ensures n != LEAST ==> s != [] && (forall i :: 0 < i < |s| ==> IsDigit(s[i])) && (IsDigit(s[0]) <==> n >= 0)
    ensures n == LEAST ==> s == "-"
  {
    if n == 0 {
      return "0";
    }
    var neg := false;
    var m := n;
    if n < 0 {
      neg := true;
      m := Negated(n);
    }
    ghost var whole := m;
    var buf := new char[20];
    var i := buf.Length;
    assert buf[i..] == [];
    assert Rendered(m, buf[i..]) == whole;
    while m > 0
      invariant 1 <= i <= 20 && (m < 0 ==> n == LEAST && i == 20)
      invariant m > 0 ==> i > 1
      invariant m == 0 ==> i < 20
      invariant Rendered(m, buf[i..]) == whole
      invariant 0 <= DigitsValue(buf[i..])
      invariant forall k :: i <= k < 20 ==> IsDigit(buf[k])
    {
      ghost var tail := buf[i..];
      PrependDigit(m, tail);
      i := i - 1;
      buf[i] := DigitChar(m % 10);
      assert buf[i..] == [DigitChar(m % 10)] + tail;
      m := m / 10;
      if m > 0 {
        RoomLeft(m, buf[i..]);
      }
    }
    if neg {
      i := i - 1;
      buf[i] := '-';
    }
    s := buf[i..];
    assert n != LEAST ==> m == 0;
    assert neg ==> s[1..] == buf[i + 1..];
  }
}
