// The token bucket and the composite limiter of src/network/rate-limiter.ts,
// over exact reals; every call is given the time it reads from the clock.

module TokenBucket {

  datatype Option<+T> = None | Some(value: T)

  /** The fields of a bucket as a value; `rate` is in tokens per millisecond. */
  datatype Bucket = Bucket(tokens: real, lastRefill: real, capacity: real, rate: real)

  function Min(a: real, b: real): real { if a <= b then a else b }
  function Max(a: real, b: real): real { if a >= b then a else b }
  function Ceil(x: real): int { -((-x).Floor) }

  /** What `ms` milliseconds earn. */
  function Earned(ms: real, rate: real): real { ms * rate }

  function Refill(b: Bucket, now: real): Bucket {
    var elapsed := now - b.lastRefill;
    if elapsed <= 0.0 then b
    else b.(tokens := Min(b.capacity, b.tokens + Earned(elapsed, b.rate)), lastRefill := now)
  }

  predicate Allows(b: Bucket, n: real, now: real) { Refill(b, now).tokens >= n }

  function Consume(b: Bucket, n: real, now: real): Bucket {
    var r := Refill(b, now);
    if r.tokens >= n then r.(tokens := r.tokens - n) else r
  }

  function Drain(b: Bucket, resetAt: real, now: real): Bucket {
    if resetAt > now then b.(tokens := 0.0, lastRefill := resetAt) else b
  }

  /** A wait in whole milliseconds; a bucket that never refills makes it infinite. */
  datatype Wait = Ms(ms: int) | Forever

  function WaitFor(b: Bucket, n: real, now: real): Wait {
    var r := Refill(b, now);
    if r.tokens >= n then Ms(0)
    else if r.rate == 0.0 then Forever
    else Ms(Ceil((n - r.tokens) / r.rate))
  }

  class TokenBucket {
    var tokens: real
    var lastRefill: real
    var capacity: real
    var refillRate: real

    function State(): Bucket
      reads this
    {
      Bucket(tokens, lastRefill, capacity, refillRate)
    }

    constructor (capacity: real, refillIntervalMs: real, now: real)
      requires refillIntervalMs > 0.0
      ensures State() == Bucket(capacity, now, capacity, 1.0 / refillIntervalMs)
    {
      this.capacity, this.tokens, this.lastRefill := capacity, capacity, now;
      this.refillRate := 1.0 / refillIntervalMs;
    }

    method RefillNow(now: real)
      modifies this
      ensures State() == Refill(old(State()), now)
    {
      var elapsed := now - lastRefill;
      if elapsed <= 0.0 { return; }
      tokens := Min(capacity, tokens + elapsed * refillRate);
      lastRefill := now;
    }

    method TryConsume(n: real, now: real) returns (ok: bool)
      modifies this
      ensures ok == Allows(old(State()), n, now)
      ensures State() == Consume(old(State()), n, now)
    {
      RefillNow(now);
      if tokens >= n {
        tokens := tokens - n;
        return true;
      }
      return false;
    }

    method WaitTimeMs(n: real, now: real) returns (wait: Wait)
      modifies this
      ensures wait == WaitFor(old(State()), n, now)
      ensures State() == Refill(old(State()), now)
    {
      RefillNow(now);
      if tokens >= n { return Ms(0); }
      var deficit := n - tokens;
      wait := if refillRate == 0.0 then Forever else Ms(Ceil(deficit / refillRate));
    }

    method SetRemaining(remaining: real, now: real)
      modifies this
      ensures State() == old(State()).(tokens := Min(remaining, old(capacity)), lastRefill := now)
    {
      tokens := Min(remaining, capacity);
      lastRefill := now;
    }

    method SetCapacity(newCapacity: real)
      modifies this
      ensures State() == Bucket(Min(old(tokens), newCapacity), old(lastRefill), newCapacity, newCapacity / 60000.0)
    {
      capacity := newCapacity;
      refillRate := newCapacity / 60000.0;
      if tokens > newCapacity { tokens := newCapacity; }
    }

    method DrainUntil(resetAt: real, now: real)
      modifies this
      ensures State() == Drain(old(State()), resetAt, now)
    {
      if resetAt > now {
        tokens := 0.0;
        lastRefill := resetAt;
      }
    }

    method Available(now: real) returns (whole: int)
      modifies this
      ensures State() == Refill(old(State()), now)
      ensures whole as real <= tokens < whole as real + 1.0
    {
      RefillNow(now);
      whole := tokens.Floor;
    }
  }

  // ------------------------------------------------------------ rate bound

  datatype Op = Take(n: real) | Ask(n: real) | Pause(resetAt: real)
  datatype Timed = Timed(at: real, op: Op)

  function After(b: Bucket, e: Timed): Bucket {
    match e.op
    case Take(n) => Consume(b, n, e.at)
    case Ask(_) => Refill(b, e.at)
    case Pause(resetAt) => Drain(b, resetAt, e.at)
  }

  function GrantedBy(b: Bucket, e: Timed): real {
    if e.op.Take? && Allows(b, e.op.n, e.at) then e.op.n else 0.0
  }

  /** The tokens granted over a run of calls, between two header updates. */
  function Granted(b: Bucket, run: seq<Timed>): real
    decreases |run|
  {
    if run == [] then 0.0 else GrantedBy(b, run[0]) + Granted(After(b, run[0]), run[1..])
  }

  /** Calls in [t0, t1] whose clock readings never go back and that never take a negative amount. */
  ghost predicate Within(run: seq<Timed>, t0: real, t1: real) {
    && t0 <= t1
    && (forall k :: 0 <= k < |run| ==> t0 <= run[k].at <= t1)
    && (forall j, k :: 0 <= j < k < |run| ==> run[j].at <= run[k].at)
    && (forall k :: 0 <= k < |run| && run[k].op.Take? ==> run[k].op.n >= 0.0)
  }

  predicate Sane(b: Bucket) { b.tokens <= b.capacity && b.capacity >= 0.0 && b.rate >= 0.0 }

  /** What the bucket could hand out at `t`, were nothing taken before. */
  function Potential(b: Bucket, t: real): real { Max(0.0, Refill(b, t).tokens) }

  lemma EarnedSplit(x: real, y: real, r: real)
    ensures Earned(x + y, r) == Earned(x, r) + Earned(y, r)
  {
  }

  lemma EarnedMore(x: real, y: real, r: real)
    requires x <= y && r >= 0.0
    ensures Earned(x, r) <= Earned(y, r)
  {
    EarnedPositive(y - x, r);
    EarnedSplit(x, y - x, r);
  }

  lemma EarnedPositive(x: real, r: real)
    requires x >= 0.0 && r >= 0.0
    ensures Earned(x, r) >= 0.0 && Earned(0.0, r) == 0.0
  {
  }

  /** Waiting earns at most the refill rate; a pause earns nothing. */
  lemma Accrual(b: Bucket, t: real, u: real)
    requires Sane(b) && t <= u
    ensures Potential(b, u) <= Potential(b, t) + Earned(u - t, b.rate)
    ensures Potential(b, u) <= b.capacity
  {
    hide Earned;
    EarnedPositive(u - t, b.rate);
    if u > b.lastRefill {
      if t > b.lastRefill {
        EarnedSplit(t - b.lastRefill, u - t, b.rate);
        assert (t - b.lastRefill) + (u - t) == u - b.lastRefill;
        CapTwice(b, Earned(t - b.lastRefill, b.rate), Earned(u - t, b.rate));
      } else {
        EarnedMore(u - b.lastRefill, u - t, b.rate);
        EarnedPositive(u - b.lastRefill, b.rate);
        CapTwice(b, 0.0, Earned(u - b.lastRefill, b.rate));
      }
    }
  }

  lemma CapTwice(b: Bucket, x: real, y: real)
    requires Sane(b) && y >= 0.0
    ensures Max(0.0, Min(b.capacity, b.tokens + (x + y))) <= b.capacity
    ensures Max(0.0, Min(b.capacity, b.tokens + (x + y))) <= Max(0.0, Min(b.capacity, b.tokens + x)) + y
  {
  }

  /** A call grants no more than it takes from the potential. */
  lemma CallPays(b: Bucket, e: Timed)
    requires Sane(b) && (e.op.Take? ==> e.op.n >= 0.0)
    ensures Sane(After(b, e)) && After(b, e).rate == b.rate && After(b, e).capacity == b.capacity
    ensures GrantedBy(b, e) + Potential(After(b, e), e.at) <= Potential(b, e.at)
  {
    hide Earned;
    var r := Refill(b, e.at);
    assert Refill(r, e.at) == r;
  }

  lemma {:induction false} GrantedFrom(b: Bucket, run: seq<Timed>, t: real, t1: real)
    requires Sane(b) && Within(run, t, t1)
    ensures Granted(b, run) <= Potential(b, t) + Earned(t1 - t, b.rate)
    decreases |run|
  {
    hide Potential, After, GrantedBy, Sane, Earned;
    if run == [] {
      Accrual(b, t, t1);
      PotentialPositive(b, t1);
    } else {
      var e := run[0];
      CallPays(b, e);
      Accrual(b, t, e.at);
      GrantedFrom(After(b, e), run[1..], e.at, t1);
      EarnedSplit(e.at - t, t1 - e.at, b.rate);
      assert (e.at - t) + (t1 - e.at) == t1 - t;
    }
  }

  lemma PotentialPositive(b: Bucket, t: real)
    ensures Potential(b, t) >= 0.0
  {
  }

  /** Between header updates no window grants more than its capacity plus what the
      rate refills meanwhile, however calls and pauses are mixed. */
  lemma RateBound(b: Bucket, run: seq<Timed>, t0: real, t1: real)
    requires Sane(b) && Within(run, t0, t1)
    ensures Granted(b, run) <= b.capacity + Earned(t1 - t0, b.rate)
  {
    hide Granted, Within, Earned;
    GrantedFrom(b, run, t0, t1);
    Accrual(b, t0, t0);
  }

  /** Taking everything a bucket holds leaves it empty. */
  lemma TakeAll(b: Bucket, t: real, n: real)
    requires Sane(b) && b.lastRefill <= t
    requires n == Min(b.capacity, b.tokens + Earned(t - b.lastRefill, b.rate))
    ensures Allows(b, n, t) && Consume(b, n, t) == Bucket(0.0, t, b.capacity, b.rate)
  {
    EarnedPositive(0.0, b.rate);
    hide Earned;
  }

  /** The time an empty bucket takes to fill. */
  lemma FillTime(capacity: real, rate: real) returns (d: real)
    requires capacity > 0.0 && rate > 0.0
    ensures d > 0.0 && Earned(d, rate) == capacity
  {
    d := capacity / rate;
    Quotient(capacity, rate);
  }

  lemma Quotient(x: real, r: real)
    requires x > 0.0 && r > 0.0
    ensures x / r > 0.0 && Earned(x / r, r) == x
  {
  }

  /** From empty, `n` refills of the whole bucket and one of the rest can all be taken. */
  lemma {:induction false} TakeAsEarned(b: Bucket, t1: real, n: nat, d: real) returns (run: seq<Timed>)
    requires Sane(b) && b.tokens == 0.0 && b.lastRefill <= t1
    requires d > 0.0 && Earned(d, b.rate) == b.capacity
    requires t1 - b.lastRefill <= n as real * d + d
    ensures Within(run, b.lastRefill, t1) && Granted(b, run) == Earned(t1 - b.lastRefill, b.rate)
    decreases n
  {
    hide Earned, Consume, Allows;
    if t1 - b.lastRefill <= d {
      var n := Earned(t1 - b.lastRefill, b.rate);
      EarnedMore(t1 - b.lastRefill, d, b.rate);
      EarnedPositive(t1 - b.lastRefill, b.rate);
      TakeAll(b, t1, n);
      run := [Timed(t1, Take(n))];
      assert run[1..] == [] && Granted(After(b, run[0]), run[1..]) == 0.0;
    } else {
      var t := b.lastRefill + d;
      TakeAll(b, t, b.capacity);
      var c := Bucket(0.0, t, b.capacity, b.rate);
      OneLess(n, d, t1 - b.lastRefill);
      var rest := TakeAsEarned(c, t1, n - 1, d);
      run := [Timed(t, Take(b.capacity))] + rest;
      assert run[1..] == rest;
      EarnedSplit(d, t1 - t, b.rate);
      assert d + (t1 - t) == t1 - b.lastRefill;
    }
  }

  lemma OneLess(n: nat, d: real, x: real)
    requires d > 0.0 && d < x <= n as real * d + d
    ensures n > 0 && x - d <= (n - 1) as real * d + d
  {
  }

  /** Some number of refills covers any window. */
  lemma EnoughRefills(x: real, d: real) returns (n: nat)
    requires x >= 0.0 && d > 0.0
    ensures x <= n as real * d + d
  {
    n := (x / d).Floor;
    Floored(x / d, n as real, d, x);
  }

  lemma Floored(q: real, n: real, d: real, x: real)
    requires d > 0.0 && q == x / d && q <= n + 1.0
    ensures x <= n * d + d
  {
    assert q * d == x;
    EarnedMore(q, n + 1.0, d);
    assert (n + 1.0) * d == n * d + d;
  }

  /** No smaller bound will do: over any window whatever its length, some calls are granted
      exactly that much by a bucket that starts full. */
  lemma RateBoundIsTight(b: Bucket, t0: real, t1: real) returns (run: seq<Timed>)
    requires Sane(b) && b.tokens == b.capacity && b.capacity > 0.0 && b.rate > 0.0 && b.lastRefill <= t0 <= t1
    ensures Within(run, t0, t1) && Granted(b, run) == b.capacity + Earned(t1 - t0, b.rate)
  {
    hide Earned, Consume, Allows;
    EarnedPositive(t0 - b.lastRefill, b.rate);
    TakeAll(b, t0, b.capacity);
    var c := Bucket(0.0, t0, b.capacity, b.rate);
    var d := FillTime(b.capacity, b.rate);
    var n := EnoughRefills(t1 - t0, d);
    var rest := TakeAsEarned(c, t1, n, d);
    run := [Timed(t0, Take(b.capacity))] + rest;
    assert run[1..] == rest;
  }

  // ------------------------------------------------------------- wait time

  /** How long refilling is still held off at `now`. */
  function Held(b: Bucket, now: real): real { Max(0.0, b.lastRefill - now) }

  lemma DivLe(x: real, r: real, y: real)
    requires r > 0.0
    ensures x / r <= y <==> x <= Earned(y, r)
  {
    var q := x / r;
    Undivided(x, r);
    hide Earned;
    if q <= y {
      EarnedMore(q, y, r);
    } else {
      EarnedSplit(y, q - y, r);
      EarnedStrict(q - y, r);
      assert y + (q - y) == q;
    }
  }

  lemma Undivided(x: real, r: real)
    requires r > 0.0
    ensures Earned(x / r, r) == x
  {
  }

  lemma EarnedStrict(x: real, r: real)
    requires x > 0.0 && r > 0.0
    ensures Earned(x, r) > 0.0
  {
  }

  /** Exactly when an undisturbed attempt `d` milliseconds later succeeds. */
  lemma ReadyWhen(b: Bucket, n: real, now: real, d: real)
    requires Sane(b) && b.rate > 0.0 && d >= 0.0
    ensures var r := Refill(b, now);
            Allows(r, n, now + d) <==>
              n <= r.tokens || (n <= b.capacity && (n - r.tokens) / r.rate + Held(b, now) <= d)
  {
    hide Earned;
    var r := Refill(b, now);
    var held := Held(b, now);
    assert Held(r, now) == held && r.lastRefill == now + held;
    DivLe(n - r.tokens, r.rate, d - held);
    EarnedPositive(0.0, r.rate);
    if d > held {
      assert now + d - r.lastRefill == d - held;
      EarnedPositive(d - held, r.rate);
    } else {
      EarnedMore(d - held, 0.0, r.rate);
    }
  }

  /** `waitTimeMs` is the least whole wait after which an undisturbed attempt succeeds,
      for amounts the bucket can hold and with no pause pending. */
  lemma WaitIsLeast(b: Bucket, n: real, now: real, m: nat)
    requires Sane(b) && b.rate > 0.0 && n <= b.capacity && b.lastRefill <= now
    ensures var w := WaitFor(b, n, now);
            && w.Ms? && w.ms >= 0
            && (Allows(Refill(b, now), n, now + m as real) <==> w.ms <= m)
  {
    var r := Refill(b, now);
    ReadyWhen(b, n, now, m as real);
    if r.tokens < n {
      var x := (n - r.tokens) / r.rate;
      DivLe(n - r.tokens, r.rate, 0.0);
      CeilLe(x, m);
      CeilLe(x, 0);
    }
  }

  lemma CeilLe(x: real, m: int)
    ensures Ceil(x) <= m <==> x <= m as real
  {
  }

  /** How long the missing part of an amount takes to come in. */
  function MissingMs(b: Bucket, n: real, now: real): real
    requires b.rate > 0.0
  {
    (n - Refill(b, now).tokens) / b.rate
  }

  /** In general the advice is right exactly when what rounding up adds covers the pause. */
  lemma WaitSuffices(b: Bucket, n: real, now: real)
    requires Sane(b) && b.rate > 0.0
    ensures var r, w, x := Refill(b, now), WaitFor(b, n, now), MissingMs(b, n, now);
            w.Ms? && w.ms >= 0 &&
            (Allows(r, n, now + w.ms as real) <==>
               n <= r.tokens || (n <= b.capacity && Held(b, now) <= Ceil(x) as real - x))
  {
    var r, w := Refill(b, now), WaitFor(b, n, now);
    if r.tokens < n {
      DivLe(n - r.tokens, r.rate, 0.0);
      CeilLe((n - r.tokens) / r.rate, 0);
    }
    ReadyWhen(b, n, now, w.ms as real);
  }

  /** A pause of a millisecond or more always makes the advice too short. */
  lemma WaitIgnoresPause(b: Bucket, n: real, now: real)
    requires Sane(b) && b.rate > 0.0 && Held(b, now) >= 1.0 && b.tokens < n
    ensures !Allows(Refill(b, now), n, now + WaitFor(b, n, now).ms as real)
  {
    var r, w := Refill(b, now), WaitFor(b, n, now);
    WaitSuffices(b, n, now);
    CeilLe((n - r.tokens) / r.rate, w.ms - 1);
  }

  // ----------------------------------------------------------------- pauses

  /** While a pause lasts there is nothing to take, and after it what has come in since its end;
      a pause set for a time already past is none. */
  lemma PauseHolds(b: Bucket, resetAt: real, now: real, n: real, t: real)
    requires n > 0.0
    ensures Allows(Drain(b, resetAt, now), n, t) <==>
              if now < resetAt then resetAt < t && n <= b.capacity && n <= Earned(t - resetAt, b.rate)
              else Allows(b, n, t)
  {
    hide Earned;
  }

  /** The last pause counts, not the longest: a shorter one set later ends the first. */
  lemma ShorterPauseCutsIn(b: Bucket, first: real, second: real, now: real, later: real, n: real, t: real)
    requires now <= later < second < t <= first
    requires 0.0 < n <= b.capacity && n <= Earned(t - second, b.rate)
    ensures !Allows(Drain(b, first, now), n, t)
    ensures Allows(Drain(Drain(b, first, now), second, later), n, t)
  {
    hide Earned, Allows, Drain;
    PauseHolds(b, first, now, n, t);
    DrainKeepsRules(b, first, now);
    PauseHolds(Drain(b, first, now), second, later, n, t);
  }

  lemma DrainKeepsRules(b: Bucket, resetAt: real, now: real)
    ensures Drain(b, resetAt, now).rate == b.rate && Drain(b, resetAt, now).capacity == b.capacity
  {
  }

  // ------------------------------------------------------------- composite

  /** Three optional buckets: requests a minute, tokens a minute, requests a day. */
  datatype Limits = Limits(rpm: Option<Bucket>, tpm: Option<Bucket>, rpd: Option<Bucket>)

  predicate Permits(b: Option<Bucket>, n: real, now: real) { b.Some? ==> Allows(b.value, n, now) }

  function Charged(b: Option<Bucket>, n: real, now: real): Option<Bucket> {
    if b.Some? then Some(Consume(b.value, n, now)) else b
  }

  function Refreshed(b: Option<Bucket>, now: real): Option<Bucket> {
    if b.Some? then Some(Refill(b.value, now)) else b
  }

  predicate Proceeds(l: Limits, n: real, now: real) {
    Permits(l.rpm, 1.0, now) && Permits(l.rpd, 1.0, now) && (n > 0.0 ==> Permits(l.tpm, n, now))
  }

  /** What the buckets hold after an attempt: the first refusal stops the charging. */
  function Attempted(l: Limits, n: real, now: real): Limits {
    var first := l.(rpm := Charged(l.rpm, 1.0, now));
    if !Permits(l.rpm, 1.0, now) then first
    else
      var second := first.(rpd := Charged(l.rpd, 1.0, now));
      if !Permits(l.rpd, 1.0, now) || n <= 0.0 then second else second.(tpm := Charged(l.tpm, n, now))
  }

  function Later(a: Wait, b: Wait): Wait {
    if a.Forever? || b.Forever? then Forever else if a.ms >= b.ms then a else b
  }

  function WaitOf(b: Option<Bucket>, n: real, now: real): Wait { if b.Some? then WaitFor(b.value, n, now) else Ms(0) }

  function LimitsWait(l: Limits, n: real, now: real): Wait {
    Later(Later(Later(Ms(0), WaitOf(l.rpm, 1.0, now)), WaitOf(l.rpd, 1.0, now)),
          if n > 0.0 then WaitOf(l.tpm, n, now) else Ms(0))
  }

  function Asked(l: Limits, n: real, now: real): Limits {
    Limits(Refreshed(l.rpm, now), if n > 0.0 then Refreshed(l.tpm, now) else l.tpm, Refreshed(l.rpd, now))
  }

  const MINUTE := 60000.0
  const DAY := 86400000.0

  function FullBucket(limit: Option<nat>, window: real, now: real): Option<Bucket>
    requires window > 0.0
  {
    if limit.None? || limit.value == 0 then None
    else Some(Bucket(limit.value as real, now, limit.value as real, limit.value as real / window))
  }

  lemma Refilling(limit: real, window: real)
    requires limit > 0.0 && window > 0.0
    ensures window / limit > 0.0 && 1.0 / (window / limit) == limit / window
  {
    var q := window / limit;
    var x, y := 1.0 / q, limit / window;
    Divided(window, limit);
    Divided(limit, window);
    Quotient(window, limit);
    Divided(1.0, q);
    Associate(y, q, limit);
    SameFactor(y * q, 1.0, limit);
    SameFactor(x, y, q);
  }

  lemma Divided(x: real, y: real)
    requires y > 0.0
    ensures (x / y) * y == x
  {
  }

  lemma Associate(x: real, y: real, z: real)
    ensures (x * y) * z == x * (y * z)
  {
  }

  lemma SameFactor(x: real, y: real, q: real)
    requires x * q == y * q && q > 0.0
    ensures x == y
  {
    assert (x - y) * q == x * q - y * q;
    if x > y { EarnedStrict(x - y, q); }
    if x < y { EarnedStrict(y - x, q); }
  }

  class RateLimiter {
    const rpmBucket: TokenBucket?
    const tpmBucket: TokenBucket?
    const rpdBucket: TokenBucket?

    ghost predicate Valid() {
      && (rpmBucket != null ==> rpmBucket != tpmBucket && rpmBucket != rpdBucket)
      && (tpmBucket != null ==> tpmBucket != rpdBucket)
    }

    /** A limit of null or zero is none; the others refill over a minute or a day. */
    constructor (rpm: Option<nat>, tpm: Option<nat>, rpd: Option<nat>, now: real)
      ensures Valid()
      ensures State() == Limits(FullBucket(rpm, MINUTE, now), FullBucket(tpm, MINUTE, now), FullBucket(rpd, DAY, now))
      ensures fresh({rpmBucket, tpmBucket, rpdBucket} - {null})
    {
      var a := NewBucket(rpm, MINUTE, now);
      var b := NewBucket(tpm, MINUTE, now);
      var c := NewBucket(rpd, DAY, now);
      rpmBucket, tpmBucket, rpdBucket := a, b, c;
    }

    static method NewBucket(limit: Option<nat>, window: real, now: real) returns (b: TokenBucket?)
      requires window > 0.0
      ensures StateOf(b) == FullBucket(limit, window, now) && (b != null ==> fresh(b))
    {
      if limit.None? || limit.value == 0 { return null; }
      Refilling(limit.value as real, window);
      b := new TokenBucket(limit.value as real, window / limit.value as real, now);
    }

    static function StateOf(b: TokenBucket?): Option<Bucket>
      reads b
    {
      if b == null then None else Some(b.State())
    }

    function State(): Limits
      reads rpmBucket, tpmBucket, rpdBucket
    {
      Limits(StateOf(rpmBucket), StateOf(tpmBucket), StateOf(rpdBucket))
    }

    method CanProceed(n: real, now: real) returns (ok: bool)
      requires Valid()
      modifies rpmBucket, tpmBucket, rpdBucket
      ensures ok == Proceeds(old(State()), n, now)
      ensures State() == Attempted(old(State()), n, now)
    {
      hide Allows, Consume;
      ok := true;
      if rpmBucket != null {
        ok := rpmBucket.TryConsume(1.0, now);
        if !ok { return false; }
      }
      if rpdBucket != null {
        ok := rpdBucket.TryConsume(1.0, now);
        if !ok { return false; }
      }
      if tpmBucket != null && n > 0.0 {
        ok := tpmBucket.TryConsume(n, now);
        if !ok { return false; }
      }
      return true;
    }

    method WaitTimeMs(n: real, now: real) returns (wait: Wait)
      requires Valid()
      modifies rpmBucket, tpmBucket, rpdBucket
      ensures wait == LimitsWait(old(State()), n, now)
      ensures State() == Asked(old(State()), n, now)
    {
      hide WaitFor, Refill;
      wait := Ms(0);
      if rpmBucket != null {
        var w := rpmBucket.WaitTimeMs(1.0, now);
        wait := Later(wait, w);
      } else {
        wait := Later(wait, Ms(0));
      }
      if rpdBucket != null {
        var w := rpdBucket.WaitTimeMs(1.0, now);
        wait := Later(wait, w);
      } else {
        wait := Later(wait, Ms(0));
      }
      if tpmBucket != null && n > 0.0 {
        var w := tpmBucket.WaitTimeMs(n, now);
        wait := Later(wait, w);
      } else {
        wait := Later(wait, Ms(0));
      }
    }

    /** After a 429: only the request bucket is paused. */
    method Pause(durationMs: real, now: real)
      requires Valid()
      modifies rpmBucket
      ensures var l := old(State());
              State() == l.(rpm := if l.rpm.Some? then Some(Drain(l.rpm.value, now + durationMs, now)) else None)
    {
      if rpmBucket != null { rpmBucket.DrainUntil(now + durationMs, now); }
    }
  }

  /** A bucket in use, with no pause pending, asked for no more than it holds. */
  predicate Serves(b: Option<Bucket>, n: real, now: real) {
    b.Some? ==> Sane(b.value) && b.value.rate > 0.0 && n <= b.value.capacity && b.value.lastRefill <= now
  }

  lemma WaitOfIsLeast(b: Option<Bucket>, n: real, now: real, m: nat)
    requires Serves(b, n, now)
    ensures var w := WaitOf(b, n, now);
            w.Ms? && w.ms >= 0 && (Permits(Refreshed(b, now), n, now + m as real) <==> w.ms <= m)
  {
    if b.Some? { WaitIsLeast(b.value, n, now, m); }
  }

  /** The limiter's wait is the least whole wait after which an undisturbed attempt gets past
      all three buckets. */
  lemma LimitsWaitIsLeast(l: Limits, n: real, now: real, m: nat)
    requires Serves(l.rpm, 1.0, now) && Serves(l.rpd, 1.0, now) && (n > 0.0 ==> Serves(l.tpm, n, now))
    ensures var w := LimitsWait(l, n, now);
            w.Ms? && w.ms >= 0 && (Proceeds(Asked(l, n, now), n, now + m as real) <==> w.ms <= m)
  {
    hide WaitOf, Permits, Refreshed, Serves;
    WaitOfIsLeast(l.rpm, 1.0, now, m);
    WaitOfIsLeast(l.rpd, 1.0, now, m);
    if n > 0.0 { WaitOfIsLeast(l.tpm, n, now, m); }
  }

  /** The attempt left the bucket as it was, or at most refilled. */
  predicate Untouched(before: Option<Bucket>, after: Option<Bucket>, now: real) {
    after == before || after == Refreshed(before, now)
  }

  /** The attempt took `n` from the bucket. */
  predicate Paid(before: Option<Bucket>, after: Option<Bucket>, n: real, now: real) {
    before.Some? && after == Some(Refill(before.value, now).(tokens := Refill(before.value, now).tokens - n))
  }

  /** Which buckets a refused attempt has been charged to: the request bucket exactly when there
      is one and it allowed the request; the daily one exactly when there is one, it allowed the
      request and the attempt got as far; the token bucket never. */
  lemma RefusalStillPays(l: Limits, n: real, now: real)
    requires !Proceeds(l, n, now)
    ensures var m := Attempted(l, n, now);
            && (Paid(l.rpm, m.rpm, 1.0, now) <==> l.rpm.Some? && Allows(l.rpm.value, 1.0, now))
            && (Paid(l.rpd, m.rpd, 1.0, now) <==> Permits(l.rpm, 1.0, now) && l.rpd.Some? && Allows(l.rpd.value, 1.0, now))
            && (Untouched(l.rpm, m.rpm, now) <==> !Paid(l.rpm, m.rpm, 1.0, now))
            && (Untouched(l.rpd, m.rpd, now) <==> !Paid(l.rpd, m.rpd, 1.0, now))
            && Untouched(l.tpm, m.tpm, now)
  {
    hide Earned;
  }

  /** So a refusal costs nothing exactly when the first bucket there is refuses, the token bucket
      counting as last. */
  lemma RefusalIsFreeIff(l: Limits, n: real, now: real)
    requires !Proceeds(l, n, now)
    ensures var m := Attempted(l, n, now);
            Untouched(l.rpm, m.rpm, now) && Untouched(l.rpd, m.rpd, now) && Untouched(l.tpm, m.tpm, now) <==>
              if l.rpm.Some? then !Allows(l.rpm.value, 1.0, now)
              else l.rpd.None? || !Allows(l.rpd.value, 1.0, now)
  {
    hide Allows, Untouched, Paid, Attempted;
    RefusalStillPays(l, n, now);
  }

  /** Without a request bucket the daily one pays for what the token bucket then refuses. */
  lemma DailyBucketPays(day: Bucket, minute: Bucket, n: real, now: real)
    requires Allows(day, 1.0, now) && n > 0.0 && !Allows(minute, n, now)
    ensures var l := Limits(None, Some(minute), Some(day));
            !Proceeds(l, n, now) && Paid(l.rpd, Attempted(l, n, now).rpd, 1.0, now)
  {
    hide Earned;
  }

  // ------------------------------------------------------ the limiter's bound

  datatype Which = PerMinute | PerDay | Tokens

  datatype LimiterOp = Try(n: real) | AskWait(n: real) | PauseFor(ms: real)
  datatype LimiterCall = LimiterCall(at: real, op: LimiterOp)

  function BucketOf(l: Limits, w: Which): Option<Bucket> {
    match w case PerMinute => l.rpm case PerDay => l.rpd case Tokens => l.tpm
  }

  function Moved(l: Limits, c: LimiterCall): Limits {
    match c.op
    case Try(n) => Attempted(l, n, c.at)
    case AskWait(n) => Asked(l, n, c.at)
    case PauseFor(ms) => l.(rpm := if l.rpm.Some? then Some(Drain(l.rpm.value, c.at + ms, c.at)) else None)
  }

  /** What a call means to one of the buckets, if it gets that far. */
  function SeenIn(l: Limits, c: LimiterCall, w: Which): seq<Timed> {
    match c.op
    case Try(n) =>
      (match w
       case PerMinute => [Timed(c.at, Take(1.0))]
       case PerDay => if Permits(l.rpm, 1.0, c.at) then [Timed(c.at, Take(1.0))] else []
       case Tokens => if n > 0.0 && Permits(l.rpm, 1.0, c.at) && Permits(l.rpd, 1.0, c.at) then [Timed(c.at, Take(n))] else [])
    case AskWait(n) => if w.Tokens? && n <= 0.0 then [] else [Timed(c.at, Ask(if w.Tokens? then n else 1.0))]
    case PauseFor(ms) => if w.PerMinute? then [Timed(c.at, Pause(c.at + ms))] else []
  }

  function SeenBy(l: Limits, calls: seq<LimiterCall>, w: Which): seq<Timed>
    decreases |calls|
  {
    if calls == [] then [] else SeenIn(l, calls[0], w) + SeenBy(Moved(l, calls[0]), calls[1..], w)
  }

  /** What passes the limiter in a call: a request, with its tokens. */
  function PassedIn(l: Limits, c: LimiterCall, w: Which): real {
    if c.op.Try? && Proceeds(l, c.op.n, c.at) then (if w.Tokens? then Max(0.0, c.op.n) else 1.0) else 0.0
  }

  function Passed(l: Limits, calls: seq<LimiterCall>, w: Which): real
    decreases |calls|
  {
    if calls == [] then 0.0 else PassedIn(l, calls[0], w) + Passed(Moved(l, calls[0]), calls[1..], w)
  }

  ghost predicate CallsWithin(calls: seq<LimiterCall>, t0: real, t1: real) {
    && t0 <= t1
    && (forall k :: 0 <= k < |calls| ==> t0 <= calls[k].at <= t1)
    && (forall j, k :: 0 <= j < k < |calls| ==> calls[j].at <= calls[k].at)
  }

  lemma OneCallSeen(l: Limits, c: LimiterCall, w: Which)
    requires BucketOf(l, w).Some?
    ensures var b, seen := BucketOf(l, w).value, SeenIn(l, c, w);
            && |seen| <= 1 && (seen != [] ==> seen[0].at == c.at && (seen[0].op.Take? ==> seen[0].op.n >= 0.0))
            && BucketOf(Moved(l, c), w) == Some(if seen == [] then b else After(b, seen[0]))
            && PassedIn(l, c, w) <= (if seen == [] then 0.0 else GrantedBy(b, seen[0]))
  {
    hide Refill, Drain, Consume;
  }

  lemma {:induction false} PassedIsGranted(l: Limits, calls: seq<LimiterCall>, w: Which)
    requires BucketOf(l, w).Some?
    ensures Passed(l, calls, w) <= Granted(BucketOf(l, w).value, SeenBy(l, calls, w))
    decreases |calls|
  {
    hide BucketOf, Moved, SeenIn, PassedIn, GrantedBy, After;
    if calls != [] {
      var c, b := calls[0], BucketOf(l, w).value;
      OneCallSeen(l, c, w);
      PassedIsGranted(Moved(l, c), calls[1..], w);
      var seen, rest := SeenIn(l, c, w), SeenBy(Moved(l, c), calls[1..], w);
      if seen == [] {
        assert seen + rest == rest;
      } else {
        assert (seen + rest)[1..] == rest && (seen + rest)[0] == seen[0];
      }
    }
  }

  lemma {:induction false} SeenWithin(l: Limits, calls: seq<LimiterCall>, w: Which, t0: real, t1: real)
    requires BucketOf(l, w).Some? && CallsWithin(calls, t0, t1)
    ensures Within(SeenBy(l, calls, w), t0, t1)
    decreases |calls|
  {
    hide BucketOf, Moved, SeenIn, PassedIn, GrantedBy, After;
    if calls != [] {
      var c := calls[0];
      OneCallSeen(l, c, w);
      SeenWithin(Moved(l, c), calls[1..], w, c.at, t1);
      OneInFront(SeenIn(l, c, w), SeenBy(Moved(l, c), calls[1..], w), t0, c.at, t1);
    }
  }

  lemma OneInFront(seen: seq<Timed>, rest: seq<Timed>, t0: real, at: real, t1: real)
    requires t0 <= at && Within(rest, at, t1) && |seen| <= 1
    requires seen != [] ==> seen[0].at == at && (seen[0].op.Take? ==> seen[0].op.n >= 0.0)
    ensures Within(seen + rest, t0, t1)
  {
  }

  /** What the limiter lets through in any window stays within each of its three limits, the bucket's
      capacity plus what its rate refills meanwhile, however attempts, questions and pauses mix. */
  lemma LimiterBound(l: Limits, calls: seq<LimiterCall>, w: Which, t0: real, t1: real)
    requires BucketOf(l, w).Some? && Sane(BucketOf(l, w).value) && CallsWithin(calls, t0, t1)
    ensures var b := BucketOf(l, w).value; Passed(l, calls, w) <= b.capacity + Earned(t1 - t0, b.rate)
  {
    hide Passed, SeenBy, BucketOf, CallsWithin, Within, Granted, Sane, Earned;
    PassedIsGranted(l, calls, w);
    SeenWithin(l, calls, w, t0, t1);
    RateBound(BucketOf(l, w).value, SeenBy(l, calls, w), t0, t1);
  }

  /** So a new limiter lets through at most twice a limit in any minute, or any day: once what it
      starts with, once what comes in. */
  lemma TwiceTheLimit(rpm: Option<nat>, tpm: Option<nat>, rpd: Option<nat>, now: real,
                      calls: seq<LimiterCall>, w: Which, t0: real)
    requires var window := if w.PerDay? then DAY else MINUTE; CallsWithin(calls, t0, t0 + window)
    ensures var limit := match w case PerMinute => rpm case PerDay => rpd case Tokens => tpm;
            limit.Some? && limit.value > 0 ==>
              Passed(Limits(FullBucket(rpm, MINUTE, now), FullBucket(tpm, MINUTE, now), FullBucket(rpd, DAY, now)), calls, w)
              <= 2.0 * limit.value as real
  {
    hide Passed, CallsWithin;
    var limit := match w case PerMinute => rpm case PerDay => rpd case Tokens => tpm;
    var window := if w.PerDay? then DAY else MINUTE;
    if limit.Some? && limit.value > 0 {
      var l := Limits(FullBucket(rpm, MINUTE, now), FullBucket(tpm, MINUTE, now), FullBucket(rpd, DAY, now));
      Quotient(limit.value as real, window);
      assert Earned(window, limit.value as real / window) == limit.value as real;
      hide Earned;
      LimiterBound(l, calls, w, t0, t0 + window);
      assert t0 + window - t0 == window;
    }
  }

  /** An attempt that passes is charged to every bucket there is. */
  lemma PassingPaysAll(l: Limits, n: real, now: real)
    requires Proceeds(l, n, now)
    ensures var m := Attempted(l, n, now);
            && (l.rpm.Some? ==> Paid(l.rpm, m.rpm, 1.0, now)) && (l.rpd.Some? ==> Paid(l.rpd, m.rpd, 1.0, now))
            && (l.tpm.Some? ==> if n > 0.0 then Paid(l.tpm, m.tpm, n, now) else m.tpm == l.tpm)
  {
    hide Earned;
  }
}
