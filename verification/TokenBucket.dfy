/** Token buckets: the Redis script, the in-memory bucket, and what both promise over whole
    call histories. Times are seconds; levels and rates are exact reals. */
module TokenBucket {
  import opened Common

  datatype Limits = Limits(perMinute: nat, burst: Option<nat>)

  function Capacity(l: Limits): nat {
    if l.burst.Some? && l.burst.value != 0 then l.burst.value else l.perMinute
  }

  function Refill(l: Limits): real { l.perMinute as real / 60.0 }

  /** Tokens that accrue between two clock readings. */
  function Gain(l: Limits, from: real, to: real): real { (to - from) * Refill(l) }

  const KEY_TTL: real := 3600.0

  /** The bucket's hash: its level at the time it was last written. */
  datatype Bucket = Bucket(tokens: real, at: real)

  datatype Call = Call(now: real, requested: nat)

  datatype Reply = Reply(allowed: bool, retryAfter: int)

  function Min(a: real, b: real): real { if a <= b then a else b }

  function Ceil(x: real): int { -(-x).Floor }

  /** The level a call finds after refilling; a missing bucket is full. */
  function Level(l: Limits, b: Option<Bucket>, now: real): real {
    match b
    case None => Capacity(l) as real
    case Some(k) => Min(Capacity(l) as real, k.tokens + Gain(l, k.at, now))
  }

  predicate Admits(l: Limits, b: Option<Bucket>, c: Call) { Level(l, b, c.now) >= c.requested as real }

  function Admitted(l: Limits, b: Option<Bucket>, c: Call): nat { if Admits(l, b, c) then c.requested else 0 }

  function Take(l: Limits, b: Option<Bucket>, c: Call): Bucket {
    Bucket(Level(l, b, c.now) - Admitted(l, b, c) as real, c.now)
  }

  /** The script's retry hint; 0 when admitted or when nothing ever refills. */
  function ScriptRetry(l: Limits, b: Option<Bucket>, c: Call): int {
    if Admits(l, b, c) || Refill(l) <= 0.0 then 0
    else Ceil((c.requested as real - Level(l, b, c.now)) / Refill(l))
  }

  function MemoryRetry(l: Limits, b: Option<Bucket>, c: Call): int {
    if Admits(l, b, c) then 0
    else if Refill(l) == 0.0 then 60
    else ((c.requested as real - Level(l, b, c.now)) / Refill(l)).Floor + 1
  }

  lemma GainSplits(l: Limits, a: real, b: real, c: real)
    ensures Gain(l, a, b) + Gain(l, b, c) == Gain(l, a, c)
  {}

  lemma GainGrows(l: Limits, a: real, b: real, c: real)
    requires b <= c
    ensures Gain(l, a, b) <= Gain(l, a, c)
  {
    Scaled(Refill(l), b - a, c - a);
  }

  lemma Scaled(r: real, a: real, b: real)
    requires r >= 0.0 && a <= b
    ensures a * r <= b * r
  {}

  // ---------------------------------------------------------------- the two implementations

  /** What the network does to one evaluation of the script. */
  datatype Network = Answers | Refuses | LosesReply

  datatype Outcome<+T> = Success(value: T) | Unavailable

  /** A stored hash and the server time at which it expires. */
  datatype Hash = Hash(bucket: Bucket, expires: real)

  function Live(h: Option<Hash>, server: real): Option<Bucket> {
    if h.Some? && server < h.value.expires then Some(h.value.bucket) else None
  }

  function Lookup<T>(m: map<string, T>, key: string): Option<T> { if key in m then Some(m[key]) else None }

  /** A Redis server as the script sees it. Callers' clocks and the server's need not agree. */
  class RedisServer {
    var hashes: map<string, Hash>

    constructor ()
      ensures hashes == map[]
    {
      hashes := map[];
    }

    function Seen(key: string, server: real): Option<Bucket>
      reads this
    {
      Live(Lookup(hashes, key), server)
    }

    method TakeTokens(key: string, l: Limits, c: Call, server: real) returns (r: Reply)
      modifies this
      ensures hashes == old(hashes)[key := Hash(Take(l, old(Seen(key, server)), c), server + KEY_TTL)]
      ensures r == Reply(Admits(l, old(Seen(key, server)), c), ScriptRetry(l, old(Seen(key, server)), c))
    {
      var capacity, refill := Capacity(l) as real, Refill(l);
      var requested := c.requested as real;
      var bucket := Seen(key, server);
      var tokens, updatedAt := capacity, c.now;
      if bucket.Some? {
        tokens, updatedAt := bucket.value.tokens, bucket.value.at;
      }
      var gained := (c.now - updatedAt) * refill;
      assert gained == Gain(l, updatedAt, c.now);
      tokens := Min(capacity, tokens + gained);
      var allowed := false;
      if tokens >= requested {
        tokens := tokens - requested;
        allowed := true;
      }
      hashes := hashes[key := Hash(Bucket(tokens, c.now), server + KEY_TTL)];
      var retryAfter := 0;
      if !allowed && refill > 0.0 {
        retryAfter := Ceil((requested - tokens) / refill);
      }
      r := Reply(allowed, retryAfter);
    }
  }

  /** The shared limiter. An unreachable bucket admits everything when `failOpen` is set. */
  class TokenBucketRateLimiter {
    const backend: RedisServer?
    const key: string
    const limits: Limits
    const failOpen: bool

    constructor (backend: RedisServer?, key: string, limits: Limits, failOpen: bool)
      ensures this.backend == backend && this.key == key && this.limits == limits && this.failOpen == failOpen
    {
      this.backend, this.key, this.limits, this.failOpen := backend, key, limits, failOpen;
    }

    method Acquire(c: Call, server: real, network: Network) returns (r: Outcome<Reply>)
      modifies backend
      ensures backend == null ==> r == Success(Reply(true, 0))
      ensures backend != null && network.Answers? ==>
        var seen := old(backend.Seen(key, server));
        && r == Success(Reply(Admits(limits, seen, c), ScriptRetry(limits, seen, c)))
      ensures backend != null && !network.Answers? ==>
        r == if failOpen then Success(Reply(true, 0)) else Unavailable
      ensures backend != null && !network.Refuses? ==>
        backend.hashes
          == old(backend.hashes)[key := Hash(Take(limits, old(backend.Seen(key, server)), c), server + KEY_TTL)]
      ensures backend != null && network.Refuses? ==> unchanged(backend)
    {
      if backend == null { return Success(Reply(true, 0)); }
      if !network.Refuses? {
        var reply := backend.TakeTokens(key, limits, c, server);
        if network.Answers? { return Success(reply); }
      }
      if !failOpen { return Unavailable; }
      r := Success(Reply(true, 0));
    }
  }

  class InMemoryRateLimiter {
    const limits: Limits
    var tokens: real
    var updatedAt: real

    constructor (limits: Limits, now: real)
      ensures this.limits == limits && State() == Bucket(Capacity(limits) as real, now)
    {
      this.limits, tokens, updatedAt := limits, Capacity(limits) as real, now;
    }

    function State(): Bucket
      reads this
    {
      Bucket(tokens, updatedAt)
    }

    method Acquire(c: Call) returns (r: Reply)
      modifies this
      ensures State() == Take(limits, Some(old(State())), c)
      ensures r == Reply(Admits(limits, Some(old(State())), c), MemoryRetry(limits, Some(old(State())), c))
    {
      var gained := (c.now - updatedAt) * Refill(limits);
      assert gained == Gain(limits, updatedAt, c.now);
      tokens := Min(Capacity(limits) as real, tokens + gained);
      updatedAt := c.now;
      if tokens >= c.requested as real {
        tokens := tokens - c.requested as real;
        return Reply(true, 0);
      }
      var deficit := c.requested as real - tokens;
      var retryAfter := if Refill(limits) != 0.0 then (deficit / Refill(limits)).Floor + 1 else 60;
      r := Reply(false, retryAfter);
    }
  }

  // ---------------------------------------------------------------- histories

  /** The bucket after a history of calls. */
  function After(l: Limits, b: Option<Bucket>, calls: seq<Call>): Option<Bucket> {
    if calls == [] then b
    else Some(Take(l, After(l, b, calls[..|calls| - 1]), calls[|calls| - 1]))
  }

  predicate Decision(l: Limits, b: Option<Bucket>, calls: seq<Call>, k: nat)
    requires k < |calls|
  {
    Admits(l, After(l, b, calls[..k]), calls[k])
  }

  /** Tokens admitted by the calls from `i` up to the last. */
  function AdmittedSince(l: Limits, b: Option<Bucket>, calls: seq<Call>, i: nat): nat {
    if |calls| <= i then 0
    else
      var n := |calls| - 1;
      AdmittedSince(l, b, calls[..n], i) + Admitted(l, After(l, b, calls[..n]), calls[n])
  }

  predicate Monotone(calls: seq<Call>) { forall i, j | 0 <= i < j < |calls| :: calls[i].now <= calls[j].now }

  /** Refills telescope: what is left plus what was admitted never exceeds a full bucket plus
      the refill between the two clock readings, wherever the clock went in between. */
  lemma {:induction false} Telescope(l: Limits, b: Option<Bucket>, calls: seq<Call>, i: nat)
    requires i < |calls|
    ensures var last := Take(l, After(l, b, calls[..|calls| - 1]), calls[|calls| - 1]);
      last.tokens + AdmittedSince(l, b, calls, i) as real
      <= Capacity(l) as real + Gain(l, calls[i].now, calls[|calls| - 1].now)
    decreases |calls|
  {
    var n := |calls| - 1;
    if i < n {
      var init := calls[..n];
      Telescope(l, b, init, i);
      assert init[n - 1] == calls[n - 1] && init[i] == calls[i];
      GainSplits(l, calls[i].now, calls[n - 1].now, calls[n].now);
    } else {
      assert AdmittedSince(l, b, calls[..n], i) == 0;
      assert Gain(l, calls[i].now, calls[n].now) == 0.0;
    }
  }

  function AtOnce(now: real, n: nat): seq<Call> { seq(n, _ => Call(now, 1)) }

  lemma {:induction false} BurstAtOnce(l: Limits, now: real, n: nat)
    ensures AdmittedSince(l, None, AtOnce(now, n), 0) == if n <= Capacity(l) then n else Capacity(l)
    ensures n > 0 ==> After(l, None, AtOnce(now, n))
                      == Some(Bucket(if n <= Capacity(l) then (Capacity(l) - n) as real else 0.0, now))
    decreases n
  {
    if n > 0 {
      BurstAtOnce(l, now, n - 1);
      var calls := AtOnce(now, n);
      assert calls[..n - 1] == AtOnce(now, n - 1) && calls[n - 1] == Call(now, 1);
      assert Gain(l, now, now) == 0.0;
    }
  }

  /** What a fresh bucket admits at one instant: its burst, or a minute's worth when the burst is
      absent or zero. */
  lemma BurstIsConfigured(perMinute: nat, burst: Option<nat>, now: real, n: nat)
    ensures burst.None? || burst == Some(0) ==>
      AdmittedSince(Limits(perMinute, burst), None, AtOnce(now, n), 0) == if n <= perMinute then n else perMinute
    ensures burst.Some? && burst.value > 0 ==>
      AdmittedSince(Limits(perMinute, burst), None, AtOnce(now, n), 0) == if n <= burst.value then n else burst.value
  {
    BurstAtOnce(Limits(perMinute, burst), now, n);
  }

  lemma MinuteGain(l: Limits, now: real)
    ensures Gain(l, now, now + 60.0) == l.perMinute as real
  {
    assert now + 60.0 - now == 60.0;
    assert 60.0 * (l.perMinute as real / 60.0) == l.perMinute as real;
  }

  /** A bucket emptied now regains a minute's worth in a minute, if it holds that much. */
  lemma RateIsConfigured(perMinute: nat, burst: Option<nat>, now: real)
    requires burst.None? || burst == Some(0) || burst.value >= perMinute
    ensures Level(Limits(perMinute, burst), Some(Bucket(0.0, now)), now + 60.0) == perMinute as real
  {
    MinuteGain(Limits(perMinute, burst), now);
  }

  /** Where nothing ever refills, the script gives no hint and the in-memory bucket says a minute. */
  lemma NoRefillHints(l: Limits, b: Option<Bucket>, c: Call)
    requires l.perMinute == 0 && !Admits(l, b, c)
    ensures ScriptRetry(l, b, c) == 0 && MemoryRetry(l, b, c) == 60
  {}

  /** The window bound: whatever the clocks do, tokens admitted from call `i` to an admitted
      call `j` are at most the capacity plus the refill between the two readings. */
  lemma WindowBound(l: Limits, b: Option<Bucket>, calls: seq<Call>, i: nat, j: nat)
    requires i <= j < |calls| && Decision(l, b, calls, j)
    ensures AdmittedSince(l, b, calls[..j + 1], i) as real
         <= Capacity(l) as real + Gain(l, calls[i].now, calls[j].now)
  {
    var window := calls[..j + 1];
    assert window[..j] == calls[..j] && window[j] == calls[j] && window[i] == calls[i];
    Telescope(l, b, window, i);
  }

  predicate InRange(l: Limits, b: Option<Bucket>) { b.Some? ==> 0.0 <= b.value.tokens <= Capacity(l) as real }

  predicate NotBefore(b: Option<Bucket>, now: real) { b.Some? ==> b.value.at <= now }

  lemma TakeInRange(l: Limits, b: Option<Bucket>, c: Call)
    requires InRange(l, b) && NotBefore(b, c.now)
    ensures InRange(l, Some(Take(l, b, c))) && 0.0 <= Level(l, b, c.now) <= Capacity(l) as real
  {
    if b.Some? { GainGrows(l, b.value.at, b.value.at, c.now); }
  }

  /** On a clock that never runs back the level stays between empty and full. */
  lemma {:induction false} LevelStaysInRange(l: Limits, b: Option<Bucket>, calls: seq<Call>)
    requires InRange(l, b) && Monotone(calls) && (calls != [] ==> NotBefore(b, calls[0].now))
    ensures InRange(l, After(l, b, calls))
    ensures calls != [] ==> After(l, b, calls).Some? && After(l, b, calls).value.at == calls[|calls| - 1].now
    decreases |calls|
  {
    if calls != [] {
      var n := |calls| - 1;
      LevelStaysInRange(l, b, calls[..n]);
      TakeInRange(l, After(l, b, calls[..n]), calls[n]);
    }
  }

  /** A clock that runs back can leave a negative level, so monotonicity is needed. */
  lemma BackwardClockLeavesDebt()
    ensures var l := Limits(60, None);
      var calls := [Call(10.0, 60), Call(0.0, 1)];
      !InRange(l, After(l, None, calls))
  {
    var l := Limits(60, None);
    var calls := [Call(10.0, 60), Call(0.0, 1)];
    assert calls[..1] == [Call(10.0, 60)] && calls[..1][..0] == [];
    assert After(l, None, calls[..1]) == Some(Bucket(0.0, 10.0));
  }

  // ---------------------------------------------------------------- the two agree

  /** Level-equal buckets decide every later call alike. */
  ghost predicate Alike(l: Limits, a: Option<Bucket>, b: Option<Bucket>, from: real) {
    a == b || forall t | t >= from :: Level(l, a, t) == Level(l, b, t)
  }

  lemma FullStaysFull(l: Limits, created: real)
    ensures Alike(l, None, Some(Bucket(Capacity(l) as real, created)), created)
  {
    var full := Some(Bucket(Capacity(l) as real, created));
    forall t | t >= created ensures Level(l, None, t) == Level(l, full, t) {
      GainGrows(l, created, created, t);
    }
  }

  lemma {:induction false} AlikeForever(l: Limits, a: Option<Bucket>, b: Option<Bucket>, calls: seq<Call>)
    requires calls != [] && Monotone(calls) && Alike(l, a, b, calls[0].now)
    ensures After(l, a, calls) == After(l, b, calls)
    ensures forall k | 0 <= k < |calls| :: Decision(l, a, calls, k) == Decision(l, b, calls, k)
    decreases |calls|
  {
    var n := |calls| - 1;
    if n > 0 {
      var init := calls[..n];
      AlikeForever(l, a, b, init);
      forall k | 0 <= k < n ensures Decision(l, a, calls, k) == Decision(l, b, calls, k) {
        assert calls[..k] == init[..k] && Decision(l, a, init, k) == Decision(l, b, init, k);
      }
    }
  }

  /** On the same call times the Redis script and a bucket created in memory no later than the
      first call admit the same calls. */
  lemma ScriptAgreesWithMemory(l: Limits, created: real, calls: seq<Call>)
    requires calls != [] && Monotone(calls) && created <= calls[0].now
    ensures var full := Some(Bucket(Capacity(l) as real, created));
      forall k | 0 <= k < |calls| :: Decision(l, None, calls, k) == Decision(l, full, calls, k)
  {
    FullStaysFull(l, created);
    AlikeForever(l, None, Some(Bucket(Capacity(l) as real, created)), calls);
  }

  // ---------------------------------------------------------------- key expiry

  /** The bucket as the script sees it when the key has been idle. */
  function Unexpired(b: Option<Bucket>, now: real): Option<Bucket> {
    if b.Some? && now - b.value.at >= KEY_TTL then None else b
  }

  function AfterExpiring(l: Limits, b: Option<Bucket>, calls: seq<Call>): Option<Bucket> {
    if calls == [] then b
    else
      var n := |calls| - 1;
      Some(Take(l, Unexpired(AfterExpiring(l, b, calls[..n]), calls[n].now), calls[n]))
  }

  predicate ExpiringDecision(l: Limits, b: Option<Bucket>, calls: seq<Call>, k: nat)
    requires k < |calls|
  {
    Admits(l, Unexpired(AfterExpiring(l, b, calls[..k]), calls[k].now), calls[k])
  }

  predicate RefillsWithinTtl(l: Limits) { Capacity(l) <= 60 * l.perMinute }

  lemma IdleBucketIsFull(l: Limits, b: Option<Bucket>, now: real)
    requires RefillsWithinTtl(l) && InRange(l, b)
    ensures Level(l, Unexpired(b, now), now) == Level(l, b, now)
  {
    if b.Some? && now - b.value.at >= KEY_TTL {
      GainGrows(l, b.value.at, b.value.at + KEY_TTL, now);
      assert Gain(l, b.value.at, b.value.at + KEY_TTL) == 60.0 * l.perMinute as real;
    }
  }

  predicate ExpiryInvisible(l: Limits, calls: seq<Call>) {
    forall k | 0 <= k < |calls| :: ExpiringDecision(l, None, calls, k) == Decision(l, None, calls, k)
  }

  lemma {:induction false} ExpiryChangesNothing(l: Limits, calls: seq<Call>)
    requires RefillsWithinTtl(l) && Monotone(calls)
    ensures AfterExpiring(l, None, calls) == After(l, None, calls)
    decreases |calls|
  {
    if calls != [] {
      var n := |calls| - 1;
      ExpiryChangesNothing(l, calls[..n]);
      LevelStaysInRange(l, None, calls[..n]);
      IdleBucketIsFull(l, After(l, None, calls[..n]), calls[n].now);
    }
  }

  lemma ExpiryIsInvisible(l: Limits, calls: seq<Call>)
    requires RefillsWithinTtl(l) && Monotone(calls)
    ensures ExpiryInvisible(l, calls)
  {
    forall k | 0 <= k < |calls| ensures ExpiringDecision(l, None, calls, k) == Decision(l, None, calls, k) {
      ExpiryChangesNothing(l, calls[..k]);
      LevelStaysInRange(l, None, calls[..k]);
      IdleBucketIsFull(l, After(l, None, calls[..k]), calls[k].now);
    }
  }

  /** A burst that an hour cannot refill shows the expiry. */
  lemma ExpiryShows(l: Limits)
    requires !RefillsWithinTtl(l)
    ensures var calls := [Call(0.0, Capacity(l)), Call(KEY_TTL, Capacity(l))];
      Monotone(calls) && !ExpiryInvisible(l, calls)
  {
    var c0, c1 := Call(0.0, Capacity(l)), Call(KEY_TTL, Capacity(l));
    var calls := [c0, c1];
    assert calls[..1] == [c0] && calls[..1][..0] == [];
    assert After(l, None, calls[..1]) == Some(Bucket(0.0, 0.0));
    assert AfterExpiring(l, None, calls[..1]) == Some(Bucket(0.0, 0.0));
    assert Gain(l, 0.0, KEY_TTL) == 60.0 * l.perMinute as real;
    assert ExpiringDecision(l, None, calls, 1) && !Decision(l, None, calls, 1);
  }

  /** Deleting idle keys changes no decision of any history exactly when the burst refills
      within the key's lifetime. */
  lemma ExpiryInvisibleIff(l: Limits)
    ensures (forall calls | Monotone(calls) :: ExpiryInvisible(l, calls)) <==> RefillsWithinTtl(l)
  {
    if RefillsWithinTtl(l) {
      forall calls | Monotone(calls) ensures ExpiryInvisible(l, calls) { ExpiryIsInvisible(l, calls); }
    } else {
      ExpiryShows(l);
    }
  }

  /** Tokens admitted by the calls from `i` up to the last, with idle keys deleted. */
  function AdmittedExpiring(l: Limits, b: Option<Bucket>, calls: seq<Call>, i: nat): nat {
    if |calls| <= i then 0
    else
      var n := |calls| - 1;
      AdmittedExpiring(l, b, calls[..n], i)
      + Admitted(l, Unexpired(AfterExpiring(l, b, calls[..n]), calls[n].now), calls[n])
  }

  lemma {:induction false} SameAdmitted(l: Limits, calls: seq<Call>, i: nat)
    requires RefillsWithinTtl(l) && Monotone(calls)
    ensures AdmittedExpiring(l, None, calls, i) == AdmittedSince(l, None, calls, i)
    decreases |calls|
  {
    if |calls| > i {
      var n := |calls| - 1;
      SameAdmitted(l, calls[..n], i);
      ExpiryChangesNothing(l, calls[..n]);
      LevelStaysInRange(l, None, calls[..n]);
      IdleBucketIsFull(l, After(l, None, calls[..n]), calls[n].now);
    }
  }

  /** The window bound for the script with its key expiry. */
  predicate WindowsBounded(l: Limits, calls: seq<Call>) {
    forall i, j | 0 <= i <= j < |calls| && ExpiringDecision(l, None, calls, j) ::
      AdmittedExpiring(l, None, calls[..j + 1], i) as real <= Capacity(l) as real + Gain(l, calls[i].now, calls[j].now)
  }

  lemma WindowsAreBounded(l: Limits, calls: seq<Call>)
    requires RefillsWithinTtl(l) && Monotone(calls)
    ensures WindowsBounded(l, calls)
  {
    ExpiryIsInvisible(l, calls);
    forall i, j | 0 <= i <= j < |calls| && ExpiringDecision(l, None, calls, j)
      ensures AdmittedExpiring(l, None, calls[..j + 1], i) as real
              <= Capacity(l) as real + Gain(l, calls[i].now, calls[j].now)
    {
      SameAdmitted(l, calls[..j + 1], i);
      WindowBound(l, None, calls, i, j);
    }
  }

  /** Emptying the bucket twice, an hour apart, admits more than an hour refills. */
  lemma ExpiryBreaksWindow(l: Limits)
    requires !RefillsWithinTtl(l)
    ensures var calls := [Call(0.0, Capacity(l)), Call(KEY_TTL, Capacity(l))];
      Monotone(calls) && !WindowsBounded(l, calls)
  {
    var c0, c1 := Call(0.0, Capacity(l)), Call(KEY_TTL, Capacity(l));
    var calls := [c0, c1];
    FirstCallAdmitted(l, c0);
    assert calls[..1] == [c0] && calls[..2] == calls;
    assert Gain(l, 0.0, KEY_TTL) == 60.0 * l.perMinute as real;
    assert AdmittedExpiring(l, None, calls, 0) == 2 * Capacity(l);
    assert ExpiringDecision(l, None, calls, 1);
    var bound := Capacity(l) as real + Gain(l, calls[0].now, calls[1].now);
    assert AdmittedExpiring(l, None, calls[..1 + 1], 0) as real > bound;
  }

  lemma FirstCallAdmitted(l: Limits, c: Call)
    requires c == Call(0.0, Capacity(l))
    ensures AfterExpiring(l, None, [c]) == Some(Bucket(0.0, 0.0)) && AdmittedExpiring(l, None, [c], 0) == Capacity(l)
  {
    assert [c][..0] == [];
  }

  /** With forward clocks the window bound holds for the expiring key, over every history, exactly
      when the burst refills within the key's lifetime. */
  lemma WindowBoundIff(l: Limits)
    ensures (forall calls | Monotone(calls) :: WindowsBounded(l, calls)) <==> RefillsWithinTtl(l)
  {
    if RefillsWithinTtl(l) {
      forall calls | Monotone(calls) ensures WindowsBounded(l, calls) { WindowsAreBounded(l, calls); }
    } else {
      ExpiryBreaksWindow(l);
    }
  }

  // ---------------------------------------------------------------- whole histories on any clock

  /** The clock reading of the last call that took tokens. */
  function LastTaken(l: Limits, b: Option<Bucket>, calls: seq<Call>): real
    requires AdmittedSince(l, b, calls, 0) > 0
  {
    var n := |calls| - 1;
    if Admitted(l, After(l, b, calls[..n]), calls[n]) > 0 then calls[n].now else LastTaken(l, b, calls[..n])
  }

  /** What a single bucket can admit over a history: its capacity, and the refill between the
      first call and the last one that took tokens. */
  function Allowance(l: Limits, b: Option<Bucket>, calls: seq<Call>): real {
    if AdmittedSince(l, b, calls, 0) == 0 then 0.0
    else Capacity(l) as real + Gain(l, calls[0].now, LastTaken(l, b, calls))
  }

  lemma {:induction false} AllowanceHolds(l: Limits, b: Option<Bucket>, calls: seq<Call>)
    ensures AdmittedSince(l, b, calls, 0) as real <= Allowance(l, b, calls)
    decreases |calls|
  {
    if calls != [] {
      var n := |calls| - 1;
      if Admitted(l, After(l, b, calls[..n]), calls[n]) > 0 {
        assert calls[..n + 1] == calls;
        WindowBound(l, b, calls, 0, n);
      } else {
        AllowanceHolds(l, b, calls[..n]);
      }
    }
  }

  // ---------------------------------------------------------------- retry-after

  predicate AllRefused(l: Limits, b: Option<Bucket>, calls: seq<Call>) {
    forall k | 0 <= k < |calls| :: !Decision(l, b, calls, k)
  }

  lemma RefusedLevel(l: Limits, b: Bucket, c: Call, t: real)
    requires b.tokens <= Capacity(l) as real && b.at <= c.now <= t && !Admits(l, Some(b), c)
    ensures Level(l, Some(Take(l, Some(b), c)), t) == Level(l, Some(b), t)
    ensures Take(l, Some(b), c).tokens <= Capacity(l) as real
  {
    GainGrows(l, c.now, c.now, t);
    GainGrows(l, b.at, b.at, c.now);
    GainSplits(l, b.at, c.now, t);
  }

  /** Refused calls take nothing: the level later is what it would be without them. */
  lemma {:induction false} RefusalsLeaveLevel(l: Limits, b: Bucket, calls: seq<Call>, t: real)
    requires b.tokens <= Capacity(l) as real && Monotone(calls) && AllRefused(l, Some(b), calls)
    requires forall c | c in calls :: b.at <= c.now <= t
    ensures Level(l, After(l, Some(b), calls), t) == Level(l, Some(b), t)
    ensures After(l, Some(b), calls).Some? && After(l, Some(b), calls).value.tokens <= Capacity(l) as real
    ensures After(l, Some(b), calls).value.at == if calls == [] then b.at else calls[|calls| - 1].now
    decreases |calls|
  {
    if calls != [] {
      var n := |calls| - 1;
      var init := calls[..n];
      forall k | 0 <= k < n ensures !Decision(l, Some(b), init, k) {
        assert init[..k] == calls[..k] && !Decision(l, Some(b), calls, k);
      }
      RefusalsLeaveLevel(l, b, init, t);
      assert calls[n] in calls && !Decision(l, Some(b), calls, n);
      RefusedLevel(l, After(l, Some(b), init).value, calls[n], t);
    }
  }

  lemma CeilBounds(q: real, n: int)
    ensures n as real >= q <==> n >= Ceil(q)
    ensures Ceil(q) <= q.Floor + 1 <= Ceil(q) + 1
  {}

  lemma QuotientTimes(x: real, y: real)
    requires y > 0.0
    ensures x / y * y == x
  {}

  lemma Shrinks(r: real, a: real, b: real)
    requires r > 0.0 && a < b
    ensures a * r < b * r
  {}

  lemma CoversIff(x: real, y: real, q: real, n: real)
    requires y > 0.0 && q * y == x
    ensures n * y >= x <==> n >= q
  {
    if n >= q { Scaled(y, q, n); } else { Shrinks(y, n, q); }
  }

  lemma CeilIsLeast(x: real, y: real, n: int)
    requires y > 0.0
    ensures n as real * y >= x <==> n >= Ceil(x / y)
    ensures Ceil(x / y) <= (x / y).Floor + 1 <= Ceil(x / y) + 1
  {
    QuotientTimes(x, y);
    CoversIff(x, y, x / y, n as real);
    CeilBounds(x / y, n);
  }

  /** Right after a refusal, and ignoring the cap, the script's hint is the first whole second
      at which the refill covers the request. */
  lemma HintIsLeast(l: Limits, b: Option<Bucket>, c: Call, n: nat)
    requires Refill(l) > 0.0 && !Admits(l, b, c)
    ensures Level(l, b, c.now) + Gain(l, c.now, c.now + n as real) >= c.requested as real <==> n >= ScriptRetry(l, b, c)
  {
    CeilIsLeast(c.requested as real - Level(l, b, c.now), Refill(l), n);
  }

  lemma HintsAreClose(l: Limits, b: Option<Bucket>, c: Call)
    requires Refill(l) > 0.0 && !Admits(l, b, c)
    ensures 1 <= ScriptRetry(l, b, c) <= MemoryRetry(l, b, c) <= ScriptRetry(l, b, c) + 1
  {
    CeilIsLeast(c.requested as real - Level(l, b, c.now), Refill(l), 0);
  }

  /** After a refusal, a request no larger than the capacity is admitted `n` whole seconds
      later, with only refusals in between, exactly when `n` is at least the script's hint. */
  lemma RetryAfterIsExact(l: Limits, b: Option<Bucket>, c: Call, between: seq<Call>, n: nat)
    requires Refill(l) > 0.0 && c.requested <= Capacity(l) && !Admits(l, b, c)
    requires Monotone(between) && AllRefused(l, Some(Take(l, b, c)), between)
    requires forall x | x in between :: c.now <= x.now <= c.now + n as real
    ensures Admits(l, After(l, Some(Take(l, b, c)), between), Call(c.now + n as real, c.requested))
            <==> n >= ScriptRetry(l, b, c)
  {
    RefusalsLeaveLevel(l, Take(l, b, c), between, c.now + n as real);
    HintIsLeast(l, b, c, n);
  }

  /** Either hint, once waited for, is enough. */
  lemma WaitingIsEnough(l: Limits, b: Option<Bucket>, c: Call, between: seq<Call>, hint: nat)
    requires Refill(l) > 0.0 && c.requested <= Capacity(l) && !Admits(l, b, c)
    requires hint == ScriptRetry(l, b, c) || hint == MemoryRetry(l, b, c)
    requires Monotone(between) && AllRefused(l, Some(Take(l, b, c)), between)
    requires forall x | x in between :: c.now <= x.now <= c.now + hint as real
    ensures Admits(l, After(l, Some(Take(l, b, c)), between), Call(c.now + hint as real, c.requested))
  {
    HintsAreClose(l, b, c);
    RetryAfterIsExact(l, b, c, between, hint);
  }
}
