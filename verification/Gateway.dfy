/** Per-user rate limiting at the edge: one shared bucket per (tier, user), and a bucket of the
    replica's own while the shared one cannot be reached. */
module Gateway {
  import opened Common
  import opened TokenBucket

  datatype Tier = Llm | Standard

  datatype Rates = Rates(standard: nat, llm: nat)

  function Name(t: Tier): string { if t.Llm? then "llm" else "standard" }

  function LimitsOf(rates: Rates, t: Tier): Limits { Limits(if t.Llm? then rates.llm else rates.standard, None) }

  predicate Contains(text: string, part: string) {
    exists i | 0 <= i <= |text| :: part <= text[i..]
  }

  function TierFor(path: string): Tier {
    if Contains(path, "/assistant") || Contains(path, "/insights/summary") then Llm else Standard
  }

  lemma ContainsIff(text: string, part: string)
    ensures Contains(text, part) <==> exists a, b :: text == a + part + b
  {
    if i :| 0 <= i <= |text| && part <= text[i..] {
      assert text == text[..i] + part + text[i + |part|..];
    }
    if a, b :| text == a + part + b {
      assert text[|a|..] == part + b;
    }
  }

  /** Requests to the assistant and to the insights summary spend the model's rate, all others the
      standard one: so many of them pass at one instant while the user's bucket is fresh. */
  lemma RateByPath(rates: Rates, path: string, now: real, n: nat)
    ensures var rate := if exists a, b :: path == a + "/assistant" + b || path == a + "/insights/summary" + b
                        then rates.llm else rates.standard;
      AdmittedSince(LimitsOf(rates, TierFor(path)), None, AtOnce(now, n), 0) == if n <= rate then n else rate
  {
    ContainsIff(path, "/assistant");
    ContainsIff(path, "/insights/summary");
    BurstIsConfigured(rates.llm, None, now, n);
    BurstIsConfigured(rates.standard, None, now, n);
  }

  function Prefix(t: Tier): string { "ratelimit:" + Name(t) + ":" }

  function KeyOf(t: Tier, user: string): string { Prefix(t) + user }

  predicate BelongsTo(key: string, t: Tier) { Prefix(t) <= key }

  lemma OneTierPerKey(key: string, a: Tier, b: Tier)
    requires BelongsTo(key, a) && BelongsTo(key, b)
    ensures a == b
  {
    assert Prefix(a)[10] == key[10] == Prefix(b)[10];
  }

  /** No two (tier, user) pairs share a bucket. */
  lemma KeysAreDistinct(a: Tier, u: string, b: Tier, v: string)
    requires KeyOf(a, u) == KeyOf(b, v)
    ensures a == b && u == v
  {
    OneTierPerKey(KeyOf(a, u), a, b);
    assert u == KeyOf(a, u)[|Prefix(a)|..];
  }

  // ---------------------------------------------------------------- one key's two buckets

  datatype KeyState = KeyState(shared: Option<Hash>, own: Option<Bucket>)

  /** A request on a key, by this replica (`mine`) or by another one, with the clocks it reads:
      the caller's wall clock, the server's clock and this replica's monotonic clock. */
  datatype Access = Access(mine: bool, wall: real, server: real, mono: real, network: Network)

  predicate TakesShared(a: Access) { !a.network.Refuses? }

  predicate TakesOwn(a: Access) { a.mine && !a.network.Answers? }

  function AtWall(a: Access): Call { Call(a.wall, 1) }

  function AtMono(a: Access): Call { Call(a.mono, 1) }

  function KeyStep(l: Limits, k: KeyState, a: Access): KeyState {
    KeyState(
      if TakesShared(a) then Some(Hash(Take(l, Live(k.shared, a.server), AtWall(a)), a.server + KEY_TTL)) else k.shared,
      if TakesOwn(a) then Some(Take(l, k.own, AtMono(a))) else k.own)
  }

  /** What the caller is told: the shared bucket's verdict when it answers, else the replica's. */
  function Verdict(l: Limits, k: KeyState, a: Access): Reply {
    if a.network.Answers?
    then Reply(Admits(l, Live(k.shared, a.server), AtWall(a)), ScriptRetry(l, Live(k.shared, a.server), AtWall(a)))
    else Reply(Admits(l, k.own, AtMono(a)), MemoryRetry(l, k.own, AtMono(a)))
  }

  // ---------------------------------------------------------------- the limiter

  class UserRateLimiter {
    const rates: Rates
    const redis: RedisServer?
    var local: map<string, InMemoryRateLimiter>
    var degraded: bool

    constructor (rates: Rates, redis: RedisServer?)
      ensures Valid() && this.rates == rates && this.redis == redis && local == map[] && !degraded
    {
      this.rates, this.redis, local, degraded := rates, redis, map[], false;
    }

    /** Every key has a bucket object of its own, made with its tier's rate. */
    ghost predicate Valid()
      reads this
    {
      && (forall j, k | j in local && k in local && local[j] == local[k] :: j == k)
      && (forall k | k in local :: forall t | BelongsTo(k, t) :: local[k].limits == LimitsOf(rates, t))
    }

    ghost function View(key: string): KeyState
      reads this, redis, local.Values
    {
      KeyState(if redis == null then None else Lookup(redis.hashes, key),
               if key in local then Some(local[key].State()) else None)
    }

    method LocalBucket(key: string, tier: Tier, created: real) returns (b: InMemoryRateLimiter)
      requires Valid() && BelongsTo(key, tier)
      modifies this`local
      ensures Valid() && key in local && local[key] == b && local.Keys == old(local).Keys + {key}
      ensures forall k | k in old(local) :: local[k] == old(local)[k]
      ensures key !in old(local) ==> fresh(b) && b.State() == Bucket(Capacity(b.limits) as real, created)
    {
      if key !in local {
        var made := new InMemoryRateLimiter(LimitsOf(rates, tier), created);
        forall t | BelongsTo(key, t) ensures made.limits == LimitsOf(rates, t) { OneTierPerKey(key, tier, t); }
        local := local[key := made];
      }
      b := local[key];
    }

    method AcquireLocal(key: string, tier: Tier, a: Access, created: real) returns (r: Reply)
      requires Valid() && BelongsTo(key, tier) && created <= a.mono
      modifies this`local, local.Values
      ensures Valid() && (forall k | k in old(local) :: k in local && local[k] == old(local)[k])
      ensures local.Keys == old(local).Keys + {key}
      ensures View(key)
              == KeyState(old(View(key)).shared, Some(Take(LimitsOf(rates, tier), old(View(key)).own, AtMono(a))))
      ensures forall k | k != key :: View(k) == old(View(k))
      ensures r == Reply(Admits(LimitsOf(rates, tier), old(View(key)).own, AtMono(a)),
                         MemoryRetry(LimitsOf(rates, tier), old(View(key)).own, AtMono(a)))
    {
      var b := LocalBucket(key, tier, created);
      GainGrows(b.limits, created, created, a.mono);
      r := b.Acquire(AtMono(a));
    }

    method AcquireShared(key: string, tier: Tier, a: Access) returns (r: Outcome<Reply>)
      requires Valid() && redis != null
      modifies redis
      ensures View(key) == KeyStep(LimitsOf(rates, tier), old(View(key)), a.(mine := false))
      ensures forall k | k != key :: View(k) == old(View(k))
      ensures r == if a.network.Answers? then Success(Verdict(LimitsOf(rates, tier), old(View(key)), a))
              else Unavailable
    {
      var shared := new TokenBucketRateLimiter(redis, key, LimitsOf(rates, tier), false);
      r := shared.Acquire(AtWall(a), a.server, a.network);
    }

    /** One request on one key: that key's two buckets move as the step function says, and no
        other key's do. */
    method Acquire(key: string, tier: Tier, a: Access, created: real) returns (r: Reply)
      requires Valid() && BelongsTo(key, tier) && a.mine && created <= a.mono
      requires redis == null ==> a.network.Refuses?
      modifies this, redis, local.Values
      ensures Valid() && (forall k | k in old(local) :: k in local && local[k] == old(local)[k])
      ensures View(key) == KeyStep(LimitsOf(rates, tier), old(View(key)), a)
      ensures r == Verdict(LimitsOf(rates, tier), old(View(key)), a)
      ensures forall k | k != key :: View(k) == old(View(k))
      ensures degraded == if redis == null then old(degraded) else !a.network.Answers?
    {
      if redis != null {
        var result := AcquireShared(key, tier, a);
        if result.Success? {
          if degraded { degraded := false; }
          return result.value;
        }
        if !degraded { degraded := true; }
      }
      r := AcquireLocal(key, tier, a, created);
    }

    /** None lets the request through; Some is the rate-limit error with its retry hint. */
    method Check(user: string, path: string, a: Access, created: real) returns (r: Option<int>)
      requires Valid() && a.mine && created <= a.mono && (redis == null ==> a.network.Refuses?)
      modifies this, redis, local.Values
      ensures Valid()
      ensures var tier := TierFor(path);
        && View(KeyOf(tier, user)) == KeyStep(LimitsOf(rates, tier), old(View(KeyOf(tier, user))), a)
        && var verdict := Verdict(LimitsOf(rates, tier), old(View(KeyOf(tier, user))), a);
           r == if verdict.allowed then None else Some(verdict.retryAfter)
      ensures forall t, u | (t, u) != (TierFor(path), user) :: View(KeyOf(t, u)) == old(View(KeyOf(t, u)))
    {
      var tier := TierFor(path);
      var key := KeyOf(tier, user);
      forall t, u | (t, u) != (tier, user) ensures KeyOf(t, u) != key {
        if KeyOf(t, u) == key { KeysAreDistinct(t, u, tier, user); }
      }
      var reply := Acquire(key, tier, a, created);
      r := if reply.allowed then None else Some(reply.retryAfter);
    }
  }

  // ---------------------------------------------------------------- all keys together

  datatype Request = Request(key: string, access: Access)

  type World = map<string, KeyState>

  function At(w: World, key: string): KeyState { if key in w then w[key] else KeyState(None, None) }

  function WorldAfter(limits: string -> Limits, w: World, run: seq<Request>): World {
    if run == [] then w
    else
      var n := |run| - 1;
      var before := WorldAfter(limits, w, run[..n]);
      before[run[n].key := KeyStep(limits(run[n].key), At(before, run[n].key), run[n].access)]
  }

  /** The verdicts one key's callers got, in order. */
  function VerdictsOn(limits: string -> Limits, w: World, run: seq<Request>, key: string): seq<Reply> {
    if run == [] then []
    else
      var n := |run| - 1;
      VerdictsOn(limits, w, run[..n], key)
      + if run[n].key == key then [Verdict(limits(key), At(WorldAfter(limits, w, run[..n]), key), run[n].access)]
        else []
  }

  function Only(run: seq<Request>, key: string): seq<Access> {
    if run == [] then []
    else Only(run[..|run| - 1], key) + if run[|run| - 1].key == key then [run[|run| - 1].access] else []
  }

  function KeyAfter(l: Limits, k: KeyState, run: seq<Access>): KeyState {
    if run == [] then k else KeyStep(l, KeyAfter(l, k, run[..|run| - 1]), run[|run| - 1])
  }

  function Verdicts(l: Limits, k: KeyState, run: seq<Access>): seq<Reply> {
    if run == [] then []
    else
      var n := |run| - 1;
      Verdicts(l, k, run[..n]) + [Verdict(l, KeyAfter(l, k, run[..n]), run[n])]
  }

  lemma OneMoreAccess(l: Limits, k: KeyState, run: seq<Access>, a: Access)
    ensures KeyAfter(l, k, run + [a]) == KeyStep(l, KeyAfter(l, k, run), a)
    ensures Verdicts(l, k, run + [a]) == Verdicts(l, k, run) + [Verdict(l, KeyAfter(l, k, run), a)]
  {
    assert (run + [a])[..|run|] == run;
  }

  /** Isolation: what one key's callers are told is what they would be told had no other key
      ever been used. */
  lemma {:induction false} KeysAreIsolated(limits: string -> Limits, w: World, run: seq<Request>, key: string)
    ensures At(WorldAfter(limits, w, run), key) == KeyAfter(limits(key), At(w, key), Only(run, key))
    ensures VerdictsOn(limits, w, run, key) == Verdicts(limits(key), At(w, key), Only(run, key))
    decreases |run|
  {
    if run != [] {
      var n := |run| - 1;
      KeysAreIsolated(limits, w, run[..n], key);
      if run[n].key == key {
        assert Only(run, key) == Only(run[..n], key) + [run[n].access];
        OneMoreAccess(limits(key), At(w, key), Only(run[..n], key), run[n].access);
      } else {
        assert Only(run, key) == Only(run[..n], key);
      }
    }
  }

  // ---------------------------------------------------------------- the degraded bound

  /** Requests this replica let through. */
  function LetThrough(l: Limits, k: KeyState, run: seq<Access>): nat {
    if run == [] then 0
    else
      var n := |run| - 1;
      LetThrough(l, k, run[..n])
      + if run[n].mine && Verdict(l, KeyAfter(l, k, run[..n]), run[n]).allowed then 1 else 0
  }

  function SharedTaken(l: Limits, k: KeyState, a: Access): nat {
    if TakesShared(a) then Admitted(l, Live(k.shared, a.server), AtWall(a)) else 0
  }

  function OwnTaken(l: Limits, k: KeyState, a: Access): nat {
    if TakesOwn(a) then Admitted(l, k.own, AtMono(a)) else 0
  }

  /** Tokens taken from the shared bucket, by any replica. */
  function AllSharedTaken(l: Limits, k: KeyState, run: seq<Access>): nat {
    if run == [] then 0
    else
      var n := |run| - 1;
      AllSharedTaken(l, k, run[..n]) + SharedTaken(l, KeyAfter(l, k, run[..n]), run[n])
  }

  function AllOwnTaken(l: Limits, k: KeyState, run: seq<Access>): nat {
    if run == [] then 0
    else
      var n := |run| - 1;
      AllOwnTaken(l, k, run[..n]) + OwnTaken(l, KeyAfter(l, k, run[..n]), run[n])
  }

  /** Both clocks run forward and the servers agree on the time. */
  predicate SteadyClocks(run: seq<Access>) {
    && (forall a | a in run :: a.server == a.wall)
    && (forall i, j | 0 <= i < j < |run| :: run[i].wall <= run[j].wall && run[i].mono <= run[j].mono)
  }

  predicate SharedOk(l: Limits, h: Option<Hash>, wall: real) {
    h.Some? ==>
      && InRange(l, Some(h.value.bucket)) && h.value.bucket.at <= wall
      && h.value.expires == h.value.bucket.at + KEY_TTL
  }

  predicate OwnOk(l: Limits, b: Option<Bucket>, mono: real) { InRange(l, b) && NotBefore(b, mono) }

  predicate StateOk(l: Limits, k: KeyState, wall: real, mono: real) {
    SharedOk(l, k.shared, wall) && OwnOk(l, k.own, mono)
  }

  lemma LevelGains(l: Limits, b: Option<Bucket>, t: real, u: real)
    requires OwnOk(l, b, t) && t <= u
    ensures Level(l, b, u) <= Level(l, b, t) + Gain(l, t, u)
  {
    GainGrows(l, t, t, u);
    if b.Some? { GainSplits(l, b.value.at, t, u); }
  }

  /** An idle hash is full before it expires, so expiry never shows. */
  lemma LiveLevel(l: Limits, h: Option<Hash>, t: real)
    requires l.burst.None? && SharedOk(l, h, t)
    ensures Level(l, Live(h, t), t) == Level(l, if h.Some? then Some(h.value.bucket) else None, t)
    ensures OwnOk(l, Live(h, t), t)
  {
    if h.Some? { IdleBucketIsFull(l, Some(h.value.bucket), t); }
  }

  lemma TakeSpends(l: Limits, b: Option<Bucket>, c: Call)
    requires OwnOk(l, b, c.now)
    ensures OwnOk(l, Some(Take(l, b, c)), c.now)
    ensures Level(l, Some(Take(l, b, c)), c.now) + Admitted(l, b, c) as real == Level(l, b, c.now)
  {
    TakeInRange(l, b, c);
    assert Gain(l, c.now, c.now) == 0.0;
  }

  lemma OwnSpends(l: Limits, b: Option<Bucket>, a: Access, was: real)
    requires OwnOk(l, b, was) && was <= a.mono
    ensures var b' := if TakesOwn(a) then Some(Take(l, b, AtMono(a))) else b;
      && OwnOk(l, b', a.mono)
      && Level(l, b', a.mono) + (if TakesOwn(a) then Admitted(l, b, AtMono(a)) else 0) as real
         <= Level(l, b, was) + Gain(l, was, a.mono)
  {
    LevelGains(l, b, was, a.mono);
    if TakesOwn(a) { TakeSpends(l, b, AtMono(a)); }
  }

  function Held(h: Option<Hash>): Option<Bucket> { if h.Some? then Some(h.value.bucket) else None }

  lemma SharedSpends(l: Limits, k: KeyState, a: Access, was: real)
    requires l.burst.None? && SharedOk(l, k.shared, was) && was <= a.wall && a.server == a.wall
    ensures var k' := KeyStep(l, k, a);
      && SharedOk(l, k'.shared, a.wall)
      && Level(l, Held(k'.shared), a.wall) + SharedTaken(l, k, a) as real
        <= Level(l, Held(k.shared), was) + Gain(l, was, a.wall)
  {
    LevelGains(l, Held(k.shared), was, a.wall);
    LiveLevel(l, k.shared, a.wall);
    if TakesShared(a) { TakeSpends(l, Live(k.shared, a.wall), AtWall(a)); }
  }

  lemma {:induction false} SharedBound(l: Limits, k: KeyState, run: seq<Access>)
    requires l.burst.None? && run != [] && SteadyClocks(run) && SharedOk(l, k.shared, run[0].wall)
    ensures var last := run[|run| - 1].wall; var h := KeyAfter(l, k, run).shared;
      && SharedOk(l, h, last)
      && Level(l, Held(h), last) + AllSharedTaken(l, k, run) as real <= Capacity(l) as real + Gain(l, run[0].wall, last)
    decreases |run|
  {
    var n := |run| - 1;
    assert run[n] in run;
    if n == 0 {
      assert run[..0] == [] && Gain(l, run[0].wall, run[0].wall) == 0.0;
      SharedSpends(l, k, run[0], run[0].wall);
    } else {
      assert forall a | a in run[..n] :: a in run;
      SharedBound(l, k, run[..n]);
      SharedSpends(l, KeyAfter(l, k, run[..n]), run[n], run[n - 1].wall);
      GainSplits(l, run[0].wall, run[n - 1].wall, run[n].wall);
    }
  }

  lemma {:induction false} OwnBound(l: Limits, k: KeyState, run: seq<Access>)
    requires run != [] && SteadyClocks(run) && OwnOk(l, k.own, run[0].mono)
    ensures var last := run[|run| - 1].mono; var b := KeyAfter(l, k, run).own;
      && OwnOk(l, b, last)
      && Level(l, b, last) + AllOwnTaken(l, k, run) as real <= Capacity(l) as real + Gain(l, run[0].mono, last)
    decreases |run|
  {
    var n := |run| - 1;
    if n == 0 {
      assert run[..0] == [] && Gain(l, run[0].mono, run[0].mono) == 0.0;
      OwnSpends(l, k.own, run[0], run[0].mono);
    } else {
      assert forall a | a in run[..n] :: a in run;
      OwnBound(l, k, run[..n]);
      OwnSpends(l, KeyAfter(l, k, run[..n]).own, run[n], run[n - 1].mono);
      GainSplits(l, run[0].mono, run[n - 1].mono, run[n].mono);
    }
  }

  lemma {:induction false} LetThroughIsPaid(l: Limits, k: KeyState, run: seq<Access>)
    ensures LetThrough(l, k, run) <= AllSharedTaken(l, k, run) + AllOwnTaken(l, k, run)
    decreases |run|
  {
    if run != [] { LetThroughIsPaid(l, k, run[..|run| - 1]); }
  }

  lemma NotNegative(l: Limits, b: Option<Bucket>, t: real)
    requires OwnOk(l, b, t)
    ensures Level(l, b, t) >= 0.0
  {
    if b.Some? { GainGrows(l, b.value.at, b.value.at, t); }
  }

  /** However Redis flaps, one replica lets through, per (tier, user) and over any stretch of
      time, at most what two single buckets would: one shared, one of its own. */
  lemma FlappingBound(l: Limits, k: KeyState, run: seq<Access>)
    requires l.burst.None? && run != [] && SteadyClocks(run) && StateOk(l, k, run[0].wall, run[0].mono)
    ensures var last := run[|run| - 1];
      LetThrough(l, k, run) as real
      <= (Capacity(l) as real + Gain(l, run[0].wall, last.wall))
         + (Capacity(l) as real + Gain(l, run[0].mono, last.mono))
  {
    SharedBound(l, k, run);
    OwnBound(l, k, run);
    LetThroughIsPaid(l, k, run);
    NotNegative(l, KeyAfter(l, k, run).own, run[|run| - 1].mono);
    NotNegative(l, Held(KeyAfter(l, k, run).shared), run[|run| - 1].wall);
  }

  /** Such a state is what every run of steady requests leaves behind, from nothing. */
  lemma StateStaysOk(l: Limits, run: seq<Access>)
    requires l.burst.None? && run != [] && SteadyClocks(run)
    ensures StateOk(l, KeyAfter(l, KeyState(None, None), run), run[|run| - 1].wall, run[|run| - 1].mono)
  {
    SharedBound(l, KeyState(None, None), run);
    OwnBound(l, KeyState(None, None), run);
  }

  // ---------------------------------------------------------------- the same without steady clocks

  /** The calls each of the two buckets gets. */
  function SharedCalls(run: seq<Access>): seq<Call> {
    if run == [] then []
    else SharedCalls(run[..|run| - 1]) + if TakesShared(run[|run| - 1]) then [AtWall(run[|run| - 1])] else []
  }

  function OwnCalls(run: seq<Access>): seq<Call> {
    if run == [] then []
    else OwnCalls(run[..|run| - 1]) + if TakesOwn(run[|run| - 1]) then [AtMono(run[|run| - 1])] else []
  }

  /** At every access the shared hash, if there is one, has not expired. */
  predicate NeverExpires(l: Limits, k: KeyState, run: seq<Access>) {
    run == []
    || (NeverExpires(l, k, run[..|run| - 1])
        && var h := KeyAfter(l, k, run[..|run| - 1]).shared; h.Some? ==> run[|run| - 1].server < h.value.expires)
  }

  lemma OneMoreCall(l: Limits, b: Option<Bucket>, calls: seq<Call>, c: Call)
    ensures After(l, b, calls + [c]) == Some(Take(l, After(l, b, calls), c))
    ensures AdmittedSince(l, b, calls + [c], 0) == AdmittedSince(l, b, calls, 0) + Admitted(l, After(l, b, calls), c)
  {
    assert (calls + [c])[..|calls|] == calls;
  }

  lemma {:induction false} SharedHistory(l: Limits, k: KeyState, run: seq<Access>)
    requires NeverExpires(l, k, run)
    ensures Held(KeyAfter(l, k, run).shared) == After(l, Held(k.shared), SharedCalls(run))
    ensures AllSharedTaken(l, k, run) == AdmittedSince(l, Held(k.shared), SharedCalls(run), 0)
    decreases |run|
  {
    if run != [] {
      var init, a := run[..|run| - 1], run[|run| - 1];
      SharedHistory(l, k, init);
      if TakesShared(a) {
        OneMoreCall(l, Held(k.shared), SharedCalls(init), AtWall(a));
      } else {
        assert SharedCalls(run) == SharedCalls(init);
      }
    }
  }

  lemma {:induction false} OwnHistory(l: Limits, k: KeyState, run: seq<Access>)
    ensures KeyAfter(l, k, run).own == After(l, k.own, OwnCalls(run))
    ensures AllOwnTaken(l, k, run) == AdmittedSince(l, k.own, OwnCalls(run), 0)
    decreases |run|
  {
    if run != [] {
      var init, a := run[..|run| - 1], run[|run| - 1];
      OwnHistory(l, k, init);
      if TakesOwn(a) {
        OneMoreCall(l, k.own, OwnCalls(init), AtMono(a));
      } else {
        assert OwnCalls(run) == OwnCalls(init);
      }
    }
  }

  /** However Redis flaps and wherever the callers' clocks go, while the key does not expire one
      replica lets through at most the allowances of two single buckets. */
  lemma FlappingBoundOnAnyClock(l: Limits, k: KeyState, run: seq<Access>)
    requires NeverExpires(l, k, run)
    ensures LetThrough(l, k, run) as real
         <= Allowance(l, Held(k.shared), SharedCalls(run)) + Allowance(l, k.own, OwnCalls(run))
  {
    LetThroughIsPaid(l, k, run);
    SharedHistory(l, k, run);
    OwnHistory(l, k, run);
    AllowanceHolds(l, Held(k.shared), SharedCalls(run));
    AllowanceHolds(l, k.own, OwnCalls(run));
  }
}
