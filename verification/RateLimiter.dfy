/** The token buckets that protect model-spending endpoints, with continuous refill, a capped table and
    eviction of idle buckets. Times are whole milliseconds of a clock that never goes back. */
module RateLimiter {

  datatype Bucket = Bucket(tokens: real, lastRefillMs: int)

  type Buckets = map<string, Bucket>

  datatype Config = Config(ratePerSec: real, burst: real, idleTtlMs: real, maxBuckets: real) {
    /** Every setting read from the environment is positive. */
    predicate Valid() { ratePerSec > 0.0 && burst > 0.0 && idleTtlMs > 0.0 && maxBuckets > 0.0 }

    /** Tokens gained in this many milliseconds. */
    function Gain(ms: int): real { (ms as real) / 1000.0 * ratePerSec }

    function Refilled(b: Bucket, now: int): real { Min(burst, b.tokens + Gain(now - b.lastRefillMs)) }

    predicate Evicts(b: Bucket, now: int) { ((now - b.lastRefillMs) as real) > idleTtlMs }

    /** The least idle time after which a sweep evicts. */
    function EvictionMs(): int { idleTtlMs.Floor + 1 }

    /** A bucket has refilled by the time a sweep can evict it. */
    predicate FullWhenEvicted() { Gain(EvictionMs()) >= burst }
  }

  datatype Decision = Granted | Throttled(retryAfterMs: int)

  function Min(a: real, b: real): real { if a <= b then a else b }

  function Ceil(x: real): int { -(-x).Floor }

  // ---- take and sweep on values ----

  /** A new key finds the table full. */
  predicate TurnedAway(c: Config, t: Buckets, key: string) { key !in t && (|t| as real) >= c.maxBuckets }

  function TokensAt(c: Config, t: Buckets, key: string, now: int): real {
    if key in t then c.Refilled(t[key], now) else c.burst
  }

  function Decide(c: Config, t: Buckets, key: string, now: int): Decision
    requires c.Valid()
  {
    var tokens := TokensAt(c, t, key, now);
    if TurnedAway(c, t, key) then Throttled(1000)
    else if tokens >= 1.0 then Granted
    else Throttled(Ceil((1.0 - tokens) / c.ratePerSec * 1000.0))
  }

  function Taken(c: Config, t: Buckets, key: string, now: int): Buckets {
    var tokens := TokensAt(c, t, key, now);
    if TurnedAway(c, t, key) then t
    else t[key := Bucket(if tokens >= 1.0 then tokens - 1.0 else tokens, now)]
  }

  function Swept(c: Config, t: Buckets, now: int): Buckets {
    map k | k in t && !c.Evicts(t[k], now) :: t[k]
  }

  /** The limiter object. */
  class Limiter {
    const config: Config
    var buckets: Buckets

    constructor (config: Config)
      ensures this.config == config && buckets == map[]
    {
      this.config := config;
      buckets := map[];
    }

    method Take(key: string, now: int) returns (d: Decision)
      requires config.Valid()
      modifies this
      ensures buckets == Taken(config, old(buckets), key, now)
      ensures d == Decide(config, old(buckets), key, now)
      ensures key !in old(buckets) && |old(buckets)| as real >= config.maxBuckets ==>
        buckets == old(buckets) && d == Throttled(1000)
      ensures key in old(buckets) || |old(buckets)| as real < config.maxBuckets ==>
        key in buckets && buckets[key].lastRefillMs == now
    {
      var b: Bucket;
      if key !in buckets {
        if (|buckets| as real) >= config.maxBuckets {
          return Throttled(1000);
        }
        b := Bucket(config.burst, now);
      } else {
        b := buckets[key];
        var elapsedSec := ((now - b.lastRefillMs) as real) / 1000.0;
        b := Bucket(Min(config.burst, b.tokens + elapsedSec * config.ratePerSec), now);
      }
      assert b == Bucket(TokensAt(config, buckets, key, now), now);
      buckets := buckets[key := b];
      if b.tokens >= 1.0 {
        buckets := buckets[key := b.(tokens := b.tokens - 1.0)];
        assert buckets == old(buckets)[key := buckets[key]];
        return Granted;
      }
      var need := 1.0 - b.tokens;
      d := Throttled(Ceil(need / config.ratePerSec * 1000.0));
    }

    method Sweep(now: int)
      modifies this
      ensures buckets == Swept(config, old(buckets), now)
    {
      var rest := buckets.Keys;
      while rest != {}
        invariant rest <= buckets.Keys <= old(buckets).Keys
        invariant forall k :: k in buckets ==> buckets[k] == old(buckets)[k]
        invariant forall k :: k in old(buckets) ==>
          (k in buckets <==> k in rest || !config.Evicts(old(buckets)[k], now))
      {
        var k :| k in rest;
        rest := rest - {k};
        if config.Evicts(buckets[k], now) {
          buckets := buckets - {k};
        }
      }
    }
  }

  // ---- Runs ----

  datatype Event = Call(key: string, now: int) | Sweep(now: int)

  function Do(c: Config, t: Buckets, e: Event): Buckets {
    match e
    case Call(key, now) => Taken(c, t, key, now)
    case Sweep(now) => Swept(c, t, now)
  }

  function After(c: Config, t: Buckets, es: seq<Event>): Buckets
    decreases |es|
  {
    if es == [] then t else After(c, Do(c, t, es[0]), es[1..])
  }

  /** The answers to the calls of a run, in order. */
  function Answers(c: Config, t: Buckets, es: seq<Event>): seq<Decision>
    requires c.Valid()
    decreases |es|
  {
    if es == [] then []
    else (if es[0].Call? then [Decide(c, t, es[0].key, es[0].now)] else []) + Answers(c, Do(c, t, es[0]), es[1..])
  }

  predicate Grants(c: Config, t: Buckets, e: Event, key: string)
    requires c.Valid()
  {
    e.Call? && e.key == key && Decide(c, t, key, e.now).Granted?
  }

  /** How many calls with this key are granted. */
  function GrantCount(c: Config, t: Buckets, es: seq<Event>, key: string): nat
    requires c.Valid()
    decreases |es|
  {
    if es == [] then 0
    else (if Grants(c, t, es[0], key) then 1 else 0) + GrantCount(c, Do(c, t, es[0]), es[1..], key)
  }

  predicate Ordered(es: seq<Event>) { forall i, j :: 0 <= i < j < |es| ==> es[i].now <= es[j].now }

  predicate NoEarlier(es: seq<Event>, now: int) { forall i :: 0 <= i < |es| ==> now <= es[i].now }

  predicate NoLater(es: seq<Event>, end: int) { forall i :: 0 <= i < |es| ==> es[i].now <= end }

  /** The times of a run that starts at `now` or later and is over by `end`. */
  predicate Within(es: seq<Event>, now: int, end: int) {
    Ordered(es) && NoEarlier(es, now) && NoLater(es, end) && now <= end
  }

  lemma RestWithin(es: seq<Event>, now: int, end: int)
    requires Within(es, now, end) && es != []
    ensures now <= es[0].now <= end && Within(es[1..], es[0].now, end)
    ensures CallsOnly(es) ==> es[0].Call? && CallsOnly(es[1..])
  {
  }

  lemma WindowWithin(es: seq<Event>, i: nat, j: nat)
    requires Ordered(es) && i < j <= |es|
    ensures Within(es[..i], es[0].now, es[i].now) && Within(es[i..j], es[i].now, es[j - 1].now)
    ensures CallsOnly(es) ==> CallsOnly(es[i..j])
  {
  }

  predicate CallsOnly(es: seq<Event>) { forall i :: 0 <= i < |es| ==> es[i].Call? }

  /** Every bucket holds between no tokens and `burst`, and was filled in the past. */
  predicate Sane(c: Config, t: Buckets, now: int) {
    forall k :: k in t ==> 0.0 <= t[k].tokens <= c.burst && t[k].lastRefillMs <= now
  }

  // ---- Gains ----

  lemma GainAdds(c: Config, a: int, b: int)
    ensures c.Gain(a) + c.Gain(b) == c.Gain(a + b)
  {
    assert ((a + b) as real) / 1000.0 == (a as real) / 1000.0 + (b as real) / 1000.0;
  }

  lemma GainGrows(c: Config, a: int, b: int)
    requires c.Valid() && a <= b
    ensures c.Gain(a) <= c.Gain(b)
  {
    assert (a as real) / 1000.0 <= (b as real) / 1000.0;
  }

  lemma TokensGrow(c: Config, t: Buckets, key: string, now: int, later: int)
    requires c.Valid() && now <= later
    ensures TokensAt(c, t, key, now) <= TokensAt(c, t, key, later) <= TokensAt(c, t, key, now) + c.Gain(later - now)
    ensures TokensAt(c, t, key, later) == Min(c.burst, TokensAt(c, t, key, now) + c.Gain(later - now))
  {
    assert c.Gain(0) == 0.0;
    hide Config.Gain;
    GainGrows(c, 0, later - now);
    if key in t {
      GainAdds(c, now - t[key].lastRefillMs, later - now);
    }
  }

  // ---- One event ----

  lemma StepIsSane(c: Config, t: Buckets, e: Event, now: int)
    requires c.Valid() && Sane(c, t, now) && now <= e.now
    ensures Sane(c, Do(c, t, e), e.now)
  {
    if e.Call? {
      if e.key in t {
        GainGrows(c, 0, e.now - t[e.key].lastRefillMs);
      }
      TokensGrow(c, t, e.key, now, e.now);
    }
  }

  lemma TokensWithin(c: Config, t: Buckets, key: string, now: int)
    requires c.Valid() && Sane(c, t, now)
    ensures 0.0 <= TokensAt(c, t, key, now) <= c.burst
  {
    if key in t {
      GainGrows(c, 0, now - t[key].lastRefillMs);
    }
  }

  /** A granted call costs its key one token; nothing else changes any key's tokens. */
  lemma CallCosts(c: Config, t: Buckets, key: string, now: int, other: string)
    requires c.Valid() && Sane(c, t, now)
    ensures TokensAt(c, Taken(c, t, key, now), other, now) ==
      TokensAt(c, t, other, now) - if other == key && Decide(c, t, key, now).Granted? then 1.0 else 0.0
  {
    TokensWithin(c, t, key, now);
  }

  /** Eviction loses nothing if the bucket has refilled by then. */
  lemma SweepCostsNothing(c: Config, t: Buckets, now: int, key: string)
    requires c.Valid() && Sane(c, t, now) && c.FullWhenEvicted()
    ensures TokensAt(c, Swept(c, t, now), key, now) == TokensAt(c, t, key, now)
  {
    if key in t && c.Evicts(t[key], now) {
      GainGrows(c, c.EvictionMs(), now - t[key].lastRefillMs);
    }
  }

  /** Exactly the eviction of a bucket that is not full shows. */
  lemma SweepCostsExactly(c: Config, t: Buckets, now: int)
    requires c.Valid()
    ensures (forall key :: TokensAt(c, Swept(c, t, now), key, now) == TokensAt(c, t, key, now)) <==>
      forall key :: key in t && c.Evicts(t[key], now) ==> TokensAt(c, t, key, now) == c.burst
  {
    forall key
      ensures TokensAt(c, Swept(c, t, now), key, now) ==
        if key in t && c.Evicts(t[key], now) then c.burst else TokensAt(c, t, key, now)
    {
    }
  }

  lemma StepCosts(c: Config, t: Buckets, e: Event, key: string)
    requires c.Valid() && Sane(c, t, e.now) && (e.Call? || c.FullWhenEvicted())
    ensures TokensAt(c, Do(c, t, e), key, e.now) ==
      TokensAt(c, t, key, e.now) - if Grants(c, t, e, key) then 1.0 else 0.0
  {
    if e.Call? {
      CallCosts(c, t, e.key, e.now, key);
    } else {
      SweepCostsNothing(c, t, e.now, key);
    }
  }

  // ---- The cap and the idle time ----

  /** A new key that finds the table full is told to come back in a second, and is not remembered. */
  lemma FullTableRefuses(c: Config, t: Buckets, key: string, now: int)
    requires c.Valid() && key !in t && |t| as real >= c.maxBuckets
    ensures Taken(c, t, key, now) == t && Decide(c, t, key, now) == Throttled(1000)
  {
  }

  /** One that finds room starts with a full bucket. */
  lemma NewKeyStartsFull(c: Config, t: Buckets, key: string, now: int)
    requires c.Valid() && key !in t && |t| as real < c.maxBuckets
    ensures Decide(c, t, key, now).Granted? <==> c.burst >= 1.0
    ensures Taken(c, t, key, now) == t[key := Bucket(if c.burst >= 1.0 then c.burst - 1.0 else c.burst, now)]
  {
  }

  /** There are never more buckets than the cap allows. */
  predicate Capped(c: Config, t: Buckets) { (|t| - 1) as real < c.maxBuckets }

  lemma StepIsCapped(c: Config, t: Buckets, e: Event)
    requires c.Valid() && Capped(c, t)
    ensures Capped(c, Do(c, t, e))
  {
    match e
    case Call(key, now) =>
      var u := Taken(c, t, key, now);
      assert u.Keys == t.Keys || u.Keys == t.Keys + {key};
      assert |u| == |u.Keys| && |t| == |t.Keys|;
    case Sweep(now) =>
      SubsetSize(Swept(c, t, now).Keys, t.Keys);
      assert |Swept(c, t, now)| == |Swept(c, t, now).Keys| && |t| == |t.Keys|;
  }

  lemma {:induction false} RunIsCapped(c: Config, t: Buckets, es: seq<Event>)
    requires c.Valid() && Capped(c, t)
    ensures Capped(c, After(c, t, es))
    decreases |es|
  {
    hide Do, Capped;
    if es != [] {
      StepIsCapped(c, t, es[0]);
      RunIsCapped(c, Do(c, t, es[0]), es[1..]);
    }
  }

  /** In every run, with any number of keys and sweeps. */
  lemma TableIsCapped(c: Config, es: seq<Event>)
    requires c.Valid()
    ensures (|After(c, map[], es)| - 1) as real < c.maxBuckets
  {
    RunIsCapped(c, map[], es);
  }

  /** A bucket idles from the last call of its key on, granted or not: that call decides when a sweep evicts it. */
  lemma EvictedExactly(c: Config, t: Buckets, key: string, now: int, es: seq<Event>, later: int)
    requires c.Valid() && (key in t || |t| as real < c.maxBuckets)
    requires CallsOnly(es) && forall i :: 0 <= i < |es| ==> es[i].key != key
    ensures key in Swept(c, After(c, Taken(c, t, key, now), es), later) <==> (later - now) as real <= c.idleTtlMs
  {
    OthersKeepBucket(c, Taken(c, t, key, now), es, key);
  }

  // ---- The rate bound ----

  lemma GrantIsPaid(c: Config, t: Buckets, e: Event, key: string, now: int)
    requires c.Valid() && Sane(c, t, now) && now <= e.now && (e.Call? || c.FullWhenEvicted())
    ensures Sane(c, Do(c, t, e), e.now)
    ensures (if Grants(c, t, e, key) then 1.0 else 0.0) + TokensAt(c, Do(c, t, e), key, e.now)
      <= TokensAt(c, t, key, now) + c.Gain(e.now - now)
  {
    assert Sane(c, t, e.now);
    hide Do, TokensAt, Config.Gain, Sane, Grants, Config.FullWhenEvicted;
    StepIsSane(c, t, e, now);
    StepCosts(c, t, e, key);
    TokensGrow(c, t, key, now, e.now);
  }

  lemma WithinOrder(es: seq<Event>, now: int, end: int)
    requires Within(es, now, end)
    ensures now <= end
  {
  }

  lemma CountStep(c: Config, t: Buckets, es: seq<Event>, key: string)
    requires c.Valid()
    ensures GrantCount(c, t, es, key) as real == if es == [] then 0.0
      else (if Grants(c, t, es[0], key) then 1.0 else 0.0) + GrantCount(c, Do(c, t, es[0]), es[1..], key) as real
  {
    hide Grants, Do;
  }

  /** Each grant is paid by a token that was there or has been gained since. */
  lemma {:induction false} GrantsArePaid(c: Config, t: Buckets, es: seq<Event>, key: string, now: int, end: int)
    requires c.Valid() && Sane(c, t, now) && Within(es, now, end)
    requires CallsOnly(es) || c.FullWhenEvicted()
    ensures GrantCount(c, t, es, key) as real <= TokensAt(c, t, key, now) + c.Gain(end - now)
    decreases |es|
  {
    TokensWithin(c, t, key, now);
    WithinOrder(es, now, end);
    GainGrows(c, 0, end - now);
    CountStep(c, t, es, key);
    hide Do, TokensAt, Config.Gain, Sane, Grants, Config.FullWhenEvicted, Within, CallsOnly, Decide, GrantCount;
    if es != [] {
      var e := es[0];
      RestWithin(es, now, end);
      GrantIsPaid(c, t, e, key, now);
      GainAdds(c, e.now - now, end - e.now);
      GrantsArePaid(c, Do(c, t, e), es[1..], key, e.now, end);
    }
  }

  lemma {:induction false} RunIsSane(c: Config, t: Buckets, es: seq<Event>, now: int, end: int)
    requires c.Valid() && Sane(c, t, now) && Within(es, now, end)
    ensures Sane(c, After(c, t, es), end)
    decreases |es|
  {
    assert now <= end;
    hide Do, Within;
    if es != [] {
      RestWithin(es, now, end);
      StepIsSane(c, t, es[0], now);
      RunIsSane(c, Do(c, t, es[0]), es[1..], es[0].now, end);
    }
  }

  lemma BurstAndGainPay(c: Config, t: Buckets, es: seq<Event>, key: string, now: int, end: int)
    requires c.Valid() && Sane(c, t, now) && Within(es, now, end)
    requires CallsOnly(es) || c.FullWhenEvicted()
    ensures GrantCount(c, t, es, key) as real <= c.burst + c.Gain(end - now)
  {
    hide Config.Gain, TokensAt, Sane, GrantCount, Config.FullWhenEvicted, Within, CallsOnly;
    GrantsArePaid(c, t, es, key, now, end);
    TokensWithin(c, t, key, now);
  }

  lemma WindowIsPaid(c: Config, es: seq<Event>, i: nat, j: nat, key: string)
    requires c.Valid() && Ordered(es) && i < j <= |es|
    requires CallsOnly(es) || c.FullWhenEvicted()
    ensures GrantCount(c, After(c, map[], es[..i]), es[i..j], key) as real
      <= c.burst + c.Gain(es[j - 1].now - es[i].now)
  {
    assert Sane(c, map[], es[0].now);
    hide Config.Gain, After, Sane, GrantCount, Config.FullWhenEvicted, Within, Ordered, CallsOnly;
    WindowWithin(es, i, j);
    RunIsSane(c, map[], es[..i], es[0].now, es[i].now);
    BurstAndGainPay(c, After(c, map[], es[..i]), es[i..j], key, es[i].now, es[j - 1].now);
  }

  /** In any window of a run, at most `burst` grants and the tokens gained meanwhile:
      `burst + ratePerSec * T / 1000`. */
  lemma RateBound(c: Config, es: seq<Event>, i: nat, j: nat, key: string)
    requires c.Valid() && Ordered(es) && i < j <= |es|
    requires CallsOnly(es) || c.FullWhenEvicted()
    ensures GrantCount(c, After(c, map[], es[..i]), es[i..j], key) as real
      <= c.burst + c.ratePerSec * ((es[j - 1].now - es[i].now) as real) / 1000.0
  {
    hide After, GrantCount, Config.FullWhenEvicted, Ordered, CallsOnly;
    WindowIsPaid(c, es, i, j, key);
  }

  // ---- Evicting a full bucket cannot be noticed ----

  function Calls(es: seq<Event>): seq<Event>
    decreases |es|
  {
    if es == [] then [] else (if es[0].Call? then [es[0]] else []) + Calls(es[1..])
  }

  predicate NamedIn(es: seq<Event>, names: set<string>) {
    forall i :: 0 <= i < |es| && es[i].Call? ==> es[i].key in names
  }

  /** Too few keys to fill the table. */
  predicate Roomy(c: Config, names: set<string>) { (|names| - 1) as real < c.maxBuckets }

  ghost predicate SameTokens(c: Config, t: Buckets, u: Buckets, now: int) {
    forall key :: TokensAt(c, t, key, now) == TokensAt(c, u, key, now)
  }

  lemma NeverTurnedAway(c: Config, t: Buckets, key: string, names: set<string>)
    requires Roomy(c, names) && t.Keys <= names && key in names
    ensures !TurnedAway(c, t, key)
  {
    if key !in t {
      SubsetSize(t.Keys + {key}, names);
    }
  }

  lemma {:induction false} SubsetSize<T>(a: set<T>, b: set<T>)
    requires a <= b
    ensures |a| <= |b|
    decreases a
  {
    if x :| x in a {
      SubsetSize(a - {x}, b - {x});
    }
  }

  lemma SameTokensLater(c: Config, t: Buckets, u: Buckets, now: int, later: int)
    requires c.Valid() && SameTokens(c, t, u, now) && now <= later
    ensures SameTokens(c, t, u, later)
  {
    hide TokensAt;
    forall key
      ensures TokensAt(c, t, key, later) == TokensAt(c, u, key, later)
    {
      TokensGrow(c, t, key, now, later);
      TokensGrow(c, u, key, now, later);
    }
  }

  lemma SameAfterCall(c: Config, t: Buckets, u: Buckets, e: Event, names: set<string>)
    requires c.Valid() && e.Call? && e.key in names && Roomy(c, names) && t.Keys <= names && u.Keys <= names
    requires Sane(c, t, e.now) && Sane(c, u, e.now) && SameTokens(c, t, u, e.now)
    ensures Decide(c, t, e.key, e.now) == Decide(c, u, e.key, e.now)
    ensures SameTokens(c, Do(c, t, e), Do(c, u, e), e.now)
  {
    NeverTurnedAway(c, t, e.key, names);
    NeverTurnedAway(c, u, e.key, names);
    assert Decide(c, t, e.key, e.now) == Decide(c, u, e.key, e.now);
    hide TokensAt, Decide, TurnedAway;
    forall key
      ensures TokensAt(c, Do(c, t, e), key, e.now) == TokensAt(c, Do(c, u, e), key, e.now)
    {
      CallCosts(c, t, e.key, e.now, key);
      CallCosts(c, u, e.key, e.now, key);
    }
  }

  lemma SameAfterSweep(c: Config, t: Buckets, u: Buckets, e: Event)
    requires c.Valid() && e.Sweep? && c.FullWhenEvicted() && Sane(c, t, e.now) && SameTokens(c, t, u, e.now)
    ensures SameTokens(c, Do(c, t, e), u, e.now)
  {
    hide TokensAt;
    forall key
      ensures TokensAt(c, Do(c, t, e), key, e.now) == TokensAt(c, u, key, e.now)
    {
      SweepCostsNothing(c, t, e.now, key);
    }
  }

  lemma {:induction false} SweepsAreSilent(c: Config, t: Buckets, u: Buckets, es: seq<Event>,
      names: set<string>, now: int)
    requires c.Valid() && c.FullWhenEvicted() && Roomy(c, names)
    requires Ordered(es) && NoEarlier(es, now) && NamedIn(es, names) && t.Keys <= names && u.Keys <= names
    requires Sane(c, t, now) && Sane(c, u, now) && SameTokens(c, t, u, now)
    ensures Answers(c, t, es) == Answers(c, u, Calls(es))
    decreases |es|
  {
    hide Config.FullWhenEvicted, Decide, Roomy, SameTokens, TokensAt;
    if es != [] {
      var e := es[0];
      assert Sane(c, t, e.now) && Sane(c, u, e.now);
      SameTokensLater(c, t, u, now, e.now);
      StepIsSane(c, t, e, now);
      if e.Call? {
        StepIsSane(c, u, e, now);
        SameAfterCall(c, t, u, e, names);
        assert Calls(es) == [e] + Calls(es[1..]);
        SweepsAreSilent(c, Do(c, t, e), Do(c, u, e), es[1..], names, e.now);
      } else {
        SameAfterSweep(c, t, u, e);
        assert Answers(c, t, es) == Answers(c, Do(c, t, e), es[1..]) && Calls(es) == Calls(es[1..]);
        SweepsAreSilent(c, Do(c, t, e), u, es[1..], names, e.now);
      }
    }
  }

  /** Sweeps never change an answer, wherever they are inserted, as long as the table cannot fill. */
  ghost predicate EvictionUnobservable(c: Config)
    requires c.Valid()
  {
    forall es: seq<Event>, names: set<string> :: Ordered(es) && NamedIn(es, names) && Roomy(c, names) ==>
      Answers(c, map[], es) == Answers(c, map[], Calls(es))
  }

  lemma EvictionIsUnobservable(c: Config)
    requires c.Valid() && c.FullWhenEvicted()
    ensures EvictionUnobservable(c)
  {
    hide Config.FullWhenEvicted, Answers, Calls;
    forall es: seq<Event>, names: set<string> | Ordered(es) && NamedIn(es, names) && Roomy(c, names)
      ensures Answers(c, map[], es) == Answers(c, map[], Calls(es))
    {
      var start := if es == [] then 0 else es[0].now;
      SweepsAreSilent(c, map[], map[], es, names, start);
    }
  }

  // ---- Evicting too early can be noticed ----

  /** `n` calls at one moment. */
  function Salvo(key: string, now: int, n: nat): seq<Event> {
    if n == 0 then [] else [Call(key, now)] + Salvo(key, now, n - 1)
  }

  function Grantings(n: nat): seq<Decision> {
    if n == 0 then [] else [Granted] + Grantings(n - 1)
  }

  /** When the `m`-th sweep in a row can evict a bucket that is used after each. */
  function Moment(c: Config, m: nat): int { m * c.EvictionMs() }

  function Total(n: nat, m: nat): nat { (m + 1) * n }

  lemma MomentSteps(c: Config, m: nat)
    requires c.Valid()
    ensures Moment(c, 0) == 0 && Moment(c, m) >= 0
    ensures m > 0 ==> Moment(c, m) == Moment(c, m - 1) + c.EvictionMs() >= Moment(c, m - 1)
  {
    var ms := c.EvictionMs();
    assert ms > 0;
    assert m > 0 ==> m * ms == (m - 1) * ms + ms;
  }

  lemma TotalSteps(n: nat, m: nat)
    ensures Total(n, 0) == n && (m > 0 ==> Total(n, m) == Total(n, m - 1) + n)
  {
    assert m > 0 ==> (m + 1) * n == m * n + n;
  }

  /** A salvo, and `m` more, each after a sweep that comes as soon as it can evict the bucket. */
  function Rounds(c: Config, key: string, n: nat, m: nat): seq<Event> {
    if m == 0 then Salvo(key, 0, n)
    else Rounds(c, key, n, m - 1) + ([Sweep(Moment(c, m))] + Salvo(key, Moment(c, m), n))
  }

  /** The same calls without the sweeps. */
  function Unswept(c: Config, key: string, n: nat, m: nat): seq<Event> {
    if m == 0 then Salvo(key, 0, n) else Unswept(c, key, n, m - 1) + Salvo(key, Moment(c, m), n)
  }

  lemma {:induction false} AnswersSplit(c: Config, t: Buckets, a: seq<Event>, b: seq<Event>)
    requires c.Valid()
    ensures Answers(c, t, a + b) == Answers(c, t, a) + Answers(c, After(c, t, a), b)
    decreases |a|
  {
    hide Decide, Do;
    if a == [] {
      assert a + b == b;
    } else {
      assert (a + b)[1..] == a[1..] + b;
      AnswersSplit(c, Do(c, t, a[0]), a[1..], b);
    }
  }

  lemma {:induction false} CallsSplit(a: seq<Event>, b: seq<Event>)
    ensures Calls(a + b) == Calls(a) + Calls(b)
    decreases |a|
  {
    if a == [] {
      assert a + b == b;
    } else {
      assert (a + b)[1..] == a[1..] + b;
      CallsSplit(a[1..], b);
    }
  }

  lemma {:induction false} SalvoIsCalls(key: string, now: int, n: nat)
    ensures Calls(Salvo(key, now, n)) == Salvo(key, now, n) && |Salvo(key, now, n)| == n
    ensures forall i :: 0 <= i < n ==> Salvo(key, now, n)[i] == Call(key, now)
  {
    if n > 0 {
      SalvoIsCalls(key, now, n - 1);
    }
  }

  /** With a token for each, all calls are granted. */
  lemma {:induction false} SalvoGranted(c: Config, t: Buckets, key: string, now: int, n: nat)
    requires c.Valid() && t.Keys <= {key} && Sane(c, t, now) && TokensAt(c, t, key, now) >= n as real
    ensures Answers(c, t, Salvo(key, now, n)) == Grantings(n)
    ensures After(c, t, Salvo(key, now, n)).Keys <= {key} && Sane(c, After(c, t, Salvo(key, now, n)), now)
    ensures n > 0 ==> After(c, t, Salvo(key, now, n)).Keys == {key}
    ensures n > 0 ==> After(c, t, Salvo(key, now, n))[key].lastRefillMs == now
    decreases n
  {
    if n > 0 {
      assert t == map[] || key in t;
      CallCosts(c, t, key, now, key);
      StepIsSane(c, t, Call(key, now), now);
      var u := Do(c, t, Call(key, now));
      assert u.Keys == {key} && u[key].lastRefillMs == now;
      hide TokensAt, Sane, Taken;
      SalvoGranted(c, u, key, now, n - 1);
      assert Salvo(key, now, n)[1..] == Salvo(key, now, n - 1);
    }
  }

  lemma {:induction false} AllGranted(c: Config, t: Buckets, es: seq<Event>, key: string)
    requires c.Valid() && (forall i :: 0 <= i < |es| ==> es[i].Call? && es[i].key == key)
    requires Answers(c, t, es) == Grantings(|es|)
    ensures GrantCount(c, t, es, key) == |es|
    decreases |es|
  {
    hide Decide, Do;
    if es != [] {
      assert Answers(c, t, es)[1..] == Answers(c, Do(c, t, es[0]), es[1..]);
      assert Answers(c, t, es)[0] == Decide(c, t, key, es[0].now);
      AllGranted(c, Do(c, t, es[0]), es[1..], key);
    }
  }

  lemma {:induction false} GrantingsAdd(a: nat, b: nat)
    ensures Grantings(a) + Grantings(b) == Grantings(a + b) && |Grantings(a)| == a
  {
    if a > 0 {
      GrantingsAdd(a - 1, b);
    }
  }

  lemma {:induction false} AfterSplit(c: Config, t: Buckets, a: seq<Event>, b: seq<Event>)
    ensures After(c, t, a + b) == After(c, After(c, t, a), b)
    decreases |a|
  {
    hide Do;
    if a == [] {
      assert a + b == b;
    } else {
      assert (a + b)[1..] == a[1..] + b;
      AfterSplit(c, Do(c, t, a[0]), a[1..], b);
    }
  }

  lemma SweepEmpties(c: Config, t: Buckets, key: string, now: int)
    requires c.Valid() && t.Keys == {key} && t[key].lastRefillMs == now
    ensures Swept(c, t, now + c.EvictionMs()) == map[]
  {
  }

  lemma SweepAnswers(c: Config, t: Buckets, now: int)
    requires c.Valid()
    ensures Answers(c, t, [Sweep(now)]) == [] && After(c, t, [Sweep(now)]) == Swept(c, t, now)
  {
    hide Swept;
    assert After(c, Swept(c, t, now), []) == Swept(c, t, now);
  }

  /** A bucket that has just been used, alone in the table. */
  predicate JustUsed(t: Buckets, key: string, now: int) { t.Keys == {key} && t[key].lastRefillMs == now }

  /** Swept away, the bucket starts again with all its tokens. */
  lemma OneRound(c: Config, t: Buckets, key: string, n: nat, now: int)
    requires c.Valid() && n > 0 && n as real <= c.burst && JustUsed(t, key, now)
    ensures var ms := now + c.EvictionMs();
      var es := [Sweep(ms)] + Salvo(key, ms, n);
      Answers(c, t, es) == Grantings(n) && JustUsed(After(c, t, es), key, ms)
  {
    var ms := now + c.EvictionMs();
    SalvoGranted(c, map[], key, ms, n);
    SweepEmpties(c, t, key, now);
    hide Answers, After, Salvo, Grantings, Swept, Config.EvictionMs, Sane, TokensAt;
    SweepAnswers(c, t, ms);
    AnswersSplit(c, t, [Sweep(ms)], Salvo(key, ms, n));
    AfterSplit(c, t, [Sweep(ms)], Salvo(key, ms, n));
  }

  lemma {:induction false} RoundsGranted(c: Config, key: string, n: nat, m: nat)
    requires c.Valid() && n > 0 && n as real <= c.burst
    ensures Answers(c, map[], Rounds(c, key, n, m)) == Grantings(Total(n, m))
    ensures JustUsed(After(c, map[], Rounds(c, key, n, m)), key, Moment(c, m))
    decreases m
  {
    MomentSteps(c, m);
    TotalSteps(n, m);
    if m == 0 {
      SalvoGranted(c, map[], key, 0, n);
    } else {
      hide Answers, After, Salvo, Grantings, Config.EvictionMs, Moment, Total, JustUsed, Config.Valid;
      RoundsGranted(c, key, n, m - 1);
      var first := Rounds(c, key, n, m - 1);
      var last := [Sweep(Moment(c, m))] + Salvo(key, Moment(c, m), n);
      OneRound(c, After(c, map[], first), key, n, Moment(c, m - 1));
      AnswersSplit(c, map[], first, last);
      AfterSplit(c, map[], first, last);
      GrantingsAdd(Total(n, m - 1), n);
    }
  }

  /** Events of the key from time 0 to `end`. */
  predicate Timed(es: seq<Event>, key: string, end: int) {
    Within(es, 0, end) && forall i :: 0 <= i < |es| && es[i].Call? ==> es[i].key == key
  }

  lemma TimedAppend(a: seq<Event>, b: seq<Event>, key: string, now: int, end: int)
    requires Timed(a, key, now) && now <= end && forall i :: 0 <= i < |b| ==> b[i].now == end
    requires forall i :: 0 <= i < |b| && b[i].Call? ==> b[i].key == key
    ensures Timed(a + b, key, end) && (CallsOnly(a) && CallsOnly(b) ==> CallsOnly(a + b))
  {
  }

  lemma SalvoTimed(key: string, now: int, n: nat)
    ensures var es := Salvo(key, now, n);
      && |es| == n && Calls(es) == es && CallsOnly(es)
      && forall i :: 0 <= i < |es| ==> es[i].now == now && es[i].Call? && es[i].key == key
    ensures forall i :: 0 <= i < n + 1 ==> ([Sweep(now)] + Salvo(key, now, n))[i].now == now
    ensures forall i :: 0 <= i < n + 1 && ([Sweep(now)] + Salvo(key, now, n))[i].Call? ==>
      ([Sweep(now)] + Salvo(key, now, n))[i].key == key
  {
    SalvoIsCalls(key, now, n);
  }

  lemma {:induction false} RoundsTimed(c: Config, key: string, n: nat, m: nat)
    requires c.Valid()
    ensures Timed(Rounds(c, key, n, m), key, Moment(c, m))
    decreases m
  {
    MomentSteps(c, m);
    SalvoTimed(key, Moment(c, m), n);
    if m == 0 {
      assert Rounds(c, key, n, 0) == Salvo(key, 0, n);
    } else {
      RoundsTimed(c, key, n, m - 1);
      hide Timed, Salvo, Config.EvictionMs, Moment;
      TimedAppend(Rounds(c, key, n, m - 1), [Sweep(Moment(c, m))] + Salvo(key, Moment(c, m), n), key,
                  Moment(c, m - 1), Moment(c, m));
    }
  }

  lemma {:induction false} UnsweptTimed(c: Config, key: string, n: nat, m: nat)
    requires c.Valid()
    ensures Timed(Unswept(c, key, n, m), key, Moment(c, m)) && CallsOnly(Unswept(c, key, n, m))
    ensures |Unswept(c, key, n, m)| == Total(n, m)
    decreases m
  {
    MomentSteps(c, m);
    TotalSteps(n, m);
    SalvoTimed(key, Moment(c, m), n);
    if m > 0 {
      UnsweptTimed(c, key, n, m - 1);
      hide Timed, Salvo, Config.EvictionMs, Moment, Total, CallsOnly;
      TimedAppend(Unswept(c, key, n, m - 1), Salvo(key, Moment(c, m), n), key, Moment(c, m - 1), Moment(c, m));
    }
  }

  lemma {:induction false} CallsOfRounds(c: Config, key: string, n: nat, m: nat)
    ensures Calls(Rounds(c, key, n, m)) == Unswept(c, key, n, m)
    decreases m
  {
    SalvoTimed(key, Moment(c, m), n);
    if m > 0 {
      CallsOfRounds(c, key, n, m - 1);
      assert Calls([Sweep(Moment(c, m))]) == [];
      hide Salvo, Calls, Moment;
      var last := Salvo(key, Moment(c, m), n);
      CallsSplit(Rounds(c, key, n, m - 1), [Sweep(Moment(c, m))] + last);
      CallsSplit([Sweep(Moment(c, m))], last);
    }
  }

  lemma {:induction false} GainMultiplies(c: Config, m: nat)
    requires c.Valid()
    ensures c.Gain(Moment(c, m)) == m as real * c.Gain(c.EvictionMs())
    decreases m
  {
    MomentSteps(c, m);
    assert c.Gain(0) == 0.0;
    if m > 0 {
      GainMultiplies(c, m - 1);
      hide Config.Gain, Moment, Config.EvictionMs;
      GainAdds(c, Moment(c, m - 1), c.EvictionMs());
      assert m as real == (m - 1) as real + 1.0;
    }
  }

  lemma TimedParts(es: seq<Event>, key: string, end: int)
    requires Timed(es, key, end)
    ensures Within(es, 0, end) && NamedIn(es, {key})
    ensures CallsOnly(es) ==> forall i :: 0 <= i < |es| ==> es[i].Call? && es[i].key == key
  {
  }

  /** Without sweeps not all calls of the rounds are granted, once the tokens gained fall behind. */
  lemma RoundsNotAllGranted(c: Config, key: string, n: nat, m: nat)
    requires c.Valid() && Total(n, m) as real > c.burst + m as real * c.Gain(c.EvictionMs())
    ensures Answers(c, map[], Unswept(c, key, n, m)) != Grantings(Total(n, m))
  {
    var es := Unswept(c, key, n, m);
    UnsweptTimed(c, key, n, m);
    TimedParts(es, key, Moment(c, m));
    GainMultiplies(c, m);
    assert Sane(c, map[], 0) && TokensAt(c, map[], key, 0) == c.burst;
    hide Config.Gain, Config.EvictionMs, Answers, GrantCount, TokensAt, Within, Sane, Total, Moment, Unswept, Timed;
    if Answers(c, map[], es) == Grantings(Total(n, m)) {
      AllGranted(c, map[], es, key);
      GrantsArePaid(c, map[], es, key, 0, Moment(c, m));
    }
  }

  lemma EnoughRounds(spare: real, gap: real) returns (m: nat)
    requires gap > 0.0 && spare >= 0.0
    ensures m as real * gap > spare
  {
    m := (spare / gap).Floor + 1;
    assert m as real > spare / gap;
    assert spare / gap * gap == spare;
  }

  lemma RoundsFallBehind(burst: real, gain: real, n: nat, m: nat)
    requires m as real * (n as real - gain) > burst - n as real
    ensures Total(n, m) as real > burst + m as real * gain
  {
    assert ((m + 1) * n) as real == m as real * n as real + n as real;
    assert m as real * (n as real - gain) == m as real * n as real - m as real * gain;
  }

  /** The rounds get other answers with sweeps than without. */
  lemma RoundsShow(c: Config, n: nat, m: nat)
    requires c.Valid() && n > 0 && n as real <= c.burst
    requires Total(n, m) as real > c.burst + m as real * c.Gain(c.EvictionMs())
    ensures !EvictionUnobservable(c)
  {
    var es, names := Rounds(c, "key", n, m), {"key"};
    RoundsTimed(c, "key", n, m);
    TimedParts(es, "key", Moment(c, m));
    RoundsGranted(c, "key", n, m);
    RoundsNotAllGranted(c, "key", n, m);
    CallsOfRounds(c, "key", n, m);
    assert Ordered(es) && Roomy(c, names);
    hide Config.Gain, Config.EvictionMs, Rounds, Unswept, Calls, Answers, Ordered, NamedIn, Roomy, Total, Moment;
    hide Within, Timed, JustUsed, Grantings, After;
  }

  /** Eviction that cannot be noticed lets a bucket gain, while it idles, all its whole tokens. */
  lemma EvictionNeedsWholeTokens(c: Config)
    requires c.Valid() && c.burst >= 1.0 && EvictionUnobservable(c)
    ensures c.Gain(c.EvictionMs()) >= c.burst.Floor as real
  {
    hide Config.Gain, Config.EvictionMs, EvictionUnobservable, Total;
    var n: nat := c.burst.Floor;
    var gain := c.Gain(c.EvictionMs());
    if gain < n as real {
      var m := EnoughRounds(c.burst - n as real, n as real - gain);
      RoundsFallBehind(c.burst, gain, n, m);
      RoundsShow(c, n, m);
    }
  }

  /** For a whole number of tokens, eviction is unobservable exactly when a bucket is full by the time it can be
      evicted. */
  lemma EvictionIsUnobservableExactly(c: Config, n: nat)
    requires c.Valid() && n > 0 && c.burst == n as real
    ensures EvictionUnobservable(c) <==> c.FullWhenEvicted()
  {
    hide EvictionUnobservable, Config.Gain;
    if EvictionUnobservable(c) {
      EvictionNeedsWholeTokens(c);
    }
    if c.FullWhenEvicted() {
      EvictionIsUnobservable(c);
    }
  }

  // ---- The retry time ----

  lemma CeilIsLeast(x: real, n: int)
    ensures Ceil(x) <= n <==> x <= n as real
  {
  }

  lemma GainReaches(c: Config, need: real, ms: int)
    requires c.Valid()
    ensures c.Gain(ms) >= need <==> need / c.ratePerSec * 1000.0 <= ms as real
  {
    var x := need / c.ratePerSec;
    assert need == x * c.ratePerSec;
    var y := (ms as real) / 1000.0;
    assert c.Gain(ms) == y * c.ratePerSec;
    assert y >= x <==> y * c.ratePerSec >= x * c.ratePerSec;
  }

  /** Calls with other keys leave this key's bucket as it is. */
  lemma {:induction false} OthersKeepBucket(c: Config, t: Buckets, es: seq<Event>, key: string)
    requires key in t && CallsOnly(es) && forall i :: 0 <= i < |es| ==> es[i].key != key
    ensures key in After(c, t, es) && After(c, t, es)[key] == t[key]
    decreases |es|
  {
    if es != [] {
      OthersKeepBucket(c, Do(c, t, es[0]), es[1..], key);
    }
  }

  /** The answer is the least wait: whatever other clients do meanwhile, the key's next call is granted
      after `wait` milliseconds exactly when `wait` is at least that long. */
  lemma RetryTimeIsExact(c: Config, t: Buckets, key: string, now: int, es: seq<Event>, wait: nat)
    requires c.Valid() && c.burst >= 1.0 && Sane(c, t, now)
    requires !TurnedAway(c, t, key) && Decide(c, t, key, now).Throttled?
    requires CallsOnly(es) && forall i :: 0 <= i < |es| ==> es[i].key != key
    ensures Decide(c, After(c, Taken(c, t, key, now), es), key, now + wait).Granted?
      <==> wait >= Decide(c, t, key, now).retryAfterMs
  {
    var u := Taken(c, t, key, now);
    var tokens := TokensAt(c, t, key, now);
    OthersKeepBucket(c, u, es, key);
    assert u[key] == Bucket(tokens, now);
    CeilIsLeast((1.0 - tokens) / c.ratePerSec * 1000.0, wait);
    GainReaches(c, 1.0 - tokens, wait);
  }

  /** A key is throttled for ever when the bucket cannot hold one token. */
  lemma {:induction false} SmallBurstNeverGrants(c: Config, t: Buckets, es: seq<Event>, key: string, now: int)
    requires c.Valid() && c.burst < 1.0 && Sane(c, t, now) && Ordered(es) && NoEarlier(es, now)
    ensures GrantCount(c, t, es, key) == 0
    decreases |es|
  {
    if es != [] {
      assert Sane(c, t, es[0].now);
      TokensWithin(c, t, key, es[0].now);
      hide TokensAt, Do, Sane;
      StepIsSane(c, t, es[0], now);
      SmallBurstNeverGrants(c, Do(c, t, es[0]), es[1..], key, es[0].now);
    }
  }

  /** The Retry-After header, in whole seconds (section 10.2.3 of RFC 9110). */
  function RetryAfterSeconds(retryAfterMs: int): int {
    var s := Ceil((retryAfterMs as real) / 1000.0);
    if s < 1 then 1 else s
  }

  /** It is the least positive number of seconds that is not too short. */
  lemma HeaderIsLeast(retryAfterMs: int, s: int)
    requires s >= 1
    ensures s >= RetryAfterSeconds(retryAfterMs) <==> 1000 * s >= retryAfterMs
  {
    CeilIsLeast((retryAfterMs as real) / 1000.0, s);
  }

  /** Waiting as the header says is always enough. */
  lemma HeaderSuffices(c: Config, t: Buckets, key: string, now: int, es: seq<Event>)
    requires c.Valid() && c.burst >= 1.0 && Sane(c, t, now)
    requires !TurnedAway(c, t, key) && Decide(c, t, key, now).Throttled?
    requires CallsOnly(es) && forall i :: 0 <= i < |es| ==> es[i].key != key
    ensures var s := RetryAfterSeconds(Decide(c, t, key, now).retryAfterMs);
      Decide(c, After(c, Taken(c, t, key, now), es), key, now + 1000 * s).Granted?
  {
    var ms := Decide(c, t, key, now).retryAfterMs;
    HeaderIsLeast(ms, RetryAfterSeconds(ms));
    RetryTimeIsExact(c, t, key, now, es, 1000 * RetryAfterSeconds(ms));
  }
}
