// The memory-bounded token bucket limiter (src/policy/rate-limit.ts:19-85).
//
// Tokens are scaled by 60 000, so that one millisecond refills exactly `rpm` units and the
// arithmetic is over integers. A JavaScript Map keeps insertion order: `order` lists the keys of
// `buckets`, least recently used first.

module RateLimit {
  import opened Base
  import Pricing

  type Key = nat

  const TOKEN: nat := 60_000

  datatype Bucket = Bucket(tokens: nat, updatedAt: nat)

  datatype Config = Config(rpm: nat, burst: nat, maxEntries: nat, idleMs: nat)

  datatype Table = Table(buckets: map<Key, Bucket>, order: seq<Key>)

  datatype Decision = Decision(allowed: bool, retryAfterSeconds: nat)

  /** What the constructor enforces. */
  predicate Proper(c: Config) { c.rpm > 0 && c.burst > 0 && c.maxEntries > 0 }

  /** A bucket is full again after one idle period. */
  predicate RefillsWhileIdle(c: Config) { Proper(c) && Full(c) <= Gain(c, 0, c.idleMs) }

  /** Scaled units of `n` whole tokens. */
  function Tokens(n: nat): nat { 60_000 * n }

  function Full(c: Config): nat { Tokens(c.burst) }

  /** What the time between two instants refills: milliseconds times `rpm`, summed up so that the proofs stay linear. */
  function Gain(c: Config, from: nat, until: nat): nat
    decreases until
  {
    if until <= from then 0 else Gain(c, from, until - 1) + c.rpm
  }

  lemma {:induction false} GainIsProduct(c: Config, from: nat, until: nat)
    ensures Gain(c, from, until) == Max(0, until - from) * c.rpm
    decreases until
  {
    if until > from {
      GainIsProduct(c, from, until - 1);
      assert (until - from) * c.rpm == (until - 1 - from) * c.rpm + c.rpm;
    }
  }

  lemma {:induction false} GainAdds(c: Config, from: nat, mid: nat, until: nat)
    requires from <= mid <= until
    ensures Gain(c, from, until) == Gain(c, from, mid) + Gain(c, mid, until)
    decreases until
  {
    if mid < until {
      GainAdds(c, from, mid, until - 1);
    }
  }

  /** At least as long a time refills at least as much. */
  lemma GainMonotone(c: Config, a: nat, b: nat, from: nat, until: nat)
    requires Max(0, b - a) <= Max(0, until - from)
    ensures Gain(c, a, b) <= Gain(c, from, until)
  {
    GainIsProduct(c, a, b);
    GainIsProduct(c, from, until);
    var x, y := Max(0, b - a), Max(0, until - from);
    assert y * c.rpm == x * c.rpm + (y - x) * c.rpm;
  }

  function Elapsed(b: Bucket, now: nat): nat { Max(0, now - b.updatedAt) }

  function Refilled(c: Config, b: Bucket, now: nat): nat {
    Min(Full(c), b.tokens + Gain(c, b.updatedAt, now))
  }

  lemma RefilledIs(c: Config, b: Bucket, now: nat)
    ensures Refilled(c, b, now) == Min(c.burst * TOKEN, b.tokens + Elapsed(b, now) * c.rpm)
  {
    GainIsProduct(c, b.updatedAt, now);
  }

  /** Seconds until `missing` is refilled at `perSecond`: the rounded-up quotient, counted second by second. */
  function SecondsFor(missing: nat, perSecond: nat): nat
    requires perSecond > 0
    decreases missing
  {
    if missing == 0 then 0
    else if missing <= perSecond then 1
    else 1 + SecondsFor(missing - perSecond, perSecond)
  }

  lemma {:induction false} SecondsIsCeiling(missing: nat, perSecond: nat)
    requires perSecond > 0
    ensures SecondsFor(missing, perSecond) == (missing + perSecond - 1) / perSecond
    decreases missing
  {
    if missing > perSecond {
      SecondsIsCeiling(missing - perSecond, perSecond);
      var q := (missing - 1) / perSecond;
      Pricing.QuotientBound(missing - 1, perSecond, q);
      Pricing.CeilingBound(missing, perSecond, SecondsFor(missing - perSecond, perSecond) + 1);
      Pricing.CeilingBound(missing, perSecond, SecondsFor(missing - perSecond, perSecond));
      Pricing.CeilingBound(missing - perSecond, perSecond, SecondsFor(missing - perSecond, perSecond));
      if SecondsFor(missing - perSecond, perSecond) > 0 {
        Pricing.CeilingBound(missing - perSecond, perSecond, SecondsFor(missing - perSecond, perSecond) - 1);
      }
    } else {
      Pricing.CeilingBound(missing, perSecond, SecondsFor(missing, perSecond));
      if missing > 0 {
        Pricing.CeilingBound(missing, perSecond, 0);
      }
    }
  }

  function Spend(level: nat, now: nat): Bucket {
    Bucket(if level >= TOKEN then level - TOKEN else level, now)
  }

  /** The answer for a key whose bucket holds `level`. */
  function Answer(c: Config, level: nat): Decision
    requires Proper(c)
  {
    if level >= TOKEN then Decision(true, 0)
    else Decision(false, Max(1, SecondsFor(TOKEN - level, 1000 * c.rpm)))
  }

  /** A burst within the rate, which src/config.ts:141 enforces, refills within a minute, and an idle period is two. */
  lemma ConfiguredRefills(c: Config)
    requires Proper(c) && c.burst <= c.rpm && c.idleMs >= 60_000
    ensures RefillsWhileIdle(c)
  {
    GainIsProduct(c, 0, c.idleMs);
    assert c.idleMs * c.rpm == 60_000 * c.rpm + (c.idleMs - 60_000) * c.rpm;
  }

  // ---- The ordered map ----

  function Without(order: seq<Key>, key: Key): (r: seq<Key>)
    ensures forall k :: k in r <==> k in order && k != key
    ensures |r| <= |order|
  {
    if order == [] then []
    else
      var rest := Without(order[..|order| - 1], key);
      assert order == order[..|order| - 1] + [order[|order| - 1]];
      if order[|order| - 1] == key then rest else rest + [order[|order| - 1]]
  }

  predicate IsIdle(c: Config, t: Table, key: Key, now: nat) {
    key in t.buckets && Elapsed(t.buckets[key], now) > c.idleMs
  }

  function Kept(c: Config, t: Table, order: seq<Key>, now: nat): (r: seq<Key>)
    ensures forall k :: k in r <==> k in order && !IsIdle(c, t, k, now)
    ensures |r| <= |order|
  {
    if order == [] then []
    else
      var last := order[|order| - 1];
      var rest := Kept(c, t, order[..|order| - 1], now);
      assert order == order[..|order| - 1] + [last];
      if IsIdle(c, t, last, now) then rest else rest + [last]
  }

  function EvictIdle(c: Config, t: Table, now: nat): Table {
    Table(map k | k in t.buckets && !IsIdle(c, t, k, now) :: t.buckets[k], Kept(c, t, t.order, now))
  }

  function Put(t: Table, key: Key, b: Bucket): Table {
    Table(t.buckets[key := b], Without(t.order, key) + [key])
  }

  function CapacityRetryAfter(c: Config, t: Table, now: nat): nat {
    if t.order == [] || t.order[0] !in t.buckets then 1
    else (Max(1000, c.idleMs - Elapsed(t.buckets[t.order[0]], now)) + 999) / 1000
  }

  /** A new key that finds no room even after eviction. */
  predicate CapacityRefused(c: Config, t: Table, key: Key, now: nat) {
    key !in t.buckets && |EvictIdle(c, t, now).buckets| >= c.maxEntries
  }

  /** The limiter after one call, and its answer. */
  function Consume(c: Config, t: Table, key: Key, now: nat): (Table, Decision)
    requires Proper(c)
  {
    if key in t.buckets then
      var level := Refilled(c, t.buckets[key], now);
      (Put(t, key, Spend(level, now)), Answer(c, level))
    else
      var e := EvictIdle(c, t, now);
      if |e.buckets| >= c.maxEntries then (e, Decision(false, CapacityRetryAfter(c, e, now)))
      else (Put(e, key, Spend(Full(c), now)), Answer(c, Full(c)))
  }

  ghost predicate NoRepeats(order: seq<Key>) {
    order != [] ==> NoRepeats(order[..|order| - 1]) && order[|order| - 1] !in order[..|order| - 1]
  }

  ghost predicate Valid(t: Table) {
    NoRepeats(t.order) && forall k :: k in t.order <==> k in t.buckets
  }

  function DroppedAt(t: Table, k: nat): Table
    requires k < |t.order|
  {
    Table(t.buckets - {t.order[k]}, t.order[..k] + t.order[k + 1..])
  }

  /** The limiter itself: the map updated in place. */
  class TokenBucketLimiter {
    const config: Config
    var buckets: map<Key, Bucket>
    var order: seq<Key>

    ghost function State(): Table reads this { Table(buckets, order) }

    constructor (config: Config)
      requires Proper(config)
      ensures this.config == config && State() == Table(map[], [])
    {
      this.config := config;
      buckets, order := map[], [];
    }

    method Delete(key: Key)
      modifies this`buckets, this`order
      ensures State() == Table(old(buckets) - {key}, Without(old(order), key))
    {
      buckets, order := buckets - {key}, Without(order, key);
    }

    method Set(key: Key, b: Bucket)
      requires key !in order
      modifies this`buckets, this`order
      ensures State() == Put(old(State()), key, b)
    {
      WithoutAbsent(order, key);
      buckets, order := buckets[key := b], order + [key];
    }

    /** Deletes the entry at place `k` from under the iteration. */
    method DeleteAt(k: nat)
      requires k < |order|
      modifies this`buckets, this`order
      ensures State() == DroppedAt(old(State()), k)
    {
      buckets, order := buckets - {order[k]}, order[..k] + order[k + 1..];
    }

    /** The deleting loop over the live map: `k` entries have been passed and kept. */
    method EvictIdleEntries(now: nat)
      requires Valid(State())
      modifies this`buckets, this`order
      ensures State() == EvictIdle(config, old(State()), now)
    {
      ghost var start := State();
      ghost var seen := 0;
      var k := 0;
      PassStart(config, start, now);
      while k < |order|
        invariant OrderPass(config, start, seen, k, order, now)
        invariant BucketPass(config, start, seen, buckets, now)
        decreases |order| - k
      {
        PassHere(config, start, seen, k, order, buckets, now);
        if Elapsed(buckets[order[k]], now) > config.idleMs {
          OrderDrop(config, start, seen, k, order, now);
          BucketDrop(config, start, seen, order[k], buckets, now);
          DeleteAt(k);
        } else {
          OrderKeep(config, start, seen, k, order, now);
          BucketKeep(config, start, seen, order[k], buckets, now);
          k := k + 1;
        }
        seen := seen + 1;
      }
      PassDone(config, start, seen, k, State(), now);
    }

    /** Takes a token out of `level` if there is one, and stores what is left at the most recent place. */
    method Charge(key: Key, level: nat, now: nat) returns (d: Decision)
      requires Proper(config) && key !in order
      modifies this`buckets, this`order
      ensures State() == Put(old(State()), key, Spend(level, now))
      ensures d == Answer(config, level)
    {
      var allowed := false;
      var tokens := level;
      if tokens >= TOKEN {
        tokens := tokens - TOKEN;
        allowed := true;
      }
      Set(key, Bucket(tokens, now));
      if allowed {
        return Decision(true, 0);
      }
      var missing := TOKEN - tokens;
      var perSecond := 1000 * config.rpm;
      SecondsIsCeiling(missing, perSecond);
      return Decision(false, Max(1, (missing + perSecond - 1) / perSecond));
    }

    /** A key the map already holds: refilled, charged, and moved to the most recent place. */
    method ConsumeExisting(key: Key, now: nat) returns (d: Decision)
      requires Proper(config) && key in buckets
      modifies this`buckets, this`order
      ensures var level := Refilled(config, old(buckets)[key], now);
              State() == Put(old(State()), key, Spend(level, now)) && d == Answer(config, level)
    {
      var existing := buckets[key];
      var elapsed := Elapsed(existing, now);
      RefilledIs(config, existing, now);
      var level := Min(config.burst * TOKEN, existing.tokens + elapsed * config.rpm);
      PutAfterDelete(State(), key, Spend(level, now));
      Delete(key);
      d := Charge(key, level, now);
    }

    method ConsumeKey(key: Key, now: nat) returns (d: Decision)
      requires Proper(config) && Valid(State())
      modifies this`buckets, this`order
      ensures (State(), d) == Consume(config, old(State()), key, now)
    {
      if key in buckets {
        d := ConsumeExisting(key, now);
      } else {
        EvictIdleEntries(now);
        if |buckets| >= config.maxEntries {
          return Decision(false, CapacityRetryAfter(config, Table(buckets, order), now));
        }
        d := Charge(key, config.burst * TOKEN, now);
      }
    }
  }

  lemma {:induction false} WithoutAbsent(order: seq<Key>, key: Key)
    requires key !in order
    ensures Without(order, key) == order
  {
    if order != [] {
      assert order == order[..|order| - 1] + [order[|order| - 1]];
      WithoutAbsent(order[..|order| - 1], key);
    }
  }

  lemma PutAfterDelete(t: Table, key: Key, b: Bucket)
    ensures Put(Table(t.buckets - {key}, Without(t.order, key)), key, b) == Put(t, key, b)
  {
    WithoutAbsent(Without(t.order, key), key);
  }

  lemma {:induction false} NoRepeatAt(order: seq<Key>, i: nat)
    requires NoRepeats(order) && i < |order|
    ensures order[i] !in order[..i]
  {
    if i < |order| - 1 {
      NoRepeatAt(order[..|order| - 1], i);
      assert order[..|order| - 1][..i] == order[..i];
    }
  }

  /**
   * Half way through the eviction loop: of the first `seen` entries the `k` live ones are kept at the
   * front, and the rest has not been looked at ...
   */
  ghost predicate OrderPass(c: Config, start: Table, seen: nat, k: nat, order: seq<Key>, now: nat) {
    && Valid(start) && seen <= |start.order|
    && k == |Kept(c, start, start.order[..seen], now)|
    && order == Kept(c, start, start.order[..seen], now) + start.order[seen..]
  }

  /** ... and of those seen, the idle ones are gone. */
  ghost predicate BucketPass(c: Config, start: Table, seen: nat, buckets: map<Key, Bucket>, now: nat) {
    && seen <= |start.order|
    && (forall x :: x in buckets <==> x in start.buckets && !(x in start.order[..seen] && IsIdle(c, start, x, now)))
    && (forall x :: x in buckets ==> buckets[x] == start.buckets[x])
  }

  lemma PassStart(c: Config, t: Table, now: nat)
    requires Valid(t)
    ensures OrderPass(c, t, 0, 0, t.order, now) && BucketPass(c, t, 0, t.buckets, now)
  {
    assert t.order[..0] == [] && t.order[0..] == t.order;
  }

  lemma SliceStep(order: seq<Key>, seen: nat)
    requires seen < |order|
    ensures order[seen..] == [order[seen]] + order[seen + 1..]
    ensures order[..seen + 1] == order[..seen] + [order[seen]]
  {
  }

  lemma OrderHere(c: Config, start: Table, seen: nat, k: nat, order: seq<Key>, now: nat)
    requires OrderPass(c, start, seen, k, order, now) && k < |order|
    ensures seen < |start.order| && order[k] == start.order[seen]
    ensures order[..k] == Kept(c, start, start.order[..seen], now) && order[k + 1..] == start.order[seen + 1..]
    ensures start.order[..seen + 1] == start.order[..seen] + [order[k]]
  {
    SliceStep(start.order, seen);
  }

  /** The entry at place `k` is the next one of the original map. */
  lemma PassHere(c: Config, start: Table, seen: nat, k: nat, order: seq<Key>, buckets: map<Key, Bucket>, now: nat)
    requires OrderPass(c, start, seen, k, order, now) && BucketPass(c, start, seen, buckets, now) && k < |order|
    ensures seen < |start.order| && order[k] == start.order[seen] && order[k] in start.buckets
    ensures order[k] in buckets && buckets[order[k]] == start.buckets[order[k]]
  {
    OrderHere(c, start, seen, k, order, now);
    NoRepeatAt(start.order, seen);
    assert start.order[seen] in start.order;
  }

  lemma KeptSnoc(c: Config, t: Table, order: seq<Key>, key: Key, now: nat)
    ensures Kept(c, t, order + [key], now) == Kept(c, t, order, now) + if IsIdle(c, t, key, now) then [] else [key]
  {
    assert (order + [key])[..|order|] == order;
  }

  lemma OrderDrop(c: Config, start: Table, seen: nat, k: nat, order: seq<Key>, now: nat)
    requires OrderPass(c, start, seen, k, order, now) && k < |order| && IsIdle(c, start, order[k], now)
    ensures OrderPass(c, start, seen + 1, k, order[..k] + order[k + 1..], now)
  {
    OrderHere(c, start, seen, k, order, now);
    KeptSnoc(c, start, start.order[..seen], order[k], now);
  }

  lemma OrderKeep(c: Config, start: Table, seen: nat, k: nat, order: seq<Key>, now: nat)
    requires OrderPass(c, start, seen, k, order, now) && k < |order| && !IsIdle(c, start, order[k], now)
    ensures OrderPass(c, start, seen + 1, k + 1, order, now)
  {
    OrderHere(c, start, seen, k, order, now);
    KeptSnoc(c, start, start.order[..seen], order[k], now);
    assert order == order[..k] + [order[k]] + order[k + 1..];
  }

  lemma BucketDrop(c: Config, start: Table, seen: nat, key: Key, buckets: map<Key, Bucket>, now: nat)
    requires BucketPass(c, start, seen, buckets, now) && seen < |start.order| && key == start.order[seen]
    requires IsIdle(c, start, key, now)
    ensures BucketPass(c, start, seen + 1, buckets - {key}, now)
  {
    SliceStep(start.order, seen);
  }

  lemma BucketKeep(c: Config, start: Table, seen: nat, key: Key, buckets: map<Key, Bucket>, now: nat)
    requires BucketPass(c, start, seen, buckets, now) && seen < |start.order| && key == start.order[seen]
    requires !IsIdle(c, start, key, now)
    ensures BucketPass(c, start, seen + 1, buckets, now)
  {
    SliceStep(start.order, seen);
  }

  lemma PassDone(c: Config, start: Table, seen: nat, k: nat, t: Table, now: nat)
    requires OrderPass(c, start, seen, k, t.order, now) && BucketPass(c, start, seen, t.buckets, now) && k >= |t.order|
    ensures t == EvictIdle(c, start, now)
  {
    assert start.order[seen..] == [];
    assert start.order[..seen] == start.order;
    assert t.buckets == EvictIdle(c, start, now).buckets;
  }

  // ---- Shape: bounded, and in order of last use ----

  /** Entries stand in order of last use. */
  ghost predicate ByLastUse(buckets: map<Key, Bucket>, order: seq<Key>) {
    order != [] ==>
      var prefix, last := order[..|order| - 1], order[|order| - 1];
      && ByLastUse(buckets, prefix)
      && (last in buckets ==>
            forall k :: k in prefix && k in buckets ==> buckets[k].updatedAt <= buckets[last].updatedAt)
  }

  ghost predicate Aged(c: Config, buckets: map<Key, Bucket>, now: nat) {
    forall k :: k in buckets ==> buckets[k].updatedAt <= now && buckets[k].tokens <= Full(c)
  }

  /** Well formed at time `now`: bounded, sorted by last use, nothing from the future, no bucket over full. */
  ghost predicate Shaped(c: Config, t: Table, now: nat) {
    Valid(t) && |t.buckets| <= c.maxEntries && Aged(c, t.buckets, now) && ByLastUse(t.buckets, t.order)
  }

  lemma {:induction false} KeptOrder(c: Config, t: Table, order: seq<Key>, now: nat, buckets: map<Key, Bucket>)
    requires NoRepeats(order) && ByLastUse(t.buckets, order)
    requires forall k :: k in buckets ==> k in t.buckets && buckets[k] == t.buckets[k]
    ensures NoRepeats(Kept(c, t, order, now)) && ByLastUse(buckets, Kept(c, t, order, now))
  {
    if order != [] {
      var prefix, last := order[..|order| - 1], order[|order| - 1];
      KeptOrder(c, t, prefix, now, buckets);
      var rest := Kept(c, t, prefix, now);
      assert (rest + [last])[..|rest|] == rest;
    }
  }

  lemma {:induction false} WithoutOrder(order: seq<Key>, key: Key, from: map<Key, Bucket>, buckets: map<Key, Bucket>)
    requires NoRepeats(order) && ByLastUse(from, order)
    requires forall k :: k in buckets && k != key ==> k in from && buckets[k] == from[k]
    ensures NoRepeats(Without(order, key)) && ByLastUse(buckets, Without(order, key))
  {
    if order != [] {
      var prefix, last := order[..|order| - 1], order[|order| - 1];
      WithoutOrder(prefix, key, from, buckets);
      var rest := Without(prefix, key);
      assert (rest + [last])[..|rest|] == rest;
    }
  }

  lemma EvictShaped(c: Config, t: Table, from: nat, now: nat)
    requires Shaped(c, t, from) && from <= now
    ensures Shaped(c, EvictIdle(c, t, now), now)
  {
    var e := EvictIdle(c, t, now);
    KeptOrder(c, t, t.order, now, e.buckets);
    SubmapSize(e.buckets, t.buckets);
  }

  lemma SubmapSize(m: map<Key, Bucket>, n: map<Key, Bucket>)
    requires m.Keys <= n.Keys
    ensures |m| <= |n|
  {
    SubsetSize(m.Keys, n.Keys);
    assert |m| == |m.Keys| && |n| == |n.Keys|;
  }

  lemma SubsetSize(a: set<Key>, b: set<Key>)
    requires a <= b
    ensures |a| <= |b|
  {
    assert b == a + (b - a);
  }

  /** A key used at `now`, after everything else, may stand last. */
  lemma LastUsedLast(buckets: map<Key, Bucket>, rest: seq<Key>, key: Key)
    requires NoRepeats(rest) && ByLastUse(buckets, rest) && key !in rest && key in buckets
    requires forall k :: k in buckets ==> buckets[k].updatedAt <= buckets[key].updatedAt
    ensures NoRepeats(rest + [key]) && ByLastUse(buckets, rest + [key])
  {
    assert (rest + [key])[..|rest|] == rest;
  }

  lemma PutSize(buckets: map<Key, Bucket>, key: Key, b: Bucket)
    ensures |buckets[key := b]| == |buckets| + if key in buckets then 0 else 1
  {
    assert buckets[key := b].Keys == buckets.Keys + {key};
    assert |buckets[key := b]| == |buckets[key := b].Keys| && |buckets| == |buckets.Keys|;
  }

  lemma PutAged(c: Config, buckets: map<Key, Bucket>, key: Key, b: Bucket, from: nat, now: nat)
    requires Aged(c, buckets, from) && from <= now && b.updatedAt == now && b.tokens <= Full(c)
    ensures Aged(c, buckets[key := b], now)
  {
  }

  lemma PutOrdered(t: Table, key: Key, b: Bucket)
    requires Valid(t) && ByLastUse(t.buckets, t.order)
    requires forall k :: k in t.buckets ==> t.buckets[k].updatedAt <= b.updatedAt
    ensures Valid(Put(t, key, b)) && ByLastUse(Put(t, key, b).buckets, Put(t, key, b).order)
  {
    WithoutOrder(t.order, key, t.buckets, t.buckets[key := b]);
    LastUsedLast(t.buckets[key := b], Without(t.order, key), key);
  }

  lemma PutShaped(c: Config, t: Table, key: Key, b: Bucket, from: nat, now: nat)
    requires Shaped(c, t, from) && from <= now && b.updatedAt == now && b.tokens <= Full(c)
    requires key in t.buckets || |t.buckets| < c.maxEntries
    ensures Shaped(c, Put(t, key, b), now)
  {
    PutAged(c, t.buckets, key, b, from, now);
    PutOrdered(t, key, b);
    PutSize(t.buckets, key, b);
  }

  lemma ConsumeShaped(c: Config, t: Table, key: Key, from: nat, now: nat)
    requires Proper(c) && Shaped(c, t, from) && from <= now
    ensures Shaped(c, Consume(c, t, key, now).0, now)
  {
    if key in t.buckets {
      PutShaped(c, t, key, Spend(Refilled(c, t.buckets[key], now), now), from, now);
    } else {
      EvictShaped(c, t, from, now);
      var e := EvictIdle(c, t, now);
      if |e.buckets| < c.maxEntries {
        PutShaped(c, e, key, Spend(Full(c), now), now, now);
      }
    }
  }

  // ---- Runs ----

  datatype Call = Call(key: Key, now: nat)

  ghost predicate Clocked(from: nat, calls: seq<Call>) {
    && (forall i :: 0 <= i < |calls| ==> from <= calls[i].now)
    && (forall i, j :: 0 <= i < j < |calls| ==> calls[i].now <= calls[j].now)
  }

  function End(from: nat, calls: seq<Call>): nat { if calls == [] then from else calls[|calls| - 1].now }

  function Run(c: Config, t: Table, calls: seq<Call>): Table
    requires Proper(c)
  {
    if calls == [] then t
    else Consume(c, Run(c, t, calls[..|calls| - 1]), calls[|calls| - 1].key, calls[|calls| - 1].now).0
  }

  lemma ClockedPrefix(from: nat, calls: seq<Call>)
    requires Clocked(from, calls) && calls != []
    ensures Clocked(from, calls[..|calls| - 1])
    ensures from <= End(from, calls[..|calls| - 1]) <= calls[|calls| - 1].now
  {
    var prefix := calls[..|calls| - 1];
    if prefix != [] {
      assert prefix[|prefix| - 1] == calls[|calls| - 2];
    }
  }

  /** Under a clock that never runs backwards the map stays bounded and sorted by last use. */
  lemma {:induction false} RunShaped(c: Config, t: Table, from: nat, calls: seq<Call>)
    requires Proper(c) && Shaped(c, t, from) && Clocked(from, calls)
    ensures Shaped(c, Run(c, t, calls), End(from, calls))
  {
    if calls != [] {
      var prefix, last := calls[..|calls| - 1], calls[|calls| - 1];
      RunShaped(c, t, from, prefix);
      ClockedPrefix(from, calls);
      ConsumeShaped(c, Run(c, t, prefix), last.key, End(from, prefix), last.now);
    }
  }

  // ---- The unbounded limiter ----

  /** The obvious limiter: one bucket per key, for ever. */
  function Plain(c: Config, m: map<Key, Bucket>, key: Key, now: nat): (map<Key, Bucket>, Decision)
    requires Proper(c)
  {
    var level := if key in m then Refilled(c, m[key], now) else Full(c);
    (m[key := Spend(level, now)], Answer(c, level))
  }

  /** The unbounded limiter over the same calls, except those the bounded one has no room for. */
  function PlainRun(c: Config, t: Table, m: map<Key, Bucket>, calls: seq<Call>): map<Key, Bucket>
    requires Proper(c)
  {
    if calls == [] then m
    else
      var prefix, last := calls[..|calls| - 1], calls[|calls| - 1];
      var n := PlainRun(c, t, m, prefix);
      if CapacityRefused(c, Run(c, t, prefix), last.key, last.now) then n
      else Plain(c, n, last.key, last.now).0
  }

  /** Same buckets, and whatever the bounded limiter has dropped would be full again. */
  ghost predicate Shadows(c: Config, t: Table, m: map<Key, Bucket>, now: nat) {
    && (forall k :: k in t.buckets ==> k in m && m[k] == t.buckets[k])
    && (forall k :: k in m && k !in t.buckets ==> m[k].updatedAt <= now && Refilled(c, m[k], now) == Full(c))
  }

  lemma FullStaysFull(c: Config, b: Bucket, from: nat, now: nat)
    requires b.updatedAt <= from <= now && Refilled(c, b, from) == Full(c)
    ensures Refilled(c, b, now) == Full(c)
  {
    GainMonotone(c, b.updatedAt, from, b.updatedAt, now);
  }

  lemma IdleIsFull(c: Config, b: Bucket, now: nat)
    requires RefillsWhileIdle(c) && Elapsed(b, now) > c.idleMs
    ensures Refilled(c, b, now) == Full(c)
  {
    GainMonotone(c, 0, c.idleMs, b.updatedAt, now);
  }

  lemma EvictShadows(c: Config, t: Table, m: map<Key, Bucket>, from: nat, now: nat)
    requires RefillsWhileIdle(c) && Shaped(c, t, from) && from <= now && Shadows(c, t, m, from)
    ensures Shadows(c, EvictIdle(c, t, now), m, now)
  {
    var e := EvictIdle(c, t, now);
    forall k | k in m && k !in e.buckets ensures m[k].updatedAt <= now && Refilled(c, m[k], now) == Full(c) {
      if k in t.buckets {
        IdleIsFull(c, m[k], now);
      } else {
        FullStaysFull(c, m[k], from, now);
      }
    }
  }

  lemma AdvanceShadows(c: Config, t: Table, m: map<Key, Bucket>, from: nat, now: nat)
    requires from <= now && Shadows(c, t, m, from)
    ensures Shadows(c, t, m, now)
  {
    forall k | k in m && k !in t.buckets ensures m[k].updatedAt <= now && Refilled(c, m[k], now) == Full(c) {
      FullStaysFull(c, m[k], from, now);
    }
  }

  lemma ConsumeShadows(c: Config, t: Table, m: map<Key, Bucket>, key: Key, from: nat, now: nat)
    requires RefillsWhileIdle(c) && Shaped(c, t, from) && from <= now && Shadows(c, t, m, from)
    ensures var (u, d) := Consume(c, t, key, now);
            if CapacityRefused(c, t, key, now) then Shadows(c, u, m, now) && !d.allowed
            else Shadows(c, u, Plain(c, m, key, now).0, now) && d == Plain(c, m, key, now).1
  {
    if key in t.buckets {
      AdvanceShadows(c, t, m, from, now);
    } else {
      EvictShadows(c, t, m, from, now);
      if key in m {
        FullStaysFull(c, m[key], from, now);
      }
    }
  }

  lemma {:induction false} RunShadows(c: Config, t: Table, m: map<Key, Bucket>, from: nat, calls: seq<Call>)
    requires RefillsWhileIdle(c) && Shaped(c, t, from) && Shadows(c, t, m, from) && Clocked(from, calls)
    ensures Shadows(c, Run(c, t, calls), PlainRun(c, t, m, calls), End(from, calls))
  {
    if calls != [] {
      var prefix, last := calls[..|calls| - 1], calls[|calls| - 1];
      ClockedPrefix(from, calls);
      RunShadows(c, t, m, from, prefix);
      RunShaped(c, t, from, prefix);
      ConsumeShadows(c, Run(c, t, prefix), PlainRun(c, t, m, prefix), last.key, End(from, prefix), last.now);
    }
  }

  /**
   * Over every run with a clock that never runs backwards, the bounded limiter's next answer is the
   * unbounded one's, unless there is no room for the key.
   */
  lemma BoundedRefinesUnbounded(c: Config, t: Table, m: map<Key, Bucket>, from: nat, calls: seq<Call>, next: Call)
    requires RefillsWhileIdle(c) && Shaped(c, t, from) && Shadows(c, t, m, from)
    requires Clocked(from, calls) && End(from, calls) <= next.now
    ensures !CapacityRefused(c, Run(c, t, calls), next.key, next.now) ==>
              Consume(c, Run(c, t, calls), next.key, next.now).1
                == Plain(c, PlainRun(c, t, m, calls), next.key, next.now).1
  {
    RunShaped(c, t, from, calls);
    RunShadows(c, t, m, from, calls);
    ConsumeShadows(c, Run(c, t, calls), PlainRun(c, t, m, calls), next.key, End(from, calls), next.now);
  }

  // ---- The rate ----

  /** What a key could spend at `now`: a key without a bucket would start full. */
  function Level(c: Config, t: Table, key: Key, now: nat): nat {
    if key in t.buckets then Refilled(c, t.buckets[key], now) else Full(c)
  }

  function Taken(called: Key, key: Key, d: Decision): nat { if called == key && d.allowed then 1 else 0 }

  function Allowed(c: Config, t: Table, calls: seq<Call>, key: Key): nat
    requires Proper(c)
  {
    if calls == [] then 0
    else
      var prefix, last := calls[..|calls| - 1], calls[|calls| - 1];
      Allowed(c, t, prefix, key) + Taken(last.key, key, Consume(c, Run(c, t, prefix), last.key, last.now).1)
  }

  lemma RefilledGrows(c: Config, b: Bucket, from: nat, now: nat)
    requires b.updatedAt <= from <= now
    ensures Refilled(c, b, now) <= Refilled(c, b, from) + Gain(c, from, now)
  {
    GainAdds(c, b.updatedAt, from, now);
  }

  lemma LevelGrows(c: Config, t: Table, key: Key, from: nat, now: nat)
    requires Aged(c, t.buckets, from) && from <= now
    ensures Level(c, t, key, now) <= Level(c, t, key, from) + Gain(c, from, now)
  {
    if key in t.buckets {
      RefilledGrows(c, t.buckets[key], from, now);
    }
  }

  /** A call takes one token from its own key when allowed, and nothing from any other, evictions included. */
  lemma ConsumeLevel(c: Config, t: Table, called: Key, key: Key, from: nat, now: nat)
    requires RefillsWhileIdle(c) && Aged(c, t.buckets, from) && from <= now
    ensures var (u, d) := Consume(c, t, called, now);
            Level(c, u, key, now) + Tokens(Taken(called, key, d)) <= Level(c, t, key, now)
  {
    var (u, d) := Consume(c, t, called, now);
    if called !in t.buckets && key in t.buckets && IsIdle(c, t, key, now) {
      IdleIsFull(c, t.buckets[key], now);
    }
    if called == key && key in u.buckets {
      assert Elapsed(u.buckets[key], now) == 0;
    }
  }

  /** What the calls have spent and left, against what there was and what has been refilled since. */
  ghost predicate WithinSupply(c: Config, t: Table, from: nat, calls: seq<Call>, key: Key)
    requires Proper(c)
  {
    && from <= End(from, calls)
    && Tokens(Allowed(c, t, calls, key)) + Level(c, Run(c, t, calls), key, End(from, calls))
       <= Level(c, t, key, from) + Gain(c, from, End(from, calls))
  }

  lemma SupplyStart(c: Config, t: Table, from: nat, key: Key)
    requires Proper(c)
    ensures WithinSupply(c, t, from, [], key)
  {
  }

  lemma SupplyArithmetic(c: Config, count: nat, more: nat, start: nat, left: nat, grown: nat, after: nat,
                         from: nat, before: nat, now: nat)
    requires from <= before <= now
    requires Tokens(count) + left <= start + Gain(c, from, before)
    requires grown <= left + Gain(c, before, now)
    requires after + Tokens(more) <= grown
    ensures Tokens(count + more) + after <= start + Gain(c, from, now)
  {
    GainAdds(c, from, before, now);
  }

  lemma RunOneMore(c: Config, t: Table, from: nat, calls: seq<Call>, prefix: seq<Call>, last: Call, key: Key)
    requires Proper(c) && calls == prefix + [last]
    ensures var (u, d) := Consume(c, Run(c, t, prefix), last.key, last.now);
            && Run(c, t, calls) == u && End(from, calls) == last.now
            && Allowed(c, t, calls, key) == Allowed(c, t, prefix, key) + Taken(last.key, key, d)
  {
    assert calls[..|prefix|] == prefix;
  }

  lemma SupplyStep(c: Config, t: Table, from: nat, calls: seq<Call>, prefix: seq<Call>, last: Call, key: Key)
    requires RefillsWhileIdle(c) && calls == prefix + [last] && WithinSupply(c, t, from, prefix, key)
    requires Aged(c, Run(c, t, prefix).buckets, End(from, prefix)) && End(from, prefix) <= last.now
    ensures WithinSupply(c, t, from, calls, key)
  {
    var before, mid := End(from, prefix), Run(c, t, prefix);
    RunOneMore(c, t, from, calls, prefix, last, key);
    LevelGrows(c, mid, key, before, last.now);
    ConsumeLevel(c, mid, last.key, key, before, last.now);
    SupplyArithmetic(c, Allowed(c, t, prefix, key), Taken(last.key, key, Consume(c, mid, last.key, last.now).1),
                     Level(c, t, key, from), Level(c, mid, key, before), Level(c, mid, key, last.now),
                     Level(c, Run(c, t, calls), key, last.now), from, before, last.now);
  }

  lemma RunAged(c: Config, t: Table, from: nat, calls: seq<Call>)
    requires Proper(c) && Shaped(c, t, from) && Clocked(from, calls)
    ensures Aged(c, Run(c, t, calls).buckets, End(from, calls))
  {
    RunShaped(c, t, from, calls);
  }

  lemma SupplyMore(c: Config, t: Table, from: nat, calls: seq<Call>, key: Key)
    requires RefillsWhileIdle(c) && Shaped(c, t, from) && Clocked(from, calls) && calls != []
    requires WithinSupply(c, t, from, calls[..|calls| - 1], key)
    ensures WithinSupply(c, t, from, calls, key)
  {
    var prefix, last := calls[..|calls| - 1], calls[|calls| - 1];
    ClockedPrefix(from, calls);
    RunAged(c, t, from, prefix);
    SupplyStep(c, t, from, calls, prefix, last, key);
  }

  lemma {:induction false} RateInvariant(c: Config, t: Table, from: nat, calls: seq<Call>, key: Key)
    requires RefillsWhileIdle(c) && Shaped(c, t, from) && Clocked(from, calls)
    ensures WithinSupply(c, t, from, calls, key)
  {
    if calls == [] {
      SupplyStart(c, t, from, key);
    } else {
      ClockedPrefix(from, calls);
      RateInvariant(c, t, from, calls[..|calls| - 1], key);
      SupplyMore(c, t, from, calls, key);
    }
  }

  lemma BoundArithmetic(c: Config, count: nat, start: nat, left: nat, from: nat, end: nat, span: nat)
    requires from <= end <= from + span && start <= Full(c)
    requires Tokens(count) + left <= start + Gain(c, from, end)
    ensures TOKEN * count <= TOKEN * c.burst + span * c.rpm
  {
    GainMonotone(c, from, end, 0, span);
    GainIsProduct(c, 0, span);
  }

  /**
   * In any window of `span` milliseconds a key is allowed at most `burst` calls plus what the window
   * refills, whatever else is called, evicted and admitted again in between.
   */
  lemma RateBound(c: Config, t: Table, from: nat, calls: seq<Call>, key: Key, span: nat)
    requires RefillsWhileIdle(c) && Shaped(c, t, from) && Clocked(from, calls)
    requires End(from, calls) <= from + span
    ensures TOKEN * Allowed(c, t, calls, key) <= TOKEN * c.burst + span * c.rpm
  {
    RateInvariant(c, t, from, calls, key);
    BoundArithmetic(c, Allowed(c, t, calls, key), Level(c, t, key, from),
                    Level(c, Run(c, t, calls), key, End(from, calls)), from, End(from, calls), span);
  }

  // ---- One call ----

  /** The level a bucket has reached: `rpm` units a millisecond up to the burst, nothing for a clock that ran back. */
  lemma LevelReached(c: Config, b: Bucket, now: nat)
    ensures var level := Refilled(c, b, now);
            if now <= b.updatedAt then level == Min(60_000 * c.burst, b.tokens)
            else level == Min(60_000 * c.burst, b.tokens + (now - b.updatedAt) * c.rpm)
  {
    GainIsProduct(c, b.updatedAt, now);
  }

  /**
   * A call is allowed exactly when the level reaches a whole token, which it then takes; otherwise the hint
   * is the seconds, at least one, in which the missing part refills. Either way the key is used last.
   */
  lemma CallOutcome(c: Config, t: Table, key: Key, now: nat)
    requires Proper(c) && !CapacityRefused(c, t, key, now)
    ensures var (u, d) := Consume(c, t, key, now);
            var level := if key in t.buckets then Refilled(c, t.buckets[key], now) else 60_000 * c.burst;
            && (d.allowed <==> level >= 60_000)
            && key in u.buckets && u.buckets[key] == Bucket(if d.allowed then level - 60_000 else level, now)
            && |u.order| > 0 && u.order[|u.order| - 1] == key
            && (d.allowed ==> d.retryAfterSeconds == 0)
            && (!d.allowed ==> d.retryAfterSeconds >= 1)
  {
  }

  // ---- The hints ----

  lemma OtherCallLeaves(c: Config, t: Table, other: Key, now: nat, key: Key)
    requires Proper(c) && other != key && key in t.buckets && now <= t.buckets[key].updatedAt + c.idleMs
    ensures var u := Consume(c, t, other, now).0; key in u.buckets && u.buckets[key] == t.buckets[key]
  {
  }

  /** Calls of other keys leave a bucket alone as long as it cannot be idle. */
  lemma {:induction false} OthersLeave(c: Config, t: Table, calls: seq<Call>, key: Key)
    requires Proper(c) && key in t.buckets
    requires forall i :: 0 <= i < |calls| ==> calls[i].key != key && calls[i].now <= t.buckets[key].updatedAt + c.idleMs
    ensures var u := Run(c, t, calls); key in u.buckets && u.buckets[key] == t.buckets[key]
  {
    if calls != [] {
      var prefix, last := calls[..|calls| - 1], calls[|calls| - 1];
      OthersLeave(c, t, prefix, key);
      OtherCallLeaves(c, Run(c, t, prefix), last.key, last.now, key);
    }
  }

  lemma AnswerOf(c: Config, t: Table, key: Key, now: nat)
    requires Proper(c) && key in t.buckets
    ensures Consume(c, t, key, now).1 == Answer(c, Refilled(c, t.buckets[key], now))
  {
  }

  /** A refusal leaves a bucket short of a token, and the hint is the seconds until it has one. */
  lemma RefusedBucket(c: Config, t: Table, key: Key, now: nat) returns (u: Table, b: Bucket, hint: nat)
    requires Proper(c) && !Consume(c, t, key, now).1.allowed && !CapacityRefused(c, t, key, now)
    ensures u == Consume(c, t, key, now).0 && hint == Consume(c, t, key, now).1.retryAfterSeconds
    ensures key in u.buckets && u.buckets[key] == b && b.updatedAt == now && b.tokens < TOKEN
    ensures hint == Max(1, SecondsFor(TOKEN - b.tokens, 1000 * c.rpm))
  {
    u, hint := Consume(c, t, key, now).0, Consume(c, t, key, now).1.retryAfterSeconds;
    b := u.buckets[key];
  }

  /**
   * Whatever other keys call within one idle period, a refused key is admitted after `n` whole seconds
   * exactly when `n` reaches the hint.
   */
  lemma TokenHintIsLeast(c: Config, t: Table, key: Key, now: nat, calls: seq<Call>, n: nat)
    requires Proper(c) && n >= 1
    requires !Consume(c, t, key, now).1.allowed && !CapacityRefused(c, t, key, now)
    requires forall i :: 0 <= i < |calls| ==> calls[i].key != key && calls[i].now <= now + c.idleMs
    ensures var (u, d) := Consume(c, t, key, now);
            Consume(c, Run(c, u, calls), key, now + 1000 * n).1.allowed <==> n >= d.retryAfterSeconds
  {
    var u, b, hint := RefusedBucket(c, t, key, now);
    OthersLeave(c, u, calls, key);
    TokenBack(c, Run(c, u, calls), key, b, now, n, hint);
  }

  lemma TokenBack(c: Config, t: Table, key: Key, b: Bucket, now: nat, n: nat, hint: nat)
    requires Proper(c) && key in t.buckets && t.buckets[key] == b && b.updatedAt == now && b.tokens < TOKEN && n >= 1
    requires hint == Max(1, SecondsFor(TOKEN - b.tokens, 1000 * c.rpm))
    ensures Consume(c, t, key, now + 1000 * n).1.allowed <==> n >= hint
  {
    AnswerOf(c, t, key, now + 1000 * n);
    SecondsEnough(c, TOKEN - b.tokens, now, n);
  }

  lemma SecondsEnough(c: Config, missing: nat, now: nat, n: nat)
    requires Proper(c)
    ensures SecondsFor(missing, 1000 * c.rpm) <= n <==> missing <= Gain(c, now, now + 1000 * n)
  {
    Pricing.CeilingBound(missing, 1000 * c.rpm, n);
    SecondsIsCeiling(missing, 1000 * c.rpm);
    GainIsProduct(c, now, now + 1000 * n);
    assert n * (1000 * c.rpm) == 1000 * n * c.rpm;
  }

  lemma {:induction false} OldestLeast(buckets: map<Key, Bucket>, order: seq<Key>, k: Key)
    requires ByLastUse(buckets, order) && k in order && order[0] in buckets && k in buckets
    ensures buckets[order[0]].updatedAt <= buckets[k].updatedAt
  {
    var prefix := order[..|order| - 1];
    assert order == prefix + [order[|order| - 1]];
    if k in prefix {
      assert prefix[0] == order[0];
      OldestLeast(buckets, prefix, k);
    } else if |order| > 1 {
      assert order[0] in prefix;
    }
  }

  lemma OldestFirst(c: Config, t: Table, now: nat, at: nat)
    requires Shaped(c, t, now) && t.order != [] && now <= at
    ensures IsIdle(c, t, t.order[0], at) || EvictIdle(c, t, at) == t
  {
    assert t.order[0] in t.order;
    if !IsIdle(c, t, t.order[0], at) {
      forall k | k in t.buckets ensures !IsIdle(c, t, k, at) {
        OldestLeast(t.buckets, t.order, k);
      }
      KeptNone(c, t, t.order, at);
      assert EvictIdle(c, t, at).buckets == t.buckets;
    }
  }

  lemma {:induction false} KeptNone(c: Config, t: Table, order: seq<Key>, now: nat)
    requires forall k :: k in order ==> !IsIdle(c, t, k, now)
    ensures Kept(c, t, order, now) == order
  {
    if order != [] {
      assert order == order[..|order| - 1] + [order[|order| - 1]];
      KeptNone(c, t, order[..|order| - 1], now);
    }
  }

  /** The remaining idle time of the least recently used entry. */
  function OldestRemaining(c: Config, t: Table, now: nat): int
    requires t.order != [] && t.order[0] in t.buckets
  {
    c.idleMs - Elapsed(t.buckets[t.order[0]], now)
  }

  lemma HintCovers(remaining: nat)
    ensures var hint := (Max(1000, remaining) + 999) / 1000;
            && 1000 * hint >= remaining && hint >= 1
            && (1000 * hint > remaining <==> !(remaining >= 1000 && remaining % 1000 == 0))
  {
  }

  lemma RefusalIs(c: Config, t: Table, key: Key, now: nat)
    requires Proper(c) && CapacityRefused(c, t, key, now)
    ensures var u := EvictIdle(c, t, now);
            Consume(c, t, key, now) == (u, Decision(false, CapacityRetryAfter(c, u, now)))
  {
  }

  /** The moment the hint names. */
  function RetryAt(c: Config, u: Table, now: nat): nat { now + 1000 * CapacityRetryAfter(c, u, now) }

  /** For a full table just swept at `now`: the hint covers the wait, and where it falls short. */
  ghost predicate HintExact(c: Config, u: Table, key: Key, now: nat) {
    && u.order != [] && u.order[0] in u.buckets
    && (var remaining := OldestRemaining(c, u, now);
        && RetryAt(c, u, now) - now >= remaining >= 0
        && (CapacityRefused(c, u, key, RetryAt(c, u, now)) <==> remaining >= 1000 && remaining % 1000 == 0))
  }

  lemma CapacityHintFor(c: Config, u: Table, key: Key, now: nat)
    requires Proper(c) && Shaped(c, u, now) && |u.buckets| >= c.maxEntries && key !in u.buckets
    requires u.order != [] && u.order[0] in u.buckets && !IsIdle(c, u, u.order[0], now)
    ensures HintExact(c, u, key, now)
  {
    HintFits(c, u, now);
    RoomAfter(c, u, key, now, RetryAt(c, u, now));
  }

  /**
   * A key refused for lack of room is told to wait at least the oldest entry's remaining idle time.
   * If nothing else happens it is admitted then, except when that time is a whole number of seconds:
   * eviction needs strictly more than the idle period.
   */
  lemma CapacityHintExact(c: Config, t: Table, key: Key, from: nat, now: nat)
    requires Proper(c) && Shaped(c, t, from) && from <= now && CapacityRefused(c, t, key, now)
    ensures var u := EvictIdle(c, t, now);
            && Consume(c, t, key, now) == (u, Decision(false, CapacityRetryAfter(c, u, now)))
            && HintExact(c, u, key, now)
  {
    var u := EvictIdle(c, t, now);
    RefusalIs(c, t, key, now);
    EvictShaped(c, t, from, now);
    FullTableHasOldest(c, u, now);
    assert u.buckets[u.order[0]] == t.buckets[u.order[0]] && !IsIdle(c, t, u.order[0], now);
    CapacityHintFor(c, u, key, now);
  }

  /** `n` different keys calling at the same instant. */
  function Crowd(n: nat, now: nat): seq<Call> { if n == 0 then [] else Crowd(n - 1, now) + [Call(n - 1, now)] }

  /** The keys below `n`, each with a bucket touched at `now`. */
  ghost predicate Filled(t: Table, n: nat, now: nat) {
    && |t.order| == n && |t.buckets| == n
    && (forall k: nat :: k in t.buckets <==> k < n)
    && (forall k: nat :: k in t.order <==> k < n)
    && forall k :: k in t.buckets ==> t.buckets[k].updatedAt == now
  }

  lemma FilledNotIdle(c: Config, t: Table, n: nat, now: nat, at: nat)
    requires Filled(t, n, now) && now <= at <= now + c.idleMs
    ensures EvictIdle(c, t, at) == t
  {
    KeptNone(c, t, t.order, at);
    assert EvictIdle(c, t, at).buckets == t.buckets;
  }

  lemma FilledMore(t: Table, n: nat, now: nat, b: Bucket)
    requires Filled(t, n, now) && b.updatedAt == now
    ensures Filled(Put(t, n, b), n + 1, now)
  {
    WithoutAbsent(t.order, n);
    assert Put(t, n, b).buckets.Keys == t.buckets.Keys + {n};
    assert |Put(t, n, b).buckets| == |Put(t, n, b).buckets.Keys| && |t.buckets| == |t.buckets.Keys|;
  }

  lemma NewcomerFills(c: Config, t: Table, n: nat, now: nat)
    requires Proper(c) && Filled(t, n, now) && n < c.maxEntries
    ensures Filled(Consume(c, t, n, now).0, n + 1, now)
  {
    FilledNotIdle(c, t, n, now, now);
    FilledMore(t, n, now, Spend(Full(c), now));
  }

  lemma RunOnce(c: Config, t: Table, calls: seq<Call>, call: Call)
    requires Proper(c)
    ensures Run(c, t, calls + [call]) == Consume(c, Run(c, t, calls), call.key, call.now).0
  {
    assert (calls + [call])[..|calls|] == calls;
  }

  lemma {:induction false} CrowdFills(c: Config, n: nat, now: nat) returns (t: Table)
    requires Proper(c) && n <= c.maxEntries
    ensures t == Run(c, Table(map[], []), Crowd(n, now)) && Filled(t, n, now)
  {
    if n == 0 {
      t := Table(map[], []);
    } else {
      var before := CrowdFills(c, n - 1, now);
      var call := Call(n - 1, now);
      NewcomerFills(c, before, call.key, now);
      RunOnce(c, Table(map[], []), Crowd(n - 1, now), call);
      t := Consume(c, before, call.key, call.now).0;
    }
  }

  lemma FilledTurnsAway(c: Config, t: Table, n: nat, now: nat, at: nat)
    requires Proper(c) && Filled(t, n, now) && n == c.maxEntries && now <= at <= now + c.idleMs
    ensures Consume(c, t, n, at) == (t, Decision(false, CapacityRetryAfter(c, t, at))) && CapacityRefused(c, t, n, at)
    ensures t.order != [] && t.order[0] in t.buckets && t.buckets[t.order[0]].updatedAt == now
  {
    FilledNotIdle(c, t, n, now, at);
    assert t.order[0] in t.order;
  }

  lemma FullHint(c: Config, t: Table, now: nat)
    requires c.idleMs == 120_000 && t.order != [] && t.order[0] in t.buckets && t.buckets[t.order[0]].updatedAt == now
    ensures CapacityRetryAfter(c, t, now) == 120
  {
  }

  /** Falling short: a limiter filled at one instant turns a new key away for 120 seconds, and then again. */
  lemma CapacityHintFallsShort(c: Config, now: nat, later: nat) returns (t: Table)
    requires Proper(c) && c.idleMs == 120_000 && later == now + 120_000
    ensures t == Run(c, Table(map[], []), Crowd(c.maxEntries, now))
    ensures Consume(c, t, c.maxEntries, now) == (t, Decision(false, 120))
    ensures CapacityRefused(c, t, c.maxEntries, later)
  {
    t := CrowdFills(c, c.maxEntries, now);
    FilledTurnsAway(c, t, c.maxEntries, now, now);
    FilledTurnsAway(c, t, c.maxEntries, now, later);
    FullHint(c, t, now);
  }

  lemma HintFits(c: Config, u: Table, now: nat)
    requires u.order != [] && u.order[0] in u.buckets && !IsIdle(c, u, u.order[0], now)
    requires u.buckets[u.order[0]].updatedAt <= now
    ensures var remaining := OldestRemaining(c, u, now);
            && RetryAt(c, u, now) - now >= remaining >= 0
            && (IsIdle(c, u, u.order[0], RetryAt(c, u, now)) <==> !(remaining >= 1000 && remaining % 1000 == 0))
  {
    HintCovers(OldestRemaining(c, u, now));
  }

  lemma FullTableHasOldest(c: Config, u: Table, now: nat)
    requires Proper(c) && Shaped(c, u, now) && |u.buckets| >= c.maxEntries
    ensures u.order != [] && u.order[0] in u.buckets
  {
    assert u.buckets != map[];
    var k :| k in u.buckets;
    assert k in u.order && u.order[0] in u.order;
  }

  /** A full table has room again exactly when its oldest entry is idle. */
  lemma RoomAfter(c: Config, u: Table, key: Key, now: nat, at: nat)
    requires Proper(c) && Shaped(c, u, now) && |u.buckets| >= c.maxEntries && key !in u.buckets && now <= at
    requires u.order != [] && u.order[0] in u.buckets
    ensures CapacityRefused(c, u, key, at) <==> !IsIdle(c, u, u.order[0], at)
  {
    OldestFirst(c, u, now, at);
    if IsIdle(c, u, u.order[0], at) {
      SubmapSmaller(EvictIdle(c, u, at).buckets, u.buckets, u.order[0]);
    }
  }

  lemma SubmapSmaller(m: map<Key, Bucket>, n: map<Key, Bucket>, k: Key)
    requires m.Keys <= n.Keys && k in n && k !in m
    ensures |m| < |n|
  {
    SubsetSize(m.Keys, n.Keys - {k});
    assert |m| == |m.Keys| && |n| == |n.Keys|;
  }
}
