/** The request rate limiter: token buckets per key, with idle keys evicted.

    A bucket is exact: its level counts nanoseconds of credit, one token being worth one interval. */
module RateLimit {
  import opened Basics

  const MINUTE: int := 60_000_000_000
  const TTL: int := 15 * MINUTE

  datatype Config = Config(burst: nat, interval: int, ttl: int) {
    predicate Valid() {
      interval > 0 && ttl > 0
    }

    function Full(): int {
      burst * interval
    }
  }

  type GoodConfig = c: Config | c.Valid() witness Config(1, 1, 1)

  datatype Bucket = Bucket(level: int, last: int)

  datatype Visitor = Visitor(bucket: Bucket, lastSeen: int)

  datatype Request = Request(key: string, now: int)

  function Min(a: int, b: int): int {
    if a < b then a else b
  }

  /** The credit of a bucket at a later time. */
  function Credit(c: GoodConfig, b: Bucket, now: int): int {
    Min(c.Full(), b.level + (now - b.last))
  }

  /** rate.Limiter.AllowN(now, 1) */
  function Take(c: GoodConfig, b: Bucket, now: int): (Bucket, bool) {
    if c.burst >= 1 && Credit(c, b, now) >= c.interval then (Bucket(Credit(c, b, now) - c.interval, now), true)
    else (b, false)
  }

  /** rate.NewLimiter starts full. */
  function NewBucket(c: GoodConfig, now: int): Bucket {
    Bucket(c.Full(), now)
  }

  // ---- The evicting limiter ----

  datatype State = State(visitors: map<string, Visitor>, lastCleanup: Option<int>)

  const START: State := State(map[], None)

  function Evicted(c: GoodConfig, s: State, now: int): State {
    if s.lastCleanup.None? || now - s.lastCleanup.value >= c.ttl then
      State(map k | k in s.visitors && now - s.visitors[k].lastSeen < c.ttl :: s.visitors[k], Some(now))
    else s
  }

  function Allow(c: GoodConfig, s: State, r: Request): (State, bool) {
    var kept := Evicted(c, s, r.now);
    var bucket := if r.key in kept.visitors then kept.visitors[r.key].bucket else NewBucket(c, r.now);
    var (after, ok) := Take(c, bucket, r.now);
    (kept.(visitors := kept.visitors[r.key := Visitor(after, r.now)]), ok)
  }

  function After(c: GoodConfig, s: State, requests: seq<Request>): State
    decreases |requests|
  {
    if requests == [] then s else After(c, Allow(c, s, requests[0]).0, requests[1..])
  }

  function Decisions(c: GoodConfig, s: State, requests: seq<Request>): (d: seq<bool>)
    ensures |d| == |requests|
    decreases |requests|
  {
    if requests == [] then []
    else
      var (s', ok) := Allow(c, s, requests[0]);
      [ok] + Decisions(c, s', requests[1..])
  }

  class RateLimiter {
    const config: GoodConfig
    var visitors: map<string, Visitor>
    var lastCleanup: Option<int>

    ghost function Abstract(): State
      reads this
    {
      State(visitors, lastCleanup)
    }

    constructor (eventsPerMinute: int, burst: nat)
      requires 1 <= eventsPerMinute <= MINUTE
      ensures config == Config(burst, MINUTE / eventsPerMinute, TTL)
      ensures Abstract() == START
    {
      config := Config(burst, MINUTE / eventsPerMinute, TTL);
      visitors, lastCleanup := map[], None;
    }

    /** allow, with its deletion loop over the visitors in any order. */
    method AllowRequest(r: Request) returns (ok: bool)
      modifies this
      ensures (Abstract(), ok) == Allow(config, old(Abstract()), r)
    {
      if lastCleanup.None? || r.now - lastCleanup.value >= config.ttl {
        var rest := visitors.Keys;
        while rest != {}
          invariant rest <= visitors.Keys <= old(visitors).Keys
          invariant forall k :: k in visitors ==> visitors[k] == old(visitors)[k]
          invariant forall k :: k in old(visitors) && k !in rest ==>
            (k in visitors <==> r.now - old(visitors)[k].lastSeen < config.ttl)
          decreases rest
        {
          var k :| k in rest;
          rest := rest - {k};
          if r.now - visitors[k].lastSeen >= config.ttl {
            visitors := visitors - {k};
          }
        }
        lastCleanup := Some(r.now);
      }
      ghost var kept := Evicted(config, old(Abstract()), r.now);
      assert Abstract() == kept;
      if r.key !in visitors {
        visitors := visitors[r.key := Visitor(NewBucket(config, r.now), r.now)];
      }
      var (bucket, allowed) := Take(config, visitors[r.key].bucket, r.now);
      visitors := visitors[r.key := Visitor(bucket, r.now)];
      assert visitors == kept.visitors[r.key := Visitor(bucket, r.now)];
      return allowed;
    }
  }

  // ---- The limiter that never evicts ----

  function PlainAllow(c: GoodConfig, m: map<string, Bucket>, r: Request): (map<string, Bucket>, bool) {
    var (after, ok) := Take(c, if r.key in m then m[r.key] else NewBucket(c, r.now), r.now);
    (m[r.key := after], ok)
  }

  function PlainAfter(c: GoodConfig, m: map<string, Bucket>, requests: seq<Request>): map<string, Bucket>
    decreases |requests|
  {
    if requests == [] then m else PlainAfter(c, PlainAllow(c, m, requests[0]).0, requests[1..])
  }

  function PlainDecisions(c: GoodConfig, m: map<string, Bucket>, requests: seq<Request>): (d: seq<bool>)
    ensures |d| == |requests|
    decreases |requests|
  {
    if requests == [] then []
    else
      var (m', ok) := PlainAllow(c, m, requests[0]);
      [ok] + PlainDecisions(c, m', requests[1..])
  }

  predicate TimeOrdered(requests: seq<Request>) {
    forall i, j :: 0 <= i < j < |requests| ==> requests[i].now <= requests[j].now
  }

  // ---- Eviction is invisible ----

  function CreditOf(c: GoodConfig, m: map<string, Bucket>, k: string, now: int): int {
    if k in m then Credit(c, m[k], now) else c.Full()
  }

  function EvictingCreditOf(c: GoodConfig, s: State, k: string, now: int): int {
    if k in s.visitors then Credit(c, s.visitors[k].bucket, now) else c.Full()
  }

  predicate GoodBucket(c: GoodConfig, b: Bucket, now: int) {
    0 <= b.level <= c.Full() && b.last <= now
  }

  /** Both limiters would treat any key alike from `now` on. */
  ghost predicate Agree(c: GoodConfig, s: State, m: map<string, Bucket>, now: int) {
    && (forall k :: k in m ==> GoodBucket(c, m[k], now))
    && (forall k :: k in s.visitors ==>
          GoodBucket(c, s.visitors[k].bucket, s.visitors[k].lastSeen) && s.visitors[k].lastSeen <= now)
    && (forall k :: EvictingCreditOf(c, s, k, now) == CreditOf(c, m, k, now))
  }

  lemma FullIsNonNegative(c: GoodConfig)
    ensures c.Full() >= 0 && (c.burst >= 1 ==> c.Full() >= c.interval)
  {
    if c.burst >= 1 {
      assert c.burst * c.interval == (c.burst - 1) * c.interval + c.interval;
    }
  }

  /** Waiting keeps the agreement, and an evicted bucket is full again. */
  lemma AgreeLater(c: GoodConfig, s: State, m: map<string, Bucket>, now: int, later: int)
    requires Agree(c, s, m, now) && now <= later && c.Full() <= c.ttl
    ensures Agree(c, Evicted(c, s, later), m, later)
  {
    FullIsNonNegative(c);
    forall k
      ensures EvictingCreditOf(c, Evicted(c, s, later), k, later) == CreditOf(c, m, k, later)
    {
      assert EvictingCreditOf(c, s, k, now) == CreditOf(c, m, k, now);
    }
  }

  lemma AllowAgrees(c: GoodConfig, s: State, m: map<string, Bucket>, now: int, r: Request)
    requires Agree(c, s, m, now) && now <= r.now && c.Full() <= c.ttl
    ensures Allow(c, s, r).1 == PlainAllow(c, m, r).1
    ensures Agree(c, Allow(c, s, r).0, PlainAllow(c, m, r).0, r.now)
  {
    FullIsNonNegative(c);
    AgreeLater(c, s, m, now, r.now);
    var kept := Evicted(c, s, r.now);
    assert EvictingCreditOf(c, kept, r.key, r.now) == CreditOf(c, m, r.key, r.now);
    forall k
      ensures EvictingCreditOf(c, Allow(c, s, r).0, k, r.now) == CreditOf(c, PlainAllow(c, m, r).0, k, r.now)
    {
      assert EvictingCreditOf(c, kept, k, r.now) == CreditOf(c, m, k, r.now);
    }
  }

  lemma {:induction false} SameDecisions(c: GoodConfig, s: State, m: map<string, Bucket>, now: int, requests: seq<Request>)
    requires Agree(c, s, m, now) && c.Full() <= c.ttl && TimeOrdered(requests)
    requires requests != [] ==> now <= requests[0].now
    ensures Decisions(c, s, requests) == PlainDecisions(c, m, requests)
    ensures requests != [] ==>
      Agree(c, After(c, s, requests), PlainAfter(c, m, requests), requests[|requests| - 1].now)
    decreases |requests|
  {
    if requests != [] {
      var r := requests[0];
      AllowAgrees(c, s, m, now, r);
      hide Agree, Allow, PlainAllow;
      SameDecisions(c, Allow(c, s, r).0, PlainAllow(c, m, r).0, r.now, requests[1..]);
      if |requests| == 1 {
        assert After(c, s, requests) == Allow(c, s, r).0 && PlainAfter(c, m, requests) == PlainAllow(c, m, r).0;
      }
    }
  }

  /** For every time-ordered sequence of requests over any keys, a limiter that refills no slower than it evicts
      decides exactly like one that never evicts. */
  lemma EvictionInvisible(c: GoodConfig, requests: seq<Request>)
    requires TimeOrdered(requests) && c.burst * c.interval <= c.ttl
    ensures Decisions(c, START, requests) == PlainDecisions(c, map[], requests)
  {
    if requests != [] {
      SameDecisions(c, START, map[], requests[0].now, requests);
    }
  }

  // ---- When eviction shows ----

  /** `n` requests with one key at one time. */
  function Repeat(k: string, now: int, n: nat): (requests: seq<Request>)
    ensures |requests| == n && forall i :: 0 <= i < n ==> requests[i] == Request(k, now)
  {
    seq(n, i => Request(k, now))
  }

  lemma RepeatTail(k: string, now: int, n: nat)
    requires n > 0
    ensures Repeat(k, now, n)[1..] == Repeat(k, now, n - 1)
  {
  }

  lemma {:induction false} DecisionsSplit(c: GoodConfig, s: State, a: seq<Request>, b: seq<Request>)
    ensures Decisions(c, s, a + b) == Decisions(c, s, a) + Decisions(c, After(c, s, a), b)
    ensures After(c, s, a + b) == After(c, After(c, s, a), b)
    decreases |a|
  {
    if a == [] {
      assert a + b == b;
    } else {
      assert (a + b)[1..] == a[1..] + b;
      DecisionsSplit(c, Allow(c, s, a[0]).0, a[1..], b);
    }
  }

  lemma {:induction false} PlainSplit(c: GoodConfig, m: map<string, Bucket>, a: seq<Request>, b: seq<Request>)
    ensures PlainDecisions(c, m, a + b) == PlainDecisions(c, m, a) + PlainDecisions(c, PlainAfter(c, m, a), b)
    ensures PlainAfter(c, m, a + b) == PlainAfter(c, PlainAfter(c, m, a), b)
    decreases |a|
  {
    if a == [] {
      assert a + b == b;
    } else {
      assert (a + b)[1..] == a[1..] + b;
      PlainSplit(c, PlainAllow(c, m, a[0]).0, a[1..], b);
    }
  }

  predicate AllTrue(d: seq<bool>) {
    forall i :: 0 <= i < |d| ==> d[i]
  }

  /** A bucket with credit for `n` tokens grants `n` requests at once, and then has that much less. */
  lemma {:induction false} PlainDrains(c: GoodConfig, m: map<string, Bucket>, k: string, now: int, n: nat)
    requires n <= c.burst && CreditOf(c, m, k, now) >= n * c.interval
    ensures AllTrue(PlainDecisions(c, m, Repeat(k, now, n)))
    ensures CreditOf(c, PlainAfter(c, m, Repeat(k, now, n)), k, now) == CreditOf(c, m, k, now) - n * c.interval
    decreases n
  {
    if n > 0 {
      RepeatTail(k, now, n);
      assert n * c.interval == (n - 1) * c.interval + c.interval;
      NonNegativeProduct(n - 1, c.interval);
      var m' := PlainAllow(c, m, Request(k, now)).0;
      PlainDrains(c, m', k, now, n - 1);
    }
  }

  lemma NonNegativeProduct(a: nat, b: nat)
    ensures a * b >= 0
  {
  }

  /** A bucket without credit for `n` tokens does not grant `n` requests at once. */
  lemma {:induction false} PlainRefuses(c: GoodConfig, m: map<string, Bucket>, k: string, now: int, n: nat)
    requires 0 <= CreditOf(c, m, k, now) < n * c.interval
    ensures !AllTrue(PlainDecisions(c, m, Repeat(k, now, n)))
    decreases n
  {
    RepeatTail(k, now, n);
    var (m', ok) := PlainAllow(c, m, Request(k, now));
    var d := PlainDecisions(c, m, Repeat(k, now, n));
    if ok {
      assert n * c.interval == (n - 1) * c.interval + c.interval;
      PlainRefuses(c, m', k, now, n - 1);
      var d' := PlainDecisions(c, m', Repeat(k, now, n - 1));
      var i :| 0 <= i < |d'| && !d'[i];
      assert d[i + 1] == d'[i];
    } else {
      assert !d[0];
    }
  }

  /** The evicting limiter right after `k` was evicted or first seen, and cleanup just ran. */
  lemma {:induction false} FreshGrants(c: GoodConfig, s: State, k: string, now: int, n: nat)
    requires s.lastCleanup == Some(now) && k in s.visitors && s.visitors[k].lastSeen == now
    requires n <= c.burst && Credit(c, s.visitors[k].bucket, now) >= n * c.interval
    ensures AllTrue(Decisions(c, s, Repeat(k, now, n)))
    ensures
      var s' := After(c, s, Repeat(k, now, n));
      s'.lastCleanup == Some(now) && k in s'.visitors && s'.visitors[k].lastSeen == now
    decreases n
  {
    if n > 0 {
      RepeatTail(k, now, n);
      assert n * c.interval == (n - 1) * c.interval + c.interval;
      NonNegativeProduct(n - 1, c.interval);
      var s' := Allow(c, s, Request(k, now)).0;
      FreshGrants(c, s', k, now, n - 1);
    }
  }

  lemma FirstAfterEviction(c: GoodConfig, s: State, k: string, now: int)
    requires c.burst >= 1
    requires s.lastCleanup.None? || now - s.lastCleanup.value >= c.ttl
    requires k in s.visitors ==> now - s.visitors[k].lastSeen >= c.ttl
    ensures
      var (s', ok) := Allow(c, s, Request(k, now));
      && ok && s'.lastCleanup == Some(now) && k in s'.visitors && s'.visitors[k].lastSeen == now
      && Credit(c, s'.visitors[k].bucket, now) >= (c.burst - 1) * c.interval
  {
    FullIsNonNegative(c);
    assert c.burst * c.interval == (c.burst - 1) * c.interval + c.interval;
    NonNegativeProduct(c.burst - 1, c.interval);
  }

  /** A full burst at a moment when cleanup runs and finds `k` idle or unknown is granted whole. */
  lemma BurstAfterEviction(c: GoodConfig, s: State, k: string, now: int)
    requires c.burst >= 1
    requires s.lastCleanup.None? || now - s.lastCleanup.value >= c.ttl
    requires k in s.visitors ==> now - s.visitors[k].lastSeen >= c.ttl
    ensures AllTrue(Decisions(c, s, Repeat(k, now, c.burst)))
    ensures
      var s' := After(c, s, Repeat(k, now, c.burst));
      s'.lastCleanup == Some(now) && k in s'.visitors && s'.visitors[k].lastSeen == now
  {
    hide Allow, Credit;
    RepeatTail(k, now, c.burst);
    FirstAfterEviction(c, s, k, now);
    FreshGrants(c, Allow(c, s, Request(k, now)).0, k, now, c.burst - 1);
  }

  /** Two full bursts, one idle period apart. */
  function TwoBursts(c: GoodConfig, k: string): seq<Request> {
    Repeat(k, 0, c.burst) + Repeat(k, c.ttl, c.burst)
  }

  /** When a bucket takes longer to refill than an idle key is kept, eviction shows: the evicting limiter grants
      both bursts, the other one does not. */
  lemma EvictionVisible(c: GoodConfig, k: string)
    requires c.burst * c.interval > c.ttl
    ensures TimeOrdered(TwoBursts(c, k))
    ensures Decisions(c, START, TwoBursts(c, k)) != PlainDecisions(c, map[], TwoBursts(c, k))
  {
    var first, second := Repeat(k, 0, c.burst), Repeat(k, c.ttl, c.burst);
    BothBurstsGranted(c, k);
    SecondBurstRefused(c, k);
    hide Decisions, PlainDecisions, Repeat;
    DecisionsSplit(c, START, first, second);
    PlainSplit(c, map[], first, second);
    var d, d' := Decisions(c, START, first + second), PlainDecisions(c, map[], first + second);
    assert d[c.burst..] == Decisions(c, After(c, START, first), second);
    assert d'[c.burst..] == PlainDecisions(c, PlainAfter(c, map[], first), second);
  }

  lemma BothBurstsGranted(c: GoodConfig, k: string)
    requires c.burst >= 1
    ensures AllTrue(Decisions(c, After(c, START, Repeat(k, 0, c.burst)), Repeat(k, c.ttl, c.burst)))
  {
    hide Decisions, After, Repeat;
    BurstAfterEviction(c, START, k, 0);
    BurstAfterEviction(c, After(c, START, Repeat(k, 0, c.burst)), k, c.ttl);
  }

  lemma SecondBurstRefused(c: GoodConfig, k: string)
    requires c.burst * c.interval > c.ttl
    ensures !AllTrue(PlainDecisions(c, PlainAfter(c, map[], Repeat(k, 0, c.burst)), Repeat(k, c.ttl, c.burst)))
  {
    assert c.burst >= 1;
    var m := PlainAfter(c, map[], Repeat(k, 0, c.burst));
    PlainDrains(c, map[], k, 0, c.burst);
    PlainHasKey(c, map[], k, 0, c.burst);
    hide PlainDecisions, PlainAfter, Repeat;
    assert CreditOf(c, m, k, c.ttl) == c.ttl;
    PlainRefuses(c, m, k, c.ttl, c.burst);
  }

  lemma {:induction false} PlainHasKey(c: GoodConfig, m: map<string, Bucket>, k: string, now: int, n: nat)
    requires n > 0 && (k in m ==> m[k].last <= now)
    ensures k in PlainAfter(c, m, Repeat(k, now, n)) && PlainAfter(c, m, Repeat(k, now, n))[k].last <= now
    decreases n
  {
    RepeatTail(k, now, n);
    if n > 1 {
      PlainHasKey(c, PlainAllow(c, m, Request(k, now)).0, k, now, n - 1);
    }
  }

  /** Eviction can never be noticed exactly when an empty bucket refills within the time an idle key is kept. */
  lemma EvictionInvisibleExactly(c: GoodConfig)
    ensures (forall requests :: TimeOrdered(requests) ==>
               Decisions(c, START, requests) == PlainDecisions(c, map[], requests))
            <==> c.burst * c.interval <= c.ttl
  {
    if c.burst * c.interval <= c.ttl {
      forall requests | TimeOrdered(requests)
        ensures Decisions(c, START, requests) == PlainDecisions(c, map[], requests)
      {
        EvictionInvisible(c, requests);
      }
    } else {
      EvictionVisible(c, "");
    }
  }

  /** The four limiters of the router refill in time. */
  lemma RouterLimitersRefill(eventsPerMinute: int, burst: nat)
    requires (eventsPerMinute, burst) in {(12, 5), (30, 10), (6, 3), (60, 10)}
    ensures burst * (MINUTE / eventsPerMinute) <= TTL
  {
  }

  // ---- Admissions in a window ----

  function Admissions(k: string, requests: seq<Request>, decisions: seq<bool>): nat
    requires |requests| == |decisions|
  {
    if requests == [] then 0
    else (if requests[0].key == k && decisions[0] then 1 else 0) + Admissions(k, requests[1..], decisions[1..])
  }

  /** One request: what it takes from the credit of `k`, and what waiting can add. */
  lemma PlainStep(c: GoodConfig, m: map<string, Bucket>, k: string, now: int, r: Request, later: int)
    requires now <= r.now <= later && forall x :: x in m ==> GoodBucket(c, m[x], now)
    ensures
      var (m', ok) := PlainAllow(c, m, r);
      && (forall x :: x in m' ==> GoodBucket(c, m'[x], r.now))
      && 0 <= CreditOf(c, m', k, r.now)
      && CreditOf(c, m', k, r.now) == CreditOf(c, m, k, r.now) - (if r.key == k && ok then c.interval else 0)
      && CreditOf(c, m', k, later) <= CreditOf(c, m', k, r.now) + (later - r.now)
  {
    FullIsNonNegative(c);
  }

  /** Admissions are paid for by the credit at the start and by the time that passes. */
  lemma {:induction false} PlainBudget(c: GoodConfig, m: map<string, Bucket>, k: string, now: int, window: seq<Request>)
    requires TimeOrdered(window) && window != [] && now <= window[0].now
    requires forall x :: x in m ==> GoodBucket(c, m[x], now)
    ensures Admissions(k, window, PlainDecisions(c, m, window)) * c.interval
            <= CreditOf(c, m, k, window[0].now) + (window[|window| - 1].now - window[0].now)
    decreases |window|
  {
    var r := window[0];
    var (m', ok) := PlainAllow(c, m, r);
    var d := PlainDecisions(c, m, window);
    assert d[1..] == PlainDecisions(c, m', window[1..]);
    var first := if r.key == k && ok then 1 else 0;
    var rest := Admissions(k, window[1..], d[1..]);
    assert Admissions(k, window, d) == first + rest;
    PlainStep(c, m, k, now, r, if |window| > 1 then window[1].now else r.now);
    hide PlainAllow, CreditOf, GoodBucket, PlainDecisions;
    if |window| > 1 {
      PlainBudget(c, m', k, r.now, window[1..]);
      assert (first + rest) * c.interval == first * c.interval + rest * c.interval;
    } else {
      assert rest == 0;
    }
  }

  lemma {:induction false} PlainStaysGood(c: GoodConfig, m: map<string, Bucket>, now: int, requests: seq<Request>)
    requires TimeOrdered(requests) && (requests != [] ==> now <= requests[0].now)
    requires forall x :: x in m ==> GoodBucket(c, m[x], now)
    ensures
      var end := if requests == [] then now else requests[|requests| - 1].now;
      forall x :: x in PlainAfter(c, m, requests) ==> GoodBucket(c, PlainAfter(c, m, requests)[x], end)
    decreases |requests|
  {
    FullIsNonNegative(c);
    if requests != [] {
      PlainStaysGood(c, PlainAllow(c, m, requests[0]).0, requests[0].now, requests[1..]);
    }
  }

  lemma OrderedParts(earlier: seq<Request>, window: seq<Request>)
    requires TimeOrdered(earlier + window)
    ensures TimeOrdered(earlier) && TimeOrdered(window)
    ensures earlier != [] && window != [] ==> earlier[|earlier| - 1].now <= window[0].now
  {
    var all := earlier + window;
    forall i, j | 0 <= i < j < |earlier|
      ensures earlier[i].now <= earlier[j].now
    {
      assert all[i].now <= all[j].now;
    }
    forall i, j | 0 <= i < j < |window|
      ensures window[i].now <= window[j].now
    {
      assert all[|earlier| + i].now <= all[|earlier| + j].now;
    }
    if earlier != [] && window != [] {
      assert all[|earlier| - 1].now <= all[|earlier|].now;
    }
  }

  lemma SameDecisionsLater(c: GoodConfig, earlier: seq<Request>, window: seq<Request>)
    requires TimeOrdered(earlier + window) && c.burst * c.interval <= c.ttl
    ensures Decisions(c, After(c, START, earlier), window) == PlainDecisions(c, PlainAfter(c, map[], earlier), window)
  {
    EvictionInvisible(c, earlier + window);
    hide Decisions, PlainDecisions, After, PlainAfter;
    DecisionsSplit(c, START, earlier, window);
    PlainSplit(c, map[], earlier, window);
    assert Decisions(c, START, earlier + window)[|earlier|..] == Decisions(c, After(c, START, earlier), window);
    assert PlainDecisions(c, map[], earlier + window)[|earlier|..]
        == PlainDecisions(c, PlainAfter(c, map[], earlier), window);
  }

  /** In any window of any time-ordered run, a key is admitted at most `burst` times plus once per interval that
      passes in the window. */
  lemma WindowBound(c: GoodConfig, earlier: seq<Request>, window: seq<Request>, k: string)
    requires TimeOrdered(earlier + window) && window != [] && c.burst * c.interval <= c.ttl
    ensures
      var decisions := Decisions(c, After(c, START, earlier), window);
      Admissions(k, window, decisions) <= c.burst + (window[|window| - 1].now - window[0].now) / c.interval
  {
    OrderedParts(earlier, window);
    SameDecisionsLater(c, earlier, window);
    var start := if earlier == [] then window[0].now else earlier[|earlier| - 1].now;
    PlainStaysGood(c, map[], if earlier == [] then start else earlier[0].now, earlier);
    hide Decisions, PlainDecisions, After, PlainAfter, Admissions;
    PlainBudget(c, PlainAfter(c, map[], earlier), k, start, window);
    DivideBudget(Admissions(k, window, Decisions(c, After(c, START, earlier), window)), c.burst, c.interval,
                 window[|window| - 1].now - window[0].now);
  }

  lemma DivideBudget(n: nat, burst: nat, interval: int, elapsed: int)
    requires interval > 0 && elapsed >= 0 && n * interval <= burst * interval + elapsed
    ensures n <= burst + elapsed / interval
  {
    var q := elapsed / interval;
    assert elapsed == q * interval + elapsed % interval;
    assert (burst + q + 1) * interval == burst * interval + q * interval + interval;
    LessByFactor(n, burst + q + 1, interval);
  }

  lemma LessByFactor(a: int, b: int, factor: int)
    requires factor > 0 && a * factor < b * factor
    ensures a < b
  {
    assert (b - a) * factor > 0;
  }

  // ---- Nobody who keeps the pace is refused ----

  /** Requests of `k` are at least one interval apart. */
  predicate Paced(c: GoodConfig, k: string, requests: seq<Request>) {
    forall i, j :: 0 <= i < j < |requests| && requests[i].key == k && requests[j].key == k ==>
      requests[j].now - requests[i].now >= c.interval
  }

  /** The bucket of `k` has a token again by the time of the next request of `k`. */
  predicate Refilled(c: GoodConfig, m: map<string, Bucket>, k: string, requests: seq<Request>) {
    k in m ==> m[k].level >= 0 && forall i :: 0 <= i < |requests| && requests[i].key == k ==>
      requests[i].now - m[k].last >= c.interval
  }

  lemma PacedStep(c: GoodConfig, m: map<string, Bucket>, k: string, requests: seq<Request>)
    requires c.burst >= 1 && requests != [] && Paced(c, k, requests) && Refilled(c, m, k, requests)
    ensures
      var (m', ok) := PlainAllow(c, m, requests[0]);
      Refilled(c, m', k, requests[1..]) && (requests[0].key == k ==> ok)
  {
    FullIsNonNegative(c);
  }

  lemma PacedTail(c: GoodConfig, k: string, requests: seq<Request>)
    requires requests != [] && Paced(c, k, requests)
    ensures Paced(c, k, requests[1..])
  {
  }

  lemma {:induction false} PlainPaced(c: GoodConfig, m: map<string, Bucket>, k: string, requests: seq<Request>)
    requires c.burst >= 1 && Paced(c, k, requests) && Refilled(c, m, k, requests)
    ensures forall i :: 0 <= i < |requests| && requests[i].key == k ==> PlainDecisions(c, m, requests)[i]
    decreases |requests|
  {
    if requests != [] {
      PacedStep(c, m, k, requests);
      PacedTail(c, k, requests);
      hide PlainAllow, Paced, Refilled;
      PlainPaced(c, PlainAllow(c, m, requests[0]).0, k, requests[1..]);
      forall i | 0 < i < |requests| && requests[i].key == k
        ensures PlainDecisions(c, m, requests)[i]
      {
        assert requests[1..][i - 1] == requests[i];
      }
    }
  }

  /** Whoever waits an interval between requests is never refused, whatever others send: the other half of the bound
      on admissions. */
  lemma PacedIsAdmitted(c: GoodConfig, requests: seq<Request>, k: string)
    requires TimeOrdered(requests) && 1 <= c.burst && c.burst * c.interval <= c.ttl && Paced(c, k, requests)
    ensures forall i :: 0 <= i < |requests| && requests[i].key == k ==> Decisions(c, START, requests)[i]
  {
    EvictionInvisible(c, requests);
    PlainPaced(c, map[], k, requests);
  }
}
