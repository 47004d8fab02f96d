/** The fixed-window hit counter, and what it bounds in any sliding window. */
module RateLimit {
  import opened Common

  type Counters = map<string, Entry<nat>>

  /** INCR, arming the expiry when the count is one. */
  function AfterHit(windowMs: int, counters: Counters, key: string, now: int): Counters {
    var hits := if Live(counters, key, now) then counters[key].value + 1 else 1;
    counters[key := Entry(hits, if hits == 1 then now + windowMs else counters[key].expiresAt)]
  }

  datatype Hit = Hit(key: string, at: int)

  predicate Ordered(hits: seq<Hit>) {
    forall i, j | 0 <= i <= j < |hits| :: hits[i].at <= hits[j].at
  }

  function After(windowMs: int, hits: seq<Hit>): Counters {
    if hits == [] then map[]
    else
      var last := hits[|hits| - 1];
      AfterHit(windowMs, After(windowMs, hits[..|hits| - 1]), last.key, last.at)
  }

  /** totalHits as answered to the i-th hit. */
  function Answer(windowMs: int, hits: seq<Hit>, i: nat): nat
    requires i < |hits|
  {
    var counters := After(windowMs, hits[..i + 1]);
    if hits[i].key in counters then counters[hits[i].key].value else 0
  }

  /** The instant at which the window of the i-th hit opened. */
  function Anchor(windowMs: int, hits: seq<Hit>, i: nat): int
    requires i < |hits|
  {
    var counters := After(windowMs, hits[..i + 1]);
    if hits[i].key in counters then counters[hits[i].key].expiresAt - windowMs else 0
  }

  predicate Counted(windowMs: int, hits: seq<Hit>, i: nat, key: string, from: int, to: int, limit: nat)
    requires i < |hits|
  {
    hits[i].key == key && from <= hits[i].at <= to && Answer(windowMs, hits, i) <= limit
  }

  /** The hits on a key, among the first n, that lie in the interval and were answered with at most `limit`. */
  function Passed(windowMs: int, hits: seq<Hit>, n: nat, key: string, from: int, to: int, limit: nat): nat
    requires n <= |hits|
  {
    if n == 0 then 0
    else Passed(windowMs, hits, n - 1, key, from, to, limit) + if Counted(windowMs, hits, n - 1, key, from, to, limit) then 1 else 0
  }

  /** How much the counter's present window still leaves open. */
  ghost predicate PassedBound(windowMs: int, counters: Counters, key: string, from: int, limit: nat, passed: int) {
    if key !in counters then passed == 0
    else
      var h, ends := counters[key].value, counters[key].expiresAt;
      && h >= 1
      && (ends <= from ==> passed == 0)
      && (ends - windowMs <= from ==> passed <= Min(h, limit))
      && (from < ends - windowMs <= from + windowMs ==> passed <= limit + Min(h, limit))
      && passed <= 2 * limit
  }

  predicate Admits(counters: Counters, hit: Hit, key: string, from: int, windowMs: int, limit: nat) {
    hit.key == key && from <= hit.at <= from + windowMs && key in counters && counters[key].value <= limit
  }

  /** A hit in the running window. */
  lemma PassedInWindow(windowMs: int, counters: Counters, key: string, from: int, limit: nat, passed: int, hit: Hit)
    requires windowMs > 0 && PassedBound(windowMs, counters, key, from, limit, passed)
    requires hit.key == key && Live(counters, key, hit.at) && counters[key].expiresAt - windowMs <= hit.at
    ensures
      var next := AfterHit(windowMs, counters, key, hit.at);
      PassedBound(windowMs, next, key, from, limit, passed + if Admits(next, hit, key, from, windowMs, limit) then 1 else 0)
  {
  }

  /** A hit that opens a window. */
  lemma PassedNewWindow(windowMs: int, counters: Counters, key: string, from: int, limit: nat, passed: int, hit: Hit)
    requires windowMs > 0 && PassedBound(windowMs, counters, key, from, limit, passed)
    requires hit.key == key && !Live(counters, key, hit.at)
    ensures
      var next := AfterHit(windowMs, counters, key, hit.at);
      PassedBound(windowMs, next, key, from, limit, passed + if Admits(next, hit, key, from, windowMs, limit) then 1 else 0)
  {
  }

  lemma PassedStep(windowMs: int, counters: Counters, key: string, from: int, limit: nat, passed: int, hit: Hit)
    requires windowMs > 0 && PassedBound(windowMs, counters, key, from, limit, passed)
    requires key in counters ==> counters[key].expiresAt - windowMs <= hit.at
    ensures
      var next := AfterHit(windowMs, counters, hit.key, hit.at);
      PassedBound(windowMs, next, key, from, limit, passed + if Admits(next, hit, key, from, windowMs, limit) then 1 else 0)
  {
    if hit.key == key {
      if Live(counters, key, hit.at) {
        PassedInWindow(windowMs, counters, key, from, limit, passed, hit);
      } else {
        PassedNewWindow(windowMs, counters, key, from, limit, passed, hit);
      }
    }
  }

  lemma AfterNext(windowMs: int, hits: seq<Hit>, n: nat)
    requires n < |hits|
    ensures After(windowMs, hits[..n + 1]) == AfterHit(windowMs, After(windowMs, hits[..n]), hits[n].key, hits[n].at)
  {
    assert hits[..n + 1][..n] == hits[..n];
  }

  lemma OpenedBefore(windowMs: int, hits: seq<Hit>, n: nat, key: string)
    requires windowMs > 0 && Ordered(hits) && n < |hits| && key in After(windowMs, hits[..n])
    ensures After(windowMs, hits[..n])[key].expiresAt - windowMs <= hits[n].at
  {
    CounterIsExact(windowMs, hits, n, key);
  }

  lemma {:induction false} PassedInvariant(windowMs: int, hits: seq<Hit>, n: nat, key: string, from: int, limit: nat)
    requires windowMs > 0 && Ordered(hits) && n <= |hits|
    ensures PassedBound(windowMs, After(windowMs, hits[..n]), key, from, limit, Passed(windowMs, hits, n, key, from, from + windowMs, limit))
    decreases n
  {
    if n > 0 {
      var counters := After(windowMs, hits[..n - 1]);
      PassedInvariant(windowMs, hits, n - 1, key, from, limit);
      if key in counters { OpenedBefore(windowMs, hits, n - 1, key); }
      PassedStep(windowMs, counters, key, from, limit, Passed(windowMs, hits, n - 1, key, from, from + windowMs, limit), hits[n - 1]);
      AfterNext(windowMs, hits, n - 1);
    }
  }

  /** However the hits arrive, no interval of one window's length holds more than twice the limit of hits answered within the limit. */
  lemma SlidingWindowBound(windowMs: int, hits: seq<Hit>, key: string, from: int, limit: nat)
    requires windowMs > 0 && Ordered(hits)
    ensures Passed(windowMs, hits, |hits|, key, from, from + windowMs, limit) <= 2 * limit
  {
    PassedInvariant(windowMs, hits, |hits|, key, from, limit);
  }

  /** The hits on a key among the first n that fall into the window opened at `anchor`. */
  function InWindow(windowMs: int, hits: seq<Hit>, n: nat, key: string, anchor: int): nat
    requires n <= |hits|
  {
    if n == 0 then 0
    else InWindow(windowMs, hits, n - 1, key, anchor)
         + if hits[n - 1].key == key && anchor <= hits[n - 1].at < anchor + windowMs then 1 else 0
  }

  lemma {:induction false} CounterIsExact(windowMs: int, hits: seq<Hit>, n: nat, key: string)
    requires windowMs > 0 && Ordered(hits) && n <= |hits|
    ensures
      var counters := After(windowMs, hits[..n]);
      && (key in counters <==> exists i :: 0 <= i < n && hits[i].key == key)
      && (key in counters ==>
            var anchor := counters[key].expiresAt - windowMs;
            counters[key].value == InWindow(windowMs, hits, n, key, anchor) && counters[key].value >= 1
            && (forall i | 0 <= i < n && hits[i].key == key :: hits[i].at < anchor + windowMs)
            && anchor <= (if n == 0 then anchor else hits[n - 1].at))
    decreases n
  {
    if n > 0 {
      CounterIsExact(windowMs, hits, n - 1, key);
      assert hits[..n][..n - 1] == hits[..n - 1];
      var before := After(windowMs, hits[..n - 1]);
      if hits[n - 1].key == key && !Live(before, key, hits[n - 1].at) {
        NothingYet(windowMs, hits, n - 1, key, hits[n - 1].at);
      }
    }
  }

  /** Hits that all lie before an instant are none of the window opened there. */
  lemma {:induction false} NothingYet(windowMs: int, hits: seq<Hit>, n: nat, key: string, anchor: int)
    requires n <= |hits| && forall i | 0 <= i < n && hits[i].key == key :: hits[i].at < anchor
    ensures InWindow(windowMs, hits, n, key, anchor) == 0
    decreases n
  {
    if n > 0 { NothingYet(windowMs, hits, n - 1, key, anchor); }
  }

  /** totalHits counts the hits of the window so far, and different windows of a key do not overlap. */
  lemma WindowsCountExactly(windowMs: int, hits: seq<Hit>, i: nat, j: nat)
    requires windowMs > 0 && Ordered(hits) && i <= j < |hits| && hits[i].key == hits[j].key
    ensures Answer(windowMs, hits, i) == InWindow(windowMs, hits, i + 1, hits[i].key, Anchor(windowMs, hits, i))
    ensures Anchor(windowMs, hits, i) <= hits[i].at < Anchor(windowMs, hits, i) + windowMs
    ensures Anchor(windowMs, hits, i) == Anchor(windowMs, hits, j)
            || Anchor(windowMs, hits, i) + windowMs <= Anchor(windowMs, hits, j)
  {
    CounterIsExact(windowMs, hits, i + 1, hits[i].key);
    WindowsDisjoint(windowMs, hits, i, j);
  }

  lemma {:induction false} WindowsDisjoint(windowMs: int, hits: seq<Hit>, i: nat, n: nat)
    requires windowMs > 0 && Ordered(hits) && i <= n < |hits|
    ensures
      var early, late := After(windowMs, hits[..i + 1]), After(windowMs, hits[..n + 1]);
      var key := hits[i].key;
      key in early && key in late
      && (early[key].expiresAt == late[key].expiresAt || early[key].expiresAt <= late[key].expiresAt - windowMs)
    decreases n
  {
    assert hits[..n + 1][..n] == hits[..n];
    CounterIsExact(windowMs, hits, n, hits[i].key);
    if i < n {
      WindowsDisjoint(windowMs, hits, i, n - 1);
    }
  }

  /** `limit` hits at 0 and as many when that window ends. */
  function Burst(windowMs: int, limit: nat): (hits: seq<Hit>)
    ensures |hits| == 2 * limit
  {
    seq(2 * limit, i => Hit("k", if i < limit then 0 else windowMs))
  }

  lemma {:induction false} BurstCounters(windowMs: int, limit: nat, n: nat)
    requires windowMs > 0 && 0 < n <= 2 * limit
    ensures After(windowMs, Burst(windowMs, limit)[..n]) ==
            map["k" := if n <= limit then Entry(n, windowMs) else Entry(n - limit, 2 * windowMs)]
    decreases n
  {
    var hits := Burst(windowMs, limit);
    assert hits[..n][..n - 1] == hits[..n - 1];
    if n > 1 { BurstCounters(windowMs, limit, n - 1); }
  }

  lemma {:induction false} BurstPasses(windowMs: int, limit: nat, n: nat)
    requires windowMs > 0 && n <= 2 * limit
    ensures Passed(windowMs, Burst(windowMs, limit), n, "k", 0, windowMs, limit) == n
    decreases n
  {
    if n > 0 {
      BurstPasses(windowMs, limit, n - 1);
      BurstCounters(windowMs, limit, n);
      assert Counted(windowMs, Burst(windowMs, limit), n - 1, "k", 0, windowMs, limit);
    }
  }

  /** The bound is reached, for every window and limit. */
  lemma BoundIsTight(windowMs: int, limit: nat)
    requires windowMs > 0
    ensures
      var hits := Burst(windowMs, limit);
      Ordered(hits) && Passed(windowMs, hits, |hits|, "k", 0, windowMs, limit) == 2 * limit
  {
    BurstPasses(windowMs, limit, 2 * limit);
  }

  class RedisRateLimitStore {
    const windowMs: int
    var counters: Counters

    constructor (windowMs: int)
      ensures this.windowMs == windowMs && counters == map[]
    {
      this.windowMs, counters := windowMs, map[];
    }

    /** The script and the answer built from it. */
    method Increment(key: string, now: int) returns (totalHits: nat, resetTime: Option<int>)
      requires windowMs > 0
      modifies this`counters
      ensures counters == AfterHit(windowMs, old(counters), key, now)
      ensures totalHits == counters[key].value && resetTime == Some(counters[key].expiresAt)
      ensures now < resetTime.value
      ensures if Live(old(counters), key, now)
              then totalHits == old(counters)[key].value + 1 && (totalHits > 1 ==> resetTime == Some(old(counters)[key].expiresAt))
              else totalHits == 1 && resetTime == Some(now + windowMs)
    {
      var live := Live(counters, key, now);
      var hits := if live then counters[key].value + 1 else 1;
      var expiresAt := if live then counters[key].expiresAt else now;
      if hits == 1 { expiresAt := now + windowMs; }
      counters := counters[key := Entry(hits, expiresAt)];
      var ttl := expiresAt - now;
      return hits, if ttl >= 0 then Some(now + ttl) else None;
    }
  }
}
