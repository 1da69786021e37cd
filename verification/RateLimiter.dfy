/** The request rate limiters (backend/app/middleware/rate_limit.py): the
    in-process sliding window and the Redis fixed-window script, each compared
    with the complete list of the requests it has admitted. */
module RateLimiter {
  import opened Basics

  datatype Request = Request(key: string, at: Micros)

  datatype Config = Config(limit: int, window: Micros)

  /** Requests arrive in the order of a clock that does not go back. */
  ghost predicate Ordered(run: seq<Request>) {
    forall i, j :: 0 <= i < j < |run| ==> run[i].at <= run[j].at
  }

  /** How many admitted requests for `k` fall in the half-open interval [lo, hi). */
  function Within(log: seq<Request>, k: string, lo: Micros, hi: Micros): nat {
    if log == [] then 0
    else Within(log[..|log| - 1], k, lo, hi) +
         (if log[|log| - 1].key == k && lo <= log[|log| - 1].at < hi then 1 else 0)
  }

  // ---- The sliding window, keeping the complete log ---------------------------

  /** The instants logged for `k` that are later than `cutoff`. */
  function Recent(log: seq<Request>, k: string, cutoff: Micros): seq<Micros> {
    if log == [] then []
    else
      var earlier, r := Recent(log[..|log| - 1], k, cutoff), log[|log| - 1];
      if r.key == k && r.at > cutoff then earlier + [r.at] else earlier
  }

  /** The instants of a bucket that are later than `cutoff`. */
  function Later(bucket: seq<Micros>, cutoff: Micros): seq<Micros> {
    if bucket == [] then []
    else
      var earlier, t := Later(bucket[..|bucket| - 1], cutoff), bucket[|bucket| - 1];
      if t > cutoff then earlier + [t] else earlier
  }

  lemma {:induction false} LaterAppend(bucket: seq<Micros>, t: Micros, cutoff: Micros)
    ensures Later(bucket + [t], cutoff) == if t > cutoff then Later(bucket, cutoff) + [t] else Later(bucket, cutoff)
  {}

  predicate Admits(cfg: Config, log: seq<Request>, r: Request) {
    |Recent(log, r.key, r.at - cfg.window)| < cfg.limit
  }

  /** The requests admitted by a limiter that never forgets anything. */
  function Admitted(cfg: Config, run: seq<Request>): seq<Request> {
    if run == [] then []
    else
      var log := Admitted(cfg, run[..|run| - 1]);
      var r := run[|run| - 1];
      if Admits(cfg, log, r) then log + [r] else log
  }

  lemma {:induction false} WithinRecent(log: seq<Request>, k: string, lo: Micros, hi: Micros)
    ensures Within(log, k, lo, hi) <= |Recent(log, k, lo - 1)|
  {
    if log != [] { WithinRecent(log[..|log| - 1], k, lo, hi); }
  }

  lemma {:induction false} RecentShrinks(log: seq<Request>, k: string, early: Micros, late: Micros)
    requires early <= late
    ensures |Recent(log, k, late)| <= |Recent(log, k, early)|
    ensures Later(Recent(log, k, early), late) == Recent(log, k, late)
  {
    if log != [] {
      var r := log[|log| - 1];
      RecentShrinks(log[..|log| - 1], k, early, late);
      if r.key == k && r.at > early {
        LaterAppend(Recent(log[..|log| - 1], k, early), r.at, late);
      }
    }
  }

  /** No interval of one window length contains more than `limit` admitted requests. */
  lemma {:induction false} SlidingWindowBound(cfg: Config, run: seq<Request>, k: string, lo: Micros)
    requires 0 <= cfg.limit
    ensures Within(Admitted(cfg, run), k, lo, lo + cfg.window) <= cfg.limit
  {
    if run != [] {
      var log, r := Admitted(cfg, run[..|run| - 1]), run[|run| - 1];
      SlidingWindowBound(cfg, run[..|run| - 1], k, lo);
      assert (log + [r])[..|log|] == log;
      if Admits(cfg, log, r) && r.key == k && lo <= r.at < lo + cfg.window {
        WithinRecent(log, k, lo, lo + cfg.window);
        RecentShrinks(log, k, r.at - cfg.window, lo - 1);
      }
    }
  }

  lemma {:induction false} RecentIsWithin(log: seq<Request>, k: string, cutoff: Micros, now: Micros)
    requires forall i :: 0 <= i < |log| ==> log[i].at <= now
    ensures |Recent(log, k, cutoff)| == Within(log, k, cutoff + 1, now + 1)
  {
    if log != [] { RecentIsWithin(log[..|log| - 1], k, cutoff, now); }
  }

  lemma {:induction false} AdmittedAreRequests(cfg: Config, run: seq<Request>, now: Micros)
    requires forall i :: 0 <= i < |run| ==> run[i].at <= now
    ensures forall i :: 0 <= i < |Admitted(cfg, run)| ==> Admitted(cfg, run)[i].at <= now
  {
    if run != [] { AdmittedAreRequests(cfg, run[..|run| - 1], now); }
  }

  /** A request is refused only if the limit is used up: it is admitted exactly when
      fewer than `limit` requests of its key were admitted in the window that ends
      with it. */
  lemma {:induction false} SlidingAdmitsExactly(cfg: Config, run: seq<Request>, r: Request)
    requires Ordered(run + [r])
    ensures var log := Admitted(cfg, run);
            Admitted(cfg, run + [r]) ==
            if Within(log, r.key, r.at - cfg.window + 1, r.at + 1) < cfg.limit then log + [r] else log
  {
    assert (run + [r])[..|run|] == run;
    forall i | 0 <= i < |run| ensures run[i].at <= r.at {
      assert (run + [r])[i] == run[i] && (run + [r])[|run|] == r;
    }
    AdmittedAreRequests(cfg, run, r.at);
    RecentIsWithin(Admitted(cfg, run), r.key, r.at - cfg.window, r.at);
  }

  // ---- What the in-process limiter keeps ---------------------------------------

  type Buckets = map<string, seq<Micros>>

  function Bucket(b: Buckets, k: string): seq<Micros> { if k in b then b[k] else [] }

  /** The buckets hold exactly what is later than `cutoff`, and no empty bucket. */
  ghost predicate Holds(b: Buckets, log: seq<Request>, cutoff: Micros) {
    && (forall k :: Bucket(b, k) == Recent(log, k, cutoff))
    && (forall k :: k in b ==> b[k] != [])
  }

  lemma NothingRecent(k: string, cutoff: Micros)
    ensures Recent([], k, cutoff) == []
  {}

  lemma {:induction false} RecentAppend(log: seq<Request>, r: Request, k: string, cutoff: Micros)
    ensures Recent(log + [r], k, cutoff) ==
            if r.key == k && r.at > cutoff then Recent(log, k, cutoff) + [r.at] else Recent(log, k, cutoff)
  {}

  /** What the buckets must come to before the compaction at `cutoff`. */
  ghost predicate HoldsLater(b: Buckets, log: seq<Request>, cutoff: Micros) {
    forall k :: Later(Bucket(b, k), cutoff) == Recent(log, k, cutoff)
  }

  function PutBucket(b: Buckets, k: string, bucket: seq<Micros>): Buckets {
    if bucket != [] then b[k := bucket] else b - {k}
  }

  class InMemoryRateLimiter {
    var buckets: Buckets

    /** The requests admitted so far, none of them forgotten. */
    ghost var log: seq<Request>
    /** The cutoff of the latest call. */
    ghost var cutoff: Micros
    /** The requests made so far, admitted or not. */
    ghost var run: seq<Request>

    ghost predicate Valid() reads this { Holds(buckets, log, cutoff) }

    constructor ()
      ensures Valid() && log == [] && run == [] && buckets == map[]
    {
      buckets, log, cutoff, run := map[], [], 0, [];
    }

    /** The decision is about what the bucket keeps after the cutoff. If the clock has
        not gone back and the window has not grown since the call before, it is the
        decision of a limiter that keeps the complete log. */
    method Allow(key: string, cfg: Config, now: Micros) returns (allowed: bool, remaining: int)
      modifies this
      ensures cutoff == now - cfg.window
      ensures log == if allowed then old(log) + [Request(key, now)] else old(log)
      ensures run == old(run) + [Request(key, now)]
      ensures var kept := Later(old(Bucket(buckets, key)), cutoff);
              && allowed == (|kept| < cfg.limit)
              && remaining == Max(cfg.limit - |kept| - (if allowed then 1 else 0), 0)
              && forall k :: Bucket(buckets, k) ==
                   Later(if k != key then old(Bucket(buckets, k)) else if allowed then kept + [now] else kept, cutoff)
      ensures old(Valid()) && (old(log) == [] || old(cutoff) <= cutoff) ==>
                && Valid() && allowed == Admits(cfg, old(log), Request(key, now))
                && remaining == Max(cfg.limit - |Recent(old(log), key, cutoff)| - (if allowed then 1 else 0), 0)
                && (old(log) == Admitted(cfg, old(run)) ==> log == Admitted(cfg, run))
    {
      hide Recent, Later;
      var start := now - cfg.window;
      ghost var was, before := buckets, log;
      ghost var keepsLog := Valid() && (log == [] || cutoff <= start);
      ghost var early := if log == [] then start else cutoff;
      var bucket := Later(Bucket(buckets, key), start);
      if keepsLog { BucketsHold(was, before, cutoff, early, start, key); }
      allowed := |bucket| < cfg.limit;
      if allowed {
        bucket := bucket + [now];
        log := log + [Request(key, now)];
      }
      if bucket != [] { buckets := buckets[key := bucket]; } else { buckets := buckets - {key}; }
      remaining := Max(cfg.limit - |bucket|, 0);
      assert buckets == PutBucket(was, key, bucket);
      run := run + [Request(key, now)];
      assert run[..|run| - 1] == old(run);
      if keepsLog { PutKeepsLog(was, before, early, start, key, now, allowed, bucket); }
      Compact(start);
    }

    method Reset()
      modifies this
      ensures Valid() && log == [] && run == [] && buckets == map[]
    {
      buckets, log, cutoff, run := map[], [], 0, [];
    }

    /** Drops everything at or before the cutoff from every bucket. */
    method Compact(start: Micros)
      modifies this`buckets, this`cutoff
      ensures cutoff == start
      ensures forall k :: Bucket(buckets, k) == Later(old(Bucket(buckets, k)), start)
      ensures forall k :: k in buckets ==> buckets[k] != []
    {
      var keys := buckets.Keys;
      ghost var was := buckets;
      while keys != {}
        invariant keys <= was.Keys
        invariant forall k :: k in keys ==> k in buckets && buckets[k] == was[k]
        invariant forall k :: k !in keys ==> Bucket(buckets, k) == Later(Bucket(was, k), start)
        invariant forall k :: k in buckets && k !in keys ==> buckets[k] != []
        decreases keys
      {
        var k :| k in keys;
        var bucket := Later(buckets[k], start);
        if bucket != [] { buckets := buckets[k := bucket]; } else { buckets := buckets - {k}; }
        keys := keys - {k};
      }
      cutoff := start;
    }
  }

  /** Buckets that hold the log above the last cutoff hold it above the next one too. */
  lemma {:induction false} BucketsHold(was: Buckets, log: seq<Request>, cutoff: Micros, early: Micros, start: Micros,
          key: string)
    requires Holds(was, log, cutoff) && early == (if log == [] then start else cutoff) && early <= start
    ensures forall k :: Bucket(was, k) == Recent(log, k, early)
    ensures Later(Bucket(was, key), start) == Recent(log, key, start)
  {
    hide Recent, Later;
    if log == [] {
      forall k ensures Recent(log, k, start) == Recent(log, k, cutoff) {
        NothingRecent(k, start);
        NothingRecent(k, cutoff);
      }
    }
    RecentShrinks(log, key, early, start);
  }

  /** What is left of a bucket after the cutoff is what the complete log has there. */
  lemma {:induction false} KeptThenFiltered(before: seq<Request>, k: string, early: Micros, start: Micros,
          key: string, now: Micros, allowed: bool, bucket: seq<Micros>)
    requires early <= start
    requires k == key ==> bucket == if allowed then Recent(before, k, start) + [now] else Recent(before, k, start)
    requires k != key ==> bucket == Recent(before, k, early)
    ensures Later(bucket, start) ==
            Recent(if allowed then before + [Request(key, now)] else before, k, start)
  {
    RecentShrinks(before, k, early, start);
    RecentShrinks(before, k, start, start);
    if allowed { RecentAppend(before, Request(key, now), k, start); }
    if allowed && k == key { LaterAppend(Recent(before, k, start), now, start); }
  }

  /** Replacing one bucket brings every bucket to what the new log says. */
  lemma {:induction false} PutKeepsLog(was: Buckets, log: seq<Request>, early: Micros, start: Micros, key: string,
          now: Micros, allowed: bool, bucket: seq<Micros>)
    requires early <= start
    requires forall k :: Bucket(was, k) == Recent(log, k, early)
    requires bucket == if allowed then Recent(log, key, start) + [now] else Recent(log, key, start)
    ensures HoldsLater(PutBucket(was, key, bucket), if allowed then log + [Request(key, now)] else log, start)
  {
    var b := PutBucket(was, key, bucket);
    forall k ensures Later(Bucket(b, k), start) ==
                     Recent(if allowed then log + [Request(key, now)] else log, k, start)
    {
      assert k != key ==> Bucket(b, k) == Bucket(was, k);
      KeptThenFiltered(log, k, early, start, key, now, allowed, Bucket(b, k));
    }
  }

  // ---- The Redis fixed window ---------------------------------------------------

  /** A counter key and the instant it expires. */
  datatype Counter = Counter(count: nat, expiresAt: Micros)

  predicate Live(c: Option<Counter>, now: Micros) { c.Some? && now < c.value.expiresAt }

  /** The script: INCR, and EXPIRE when the counter has just been created. */
  function Incr(window: Micros, c: Option<Counter>, now: Micros): Counter {
    var current := if Live(c, now) then c.value.count + 1 else 1;
    if current == 1 then Counter(1, now + window) else c.value.(count := current)
  }

  function CounterAfter(window: Micros, run: seq<Request>, k: string): Option<Counter> {
    if run == [] then None
    else
      var c := CounterAfter(window, run[..|run| - 1], k);
      var r := run[|run| - 1];
      if r.key == k then Some(Incr(window, c, r.at)) else c
  }

  function FixedAdmitted(cfg: Config, run: seq<Request>): seq<Request> {
    if run == [] then []
    else
      var log, r := FixedAdmitted(cfg, run[..|run| - 1]), run[|run| - 1];
      if CounterAfter(cfg.window, run, r.key).value.count <= cfg.limit then log + [r] else log
  }

  function Spent(cfg: Config, c: Option<Counter>): int {
    if c.Some? then Min(c.value.count, cfg.limit) else 0
  }

  /** With `c` the counter of `k` after a run: what intervals starting at `lo`
      can contain, depending on where `lo` lies in the counter's window. */
  ghost predicate FixedBounds(cfg: Config, log: seq<Request>, k: string, c: Option<Counter>, lo: Micros) {
    var n := Within(log, k, lo, lo + cfg.window);
    && n <= 2 * cfg.limit - 1
    && (c.None? ==> n == 0)
    && (c.Some? ==>
          var start := c.value.expiresAt - cfg.window;
          && c.value.count >= 1
          && (lo >= c.value.expiresAt ==> n == 0)
          && (lo > start ==> n <= Spent(cfg, c) - 1)
          && (lo == start ==> n <= Spent(cfg, c))
          && (lo < start < lo + cfg.window ==> n <= cfg.limit - 1 + Spent(cfg, c)))
  }

  lemma {:induction false} WithinAppend(log: seq<Request>, r: Request, k: string, lo: Micros, hi: Micros)
    ensures Within(log + [r], k, lo, hi) == Within(log, k, lo, hi) + (if r.key == k && lo <= r.at < hi then 1 else 0)
  {}

  lemma {:induction false} FixedAppend(cfg: Config, run: seq<Request>, r: Request, k: string)
    ensures CounterAfter(cfg.window, run + [r], k) ==
            var c := CounterAfter(cfg.window, run, k);
            if r.key == k then Some(Incr(cfg.window, c, r.at)) else c
    ensures FixedAdmitted(cfg, run + [r]) ==
            if Incr(cfg.window, CounterAfter(cfg.window, run, r.key), r.at).count <= cfg.limit
            then FixedAdmitted(cfg, run) + [r] else FixedAdmitted(cfg, run)
  {}

  /** One request of the key keeps the bounds. */
  lemma FixedBoundsStep(cfg: Config, log: seq<Request>, r: Request, c: Option<Counter>, lo: Micros)
    requires 1 <= cfg.limit && 1 <= cfg.window && FixedBounds(cfg, log, r.key, c, lo)
    requires c.Some? ==> c.value.expiresAt <= r.at + cfg.window
    ensures var next := Incr(cfg.window, c, r.at);
            FixedBounds(cfg, if next.count <= cfg.limit then log + [r] else log, r.key, Some(next), lo)
  {}

  lemma {:induction false} FixedBoundsHold(cfg: Config, run: seq<Request>, k: string, lo: Micros)
    requires 1 <= cfg.limit && 1 <= cfg.window && Ordered(run)
    ensures FixedBounds(cfg, FixedAdmitted(cfg, run), k, CounterAfter(cfg.window, run, k), lo)
    ensures run != [] && CounterAfter(cfg.window, run, k).Some? ==>
              CounterAfter(cfg.window, run, k).value.expiresAt <= run[|run| - 1].at + cfg.window
  {
    if run != [] {
      hide Within;
      var before, r := run[..|run| - 1], run[|run| - 1];
      FixedBoundsHold(cfg, before, k, lo);
      assert run == before + [r];
      FixedAppend(cfg, before, r, k);
      WithinAppend(FixedAdmitted(cfg, before), r, k, lo, lo + cfg.window);
      if r.key == k { FixedBoundsStep(cfg, FixedAdmitted(cfg, before), r, CounterAfter(cfg.window, before, k), lo); }
    }
  }

  /** A fixed window admits at most 2 * limit - 1 requests for one key in any
      interval of window length: one less than twice the limit, because the
      request that opened the earlier window lies outside the interval. */
  lemma {:induction false} FixedWindowBound(cfg: Config, run: seq<Request>, k: string, lo: Micros)
    requires 1 <= cfg.limit && 1 <= cfg.window && Ordered(run)
    ensures Within(FixedAdmitted(cfg, run), k, lo, lo + cfg.window) <= 2 * cfg.limit - 1
  {
    FixedBoundsHold(cfg, run, k, lo);
  }

  /** As many were admitted in the window of the counter as it counts, up to the limit. */
  predicate Counted(cfg: Config, log: seq<Request>, k: string, c: Option<Counter>) {
    c.Some? ==> Within(log, k, c.value.expiresAt - cfg.window, c.value.expiresAt) == Min(c.value.count, cfg.limit)
  }

  lemma {:induction false} CountedStep(cfg: Config, log: seq<Request>, r: Request, c: Option<Counter>)
    requires 1 <= cfg.limit && 1 <= cfg.window && Counted(cfg, log, r.key, c) && FixedBounds(cfg, log, r.key, c, r.at)
    requires c.Some? ==> c.value.expiresAt <= r.at + cfg.window
    ensures var next := Incr(cfg.window, c, r.at);
            Counted(cfg, if next.count <= cfg.limit then log + [r] else log, r.key, Some(next))
  {
    hide Within;
    var next := Incr(cfg.window, c, r.at);
    WithinAppend(log, r, r.key, next.expiresAt - cfg.window, next.expiresAt);
  }

  lemma {:induction false} WindowIsCounted(cfg: Config, run: seq<Request>, k: string)
    requires 1 <= cfg.limit && 1 <= cfg.window && Ordered(run)
    ensures Counted(cfg, FixedAdmitted(cfg, run), k, CounterAfter(cfg.window, run, k))
  {
    hide Within, FixedAdmitted, CounterAfter, FixedBounds;
    NoCounterYet(cfg.window, k);
    if run != [] {
      var before, r := run[..|run| - 1], run[|run| - 1];
      var c := CounterAfter(cfg.window, before, k);
      WindowIsCounted(cfg, before, k);
      assert run == before + [r];
      FixedAppend(cfg, before, r, k);
      FixedBoundsHold(cfg, before, k, r.at);
      if before != [] { assert before[|before| - 1].at <= r.at; }
      if r.key == k {
        CountedStep(cfg, FixedAdmitted(cfg, before), r, c);
      } else if c.Some? {
        WithinAppend(FixedAdmitted(cfg, before), r, k, c.value.expiresAt - cfg.window, c.value.expiresAt);
      }
    }
  }

  lemma NoCounterYet(window: Micros, k: string)
    ensures CounterAfter(window, [], k) == None
  {}

  /** A request that finds a window open is admitted exactly when fewer than `limit`
      requests of its key were admitted in that window; one that finds none opens
      one of full length and is admitted. */
  lemma {:induction false} FixedAdmitsExactly(cfg: Config, run: seq<Request>, r: Request)
    requires 1 <= cfg.limit && 1 <= cfg.window && Ordered(run)
    ensures var log, c := FixedAdmitted(cfg, run), CounterAfter(cfg.window, run, r.key);
            var open := c.Some? && r.at < c.value.expiresAt;
            && FixedAdmitted(cfg, run + [r]) ==
               (if open && Within(log, r.key, c.value.expiresAt - cfg.window, c.value.expiresAt) >= cfg.limit
                then log else log + [r])
            && var after := CounterAfter(cfg.window, run + [r], r.key);
            && after.Some? && after.value.expiresAt == if open then c.value.expiresAt else r.at + cfg.window
  {
    hide Within, FixedAdmitted, CounterAfter;
    WindowIsCounted(cfg, run, r.key);
    FixedAppend(cfg, run, r, r.key);
    FixedBoundsHold(cfg, run, r.key, r.at);
    NoCounterYet(cfg.window, r.key);
  }

  /** `run` followed by `n` copies of one request. */
  function Again(run: seq<Request>, r: Request, n: nat): seq<Request> {
    if n == 0 then run else Again(run, r, n - 1) + [r]
  }

  /** `c` counts the requests of the window that is live at `now`, if any. */
  ghost predicate CountIs(window: Micros, run: seq<Request>, k: string, now: Micros, c: nat) {
    var live := CounterAfter(window, run, k);
    if c == 0 then !Live(live, now) else Live(live, now) && live.value.count == c
  }

  /** When the counter of a key expires. */
  ghost function Expiry(window: Micros, run: seq<Request>, k: string): Option<Micros> {
    var c := CounterAfter(window, run, k);
    if c.Some? then Some(c.value.expiresAt) else None
  }

  /** One more request while the count is below the limit. */
  lemma {:induction false} OneMore(cfg: Config, run: seq<Request>, r: Request, c: nat, lo: Micros)
    requires 1 <= cfg.window && lo <= r.at < lo + cfg.window
    requires c < cfg.limit && CountIs(cfg.window, run, r.key, r.at, c)
    ensures CountIs(cfg.window, run + [r], r.key, r.at, c + 1)
    ensures Within(FixedAdmitted(cfg, run + [r]), r.key, lo, lo + cfg.window) ==
            Within(FixedAdmitted(cfg, run), r.key, lo, lo + cfg.window) + 1
    ensures c > 0 ==> Expiry(cfg.window, run + [r], r.key) == Expiry(cfg.window, run, r.key)
  {}

  /** `n` more requests at one instant of a window are all admitted while the
      count stays within the limit. */
  lemma {:induction false} Burst(cfg: Config, run: seq<Request>, r: Request, n: nat, c: nat, lo: Micros)
    requires 1 <= cfg.window && lo <= r.at < lo + cfg.window
    requires c + n <= cfg.limit && CountIs(cfg.window, run, r.key, r.at, c)
    ensures CountIs(cfg.window, Again(run, r, n), r.key, r.at, c + n)
    ensures Within(FixedAdmitted(cfg, Again(run, r, n)), r.key, lo, lo + cfg.window) ==
            Within(FixedAdmitted(cfg, run), r.key, lo, lo + cfg.window) + n
    ensures c > 0 ==> Expiry(cfg.window, Again(run, r, n), r.key) == Expiry(cfg.window, run, r.key)
  {
    hide CounterAfter, FixedAdmitted, CountIs, Within, Expiry;
    if n > 0 {
      Burst(cfg, run, r, n - 1, c, lo);
      OneMore(cfg, Again(run, r, n - 1), r, c + n - 1, lo);
    }
  }

  /** One request opens a window and the rest of the limit is used at its end. */
  function FullWindow(cfg: Config, k: string): seq<Request>
    requires 1 <= cfg.limit
  {
    Again([Request(k, 0)], Request(k, cfg.window - 1), cfg.limit - 1)
  }

  lemma {:induction false} OpeningRequest(cfg: Config, first: Request)
    requires 1 <= cfg.limit
    ensures CounterAfter(cfg.window, [first], first.key) == Some(Counter(1, first.at + cfg.window))
    ensures FixedAdmitted(cfg, [first]) == [first]
    ensures forall at :: at < first.at + cfg.window ==> CountIs(cfg.window, [first], first.key, at, 1)
  {}

  lemma {:induction false} FullWindowFacts(cfg: Config, k: string)
    requires 1 <= cfg.limit && 2 <= cfg.window
    ensures CounterAfter(cfg.window, FullWindow(cfg, k), k) == Some(Counter(cfg.limit, cfg.window))
    ensures Within(FixedAdmitted(cfg, FullWindow(cfg, k)), k, cfg.window - 1, 2 * cfg.window - 1) == cfg.limit - 1
  {
    hide CounterAfter, FixedAdmitted, Within, Again, CountIs;
    var first, last, lo := Request(k, 0), Request(k, cfg.window - 1), cfg.window - 1;
    OpeningRequest(cfg, first);
    EarlierIsOutside(first, lo, lo + cfg.window);
    Burst(cfg, [first], last, cfg.limit - 1, 1, lo);
    CountGivesCounter(cfg.window, FullWindow(cfg, k), k, last.at, cfg.limit);
  }

  lemma CountGivesCounter(window: Micros, run: seq<Request>, k: string, now: Micros, c: nat)
    requires CountIs(window, run, k, now, c) && c > 0
    ensures CounterAfter(window, run, k).Some? && CounterAfter(window, run, k).value.count == c
  {}

  lemma EarlierIsOutside(r: Request, lo: Micros, hi: Micros)
    requires r.at < lo
    ensures Within([r], r.key, lo, hi) == 0
  {}

  function TwoBursts(cfg: Config, k: string): seq<Request>
    requires 1 <= cfg.limit
  {
    Again(FullWindow(cfg, k), Request(k, cfg.window), cfg.limit)
  }

  lemma {:induction false} TwoBurstsOrdered(cfg: Config, k: string)
    requires 1 <= cfg.limit && 2 <= cfg.window
    ensures Ordered(TwoBursts(cfg, k))
  {
    AgainElements([Request(k, 0)], Request(k, cfg.window - 1), cfg.limit - 1);
    AgainElements(FullWindow(cfg, k), Request(k, cfg.window), cfg.limit);
  }

  /** A run that left its window expired can take the whole limit once more. */
  lemma {:induction false} WholeLimitAgain(cfg: Config, full: seq<Request>, next: Request, lo: Micros)
    requires 1 <= cfg.limit && 1 <= cfg.window && lo <= next.at < lo + cfg.window
    requires !Live(CounterAfter(cfg.window, full, next.key), next.at)
    ensures Within(FixedAdmitted(cfg, Again(full, next, cfg.limit)), next.key, lo, lo + cfg.window) ==
            Within(FixedAdmitted(cfg, full), next.key, lo, lo + cfg.window) + cfg.limit
  {
    Burst(cfg, full, next, cfg.limit, 0, lo);
  }

  /** The bound is reached: a full window, and the whole limit again at the
      start of the next one. */
  lemma {:induction false} FixedWindowBoundIsReached(cfg: Config, k: string)
    requires 1 <= cfg.limit && 2 <= cfg.window
    ensures Ordered(TwoBursts(cfg, k))
    ensures var lo := cfg.window - 1;
            Within(FixedAdmitted(cfg, TwoBursts(cfg, k)), k, lo, lo + cfg.window) == 2 * cfg.limit - 1
  {
    hide FixedAdmitted, Within, CounterAfter, Again, Ordered;
    TwoBurstsOrdered(cfg, k);
    FullWindowFacts(cfg, k);
    WholeLimitAgain(cfg, FullWindow(cfg, k), Request(k, cfg.window), cfg.window - 1);
  }

  lemma {:induction false} AgainElements(run: seq<Request>, r: Request, n: nat)
    ensures |Again(run, r, n)| == |run| + n
    ensures forall i :: 0 <= i < |run| + n ==> Again(run, r, n)[i] == if i < |run| then run[i] else r
  {
    if n > 0 { AgainElements(run, r, n - 1); }
  }

  const SECOND: Micros := 1_000_000

  /** `retryAfter` is the life left to the counter, a second at least. */
  datatype Decision = Decision(allowed: bool, remaining: int, retryAfter: Micros)

  /** The requests for one key. */
  function SameKey(k: string): Request -> bool { (r: Request) => r.key == k }

  /** From a counter that expires at `end`: it is still that one, or a younger one that
      has counted only requests made since. */
  lemma {:induction false} CountedSince(window: Micros, run: seq<Request>, between: seq<Request>, k: string,
          end: Micros)
    requires CounterAfter(window, run, k).Some? && CounterAfter(window, run, k).value.expiresAt == end
    ensures var c := CounterAfter(window, run + between, k);
            c.Some? && (c.value.expiresAt == end || c.value.count <= Count(between, SameKey(k)))
  {
    if between == [] {
      assert run + between == run;
    } else {
      var front, r := between[..|between| - 1], between[|between| - 1];
      assert (run + between)[..|run + between| - 1] == run + front;
      CountedSince(window, run, front, k, end);
    }
  }

  /** A caller that waits out the life left to its counter is admitted, unless as many
      requests of its key as the limit have been made in the meantime. */
  lemma {:induction false} WaitingIsEnough(cfg: Config, run: seq<Request>, r: Request, between: seq<Request>,
          later: Request)
    requires later.key == r.key && Count(between, SameKey(r.key)) < cfg.limit
    requires later.at >= r.at + RetryAfter(cfg, run, r)
    ensures var before := run + [r] + between;
            FixedAdmitted(cfg, before + [later]) == FixedAdmitted(cfg, before) + [later]
  {
    assert (run + [r])[..|run|] == run;
    var before := run + [r] + between;
    assert (before + [later])[..|before|] == before;
    CountedSince(cfg.window, run + [r], between, r.key, CounterAfter(cfg.window, run + [r], r.key).value.expiresAt);
  }

  /** How long the caller of the last request is told to wait. */
  function RetryAfter(cfg: Config, run: seq<Request>, r: Request): Micros {
    assert (run + [r])[..|run|] == run;
    Max(CounterAfter(cfg.window, run + [r], r.key).value.expiresAt - r.at, SECOND)
  }

  function CounterIn(counters: map<string, Counter>, k: string): Option<Counter> {
    if k in counters then Some(counters[k]) else None
  }

  /** The counters are those the requests leave. */
  ghost predicate Counts(counters: map<string, Counter>, window: Micros, run: seq<Request>) {
    forall k :: CounterIn(counters, k) == CounterAfter(window, run, k)
  }

  lemma CountsOneMore(cfg: Config, counters: map<string, Counter>, run: seq<Request>, r: Request)
    requires Counts(counters, cfg.window, run)
    ensures var next := Incr(cfg.window, CounterIn(counters, r.key), r.at);
            && Counts(counters[r.key := next], cfg.window, run + [r])
            && RetryAfter(cfg, run, r) == Max(next.expiresAt - r.at, SECOND)
            && FixedAdmitted(cfg, run + [r]) ==
               if next.count <= cfg.limit then FixedAdmitted(cfg, run) + [r] else FixedAdmitted(cfg, run)
  {
    hide Incr, FixedAdmitted, CounterAfter;
    forall k ensures CounterIn(counters[r.key := Incr(cfg.window, CounterIn(counters, r.key), r.at)], k) ==
                     CounterAfter(cfg.window, run + [r], k)
    {
      FixedAppend(cfg, run, r, k);
    }
    FixedAppend(cfg, run, r, r.key);
  }

  class RedisRateLimiter {
    var counters: map<string, Counter>

    /** The requests seen so far, in order. */
    ghost var run: seq<Request>

    function CounterOf(k: string): Option<Counter> reads this { CounterIn(counters, k) }

    ghost predicate Valid(window: Micros) reads this { Counts(counters, window, run) }

    constructor (window: Micros)
      ensures Valid(window) && run == []
    {
      counters, run := map[], [];
    }

    /** The script's step on one counter. While the window stays the same, the decisions
        are those of the fixed-window specification for all requests so far. */
    method Allow(key: string, cfg: Config, now: Micros) returns (d: Decision)
      modifies this
      ensures run == old(run) + [Request(key, now)]
      ensures counters == old(counters)[key := Incr(cfg.window, old(CounterOf(key)), now)]
      ensures var c := counters[key];
              d == Decision(c.count <= cfg.limit, Max(cfg.limit - c.count, 0), Max(c.expiresAt - now, SECOND))
      ensures old(Valid(cfg.window)) ==>
                && Valid(cfg.window) && d.retryAfter == RetryAfter(cfg, old(run), Request(key, now))
                && FixedAdmitted(cfg, run) ==
                   FixedAdmitted(cfg, old(run)) + (if d.allowed then [Request(key, now)] else [])
    {
      hide Counts, FixedAdmitted, RetryAfter;
      var live := key in counters && now < counters[key].expiresAt;
      var current := if live then counters[key].count + 1 else 1;
      if Counts(counters, cfg.window, run) { CountsOneMore(cfg, counters, run, Request(key, now)); }
      if current == 1 {
        counters := counters[key := Counter(1, now + cfg.window)];
      } else {
        counters := counters[key := Counter(current, counters[key].expiresAt)];
      }
      d := Decision(current <= cfg.limit, Max(cfg.limit - current, 0), Max(counters[key].expiresAt - now, SECOND));
      run := run + [Request(key, now)];
    }
  }
}
