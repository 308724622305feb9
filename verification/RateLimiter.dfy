/** The gateway's per-IP limiter, with its opportunistic sweep of elapsed buckets. */
module RateLimiting {
  import opened Text
  import opened FixedWindow

  datatype RateBucket = RateBucket(count: nat, resetAt: int)

  type Buckets = map<string, RateBucket>

  /** `remaining` is `None` where the source answers Infinity. */
  datatype HitResult = HitResult(allowed: bool, remaining: Option<int>, resetAt: int, limit: int)

  const SWEEP_ABOVE := 10000

  /** The bucket of `ip` when its window is still open at `now`. */
  function Live(m: Buckets, ip: string, now: int): Option<RateBucket> {
    if ip in m && now < m[ip].resetAt then Some(m[ip]) else None
  }

  /** The bucket a hit counts against, after counting it. */
  function Touched(window: int, m: Buckets, ip: string, now: int): RateBucket {
    match Live(m, ip, now)
    case None => RateBucket(1, now + window)
    case Some(b) => b.(count := b.count + 1)
  }

  function Swept(m: Buckets, now: int): Buckets {
    map ip | ip in m && now < m[ip].resetAt :: m[ip]
  }

  /** The buckets after a hit; `sweepAbove` is the size that triggers a sweep, `None` for never. */
  function AfterHit(limit: int, window: int, sweepAbove: Option<nat>, m: Buckets, ip: string, now: int): Buckets {
    if limit <= 0 then m
    else
      var m' := m[ip := Touched(window, m, ip, now)];
      if sweepAbove.Some? && |m'| > sweepAbove.value then Swept(m', now) else m'
  }

  function AnswerTo(limit: int, window: int, m: Buckets, ip: string, now: int): HitResult {
    if limit <= 0 then HitResult(true, None, now + window, limit)
    else
      var b := Touched(window, m, ip, now);
      HitResult(b.count <= limit, Some(if limit < b.count then 0 else limit - b.count), b.resetAt, limit)
  }

  class RateLimiter {
    const limit: int
    const windowMs: int
    var buckets: Buckets

    constructor (limit: int, windowMs: int)
      ensures this.limit == limit && this.windowMs == windowMs && buckets == map[]
    {
      this.limit, this.windowMs, buckets := limit, windowMs, map[];
    }

    method Hit(ip: string, now: int) returns (r: HitResult)
      modifies this
      ensures r == AnswerTo(limit, windowMs, old(buckets), ip, now)
      ensures buckets == AfterHit(limit, windowMs, Some(SWEEP_ABOVE), old(buckets), ip, now)
    {
      if limit <= 0 {
        return HitResult(true, None, now + windowMs, limit);
      }
      var bucket := if ip in buckets && now < buckets[ip].resetAt then buckets[ip] else RateBucket(0, now + windowMs);
      bucket := bucket.(count := bucket.count + 1);
      buckets := buckets[ip := bucket];
      if |buckets| > SWEEP_ABOVE {
        Sweep(now);
      }
      r := HitResult(bucket.count <= limit, Some(if limit < bucket.count then 0 else limit - bucket.count),
                     bucket.resetAt, limit);
    }

    /** Delete the elapsed buckets one by one, in whatever order the map yields them. */
    method Sweep(now: int)
      modifies this
      ensures buckets == Swept(old(buckets), now)
    {
      var todo := buckets.Keys;
      while todo != {}
        invariant todo <= old(buckets).Keys && buckets.Keys <= old(buckets).Keys
        invariant forall ip | ip in old(buckets) ::
                    ip in buckets <==> ip in todo || now < old(buckets)[ip].resetAt
        invariant forall ip | ip in buckets :: buckets[ip] == old(buckets)[ip]
        decreases todo
      {
        var ip :| ip in todo;
        todo := todo - {ip};
        if now >= buckets[ip].resetAt {
          buckets := buckets - {ip};
        }
      }
    }
  }

  // ---------- the sweep is invisible ----------

  datatype Hit = Hit(ip: string, now: int)

  /** The answers to a run of hits, in order. */
  function Answers(limit: int, window: int, sweepAbove: Option<nat>, m: Buckets, hits: seq<Hit>): (rs: seq<HitResult>)
    ensures |rs| == |hits|
    decreases |hits|
  {
    if hits == [] then []
    else
      [AnswerTo(limit, window, m, hits[0].ip, hits[0].now)]
      + Answers(limit, window, sweepAbove, AfterHit(limit, window, sweepAbove, m, hits[0].ip, hits[0].now), hits[1..])
  }

  /** The clock of a run starts no earlier than `from` and never runs backwards. */
  predicate HitsInOrder(from: int, hits: seq<Hit>)
    decreases |hits|
  {
    hits == [] || (from <= hits[0].now && HitsInOrder(hits[0].now, hits[1..]))
  }

  /** Two limiters whose open windows are the same at `now`. */
  ghost predicate Alike(a: Buckets, b: Buckets, now: int) {
    forall ip :: Live(a, ip, now) == Live(b, ip, now)
  }

  /** What an open window looks like after a hit depends only on the open windows before it. */
  lemma LiveAfterHit(limit: int, window: int, sweepAbove: Option<nat>, m: Buckets, ip: string, now: int, probe: string)
    requires limit > 0
    ensures Live(AfterHit(limit, window, sweepAbove, m, ip, now), probe, now)
         == if probe == ip
            then (if now < Touched(window, m, ip, now).resetAt then Some(Touched(window, m, ip, now)) else None)
            else Live(m, probe, now)
  {
  }

  lemma {:induction false} AlikeStep(limit: int, window: int, s: Option<nat>, t: Option<nat>, a: Buckets, b: Buckets,
                                     before: int, ip: string, now: int)
    requires before <= now && Alike(a, b, before)
    ensures AnswerTo(limit, window, a, ip, now) == AnswerTo(limit, window, b, ip, now)
    ensures Alike(AfterHit(limit, window, s, a, ip, now), AfterHit(limit, window, t, b, ip, now), now)
  {
    forall j ensures Live(a, j, now) == Live(b, j, now) {
      assert Live(a, j, before) == Live(b, j, before);
    }
    if limit > 0 {
      forall j
        ensures Live(AfterHit(limit, window, s, a, ip, now), j, now)
             == Live(AfterHit(limit, window, t, b, ip, now), j, now)
      {
        LiveAfterHit(limit, window, s, a, ip, now, j);
        LiveAfterHit(limit, window, t, b, ip, now, j);
      }
    }
  }

  /** With a clock that never runs backwards, sweeping at any size answers as never sweeping does. */
  lemma {:induction false} SweepIsInvisible(limit: int, window: int, s: Option<nat>, t: Option<nat>, a: Buckets,
                                            b: Buckets, from: int, hits: seq<Hit>)
    requires Alike(a, b, from) && HitsInOrder(from, hits)
    ensures Answers(limit, window, s, a, hits) == Answers(limit, window, t, b, hits)
    decreases |hits|
  {
    if hits != [] {
      var h := hits[0];
      AlikeStep(limit, window, s, t, a, b, from, h.ip, h.now);
      SweepIsInvisible(limit, window, s, t, AfterHit(limit, window, s, a, h.ip, h.now),
                       AfterHit(limit, window, t, b, h.ip, h.now), h.now, hits[1..]);
    }
  }

  // ---------- the sliding bound ----------

  /** How many hits of `ip` in [x, x + window) a run admits. */
  function AdmittedWithin(window: int, hits: seq<Hit>, answers: seq<HitResult>, ip: string, x: int): nat
    requires |hits| == |answers|
  {
    if hits == [] then 0
    else
      (if hits[0].ip == ip && answers[0].allowed then Within(x, window, hits[0].now) else 0)
      + AdmittedWithin(window, hits[1..], answers[1..], ip, x)
  }

  /** A limiter bucket as a fixed-window bucket. */
  function AsWindow(window: int, m: Buckets, ip: string): Option<Bucket> {
    if ip in m then Some(Bucket(m[ip].resetAt - window, m[ip].count)) else None
  }

  lemma {:induction false} NeverSweptBound(limit: int, window: int, m: Buckets, from: int, hits: seq<Hit>, ip: string,
                                           x: int, sofar: nat)
    requires limit > 0 && HitsInOrder(from, hits)
    requires WithinBound(limit, window, x, AsWindow(window, m, ip), from, sofar)
    ensures sofar + AdmittedWithin(window, hits, Answers(limit, window, None, m, hits), ip, x)
         <= MostWithin(limit, window)
    decreases |hits|
  {
    if hits == [] {
      BoundMeans(limit, window, x, AsWindow(window, m, ip), from, sofar);
    } else {
      var h := hits[0];
      var m' := AfterHit(limit, window, None, m, h.ip, h.now);
      var answers := Answers(limit, window, None, m, hits);
      assert answers[1..] == Answers(limit, window, None, m', hits[1..]);
      if h.ip == ip {
        BoundStep(limit, window, x, AsWindow(window, m, ip), from, sofar, h.now);
        NeverSweptBound(limit, window, m', h.now, hits[1..], ip, x,
                        sofar + (if answers[0].allowed then Within(x, window, h.now) else 0));
      } else {
        NeverSweptBound(limit, window, m', h.now, hits[1..], ip, x, sofar);
      }
    }
  }

  /** How many hits of `ip` in [x, x + window) the limiter admits over a run that finds it with buckets `m`. */
  function AdmittedHits(limit: int, window: int, m: Buckets, hits: seq<Hit>, ip: string, x: int): nat {
    AdmittedWithin(window, hits, Answers(limit, window, Some(SWEEP_ABOVE), m, hits), ip, x)
  }

  /**
   Over every run with a clock that never runs backwards, a half-open interval one window long admits at most
   `MostWithin(limit, window)` hits of any one key, sweeps included: `2 * limit - 1` for a window of 2 or more.
   */
  lemma {:induction false} SlidingBound(limit: int, window: int, from: int, hits: seq<Hit>, ip: string, x: int)
    requires limit > 0 && HitsInOrder(from, hits)
    ensures AdmittedHits(limit, window, map[], hits, ip, x) <= MostWithin(limit, window)
  {
    SweepIsInvisible(limit, window, Some(SWEEP_ABOVE), None, map[], map[], from, hits);
    NeverSweptBound(limit, window, map[], from, hits, ip, x, 0);
  }

  // ---------- the bound is reached ----------

  /** `n` hits of one key at one time. */
  function Burst(ip: string, now: int, n: nat): (hits: seq<Hit>)
    ensures |hits| == n
  {
    if n == 0 then [] else [Hit(ip, now)] + Burst(ip, now, n - 1)
  }

  lemma {:induction false} BurstInOrder(ip: string, from: int, now: int, n: nat, rest: seq<Hit>)
    requires from <= now && HitsInOrder(now, rest)
    ensures HitsInOrder(from, Burst(ip, now, n) + rest)
    decreases n
  {
    if n > 0 {
      BurstInOrder(ip, now, now, n - 1, rest);
      assert (Burst(ip, now, n) + rest)[1..] == Burst(ip, now, n - 1) + rest;
    } else {
      assert Burst(ip, now, 0) + rest == rest;
    }
  }

  /** One hit of a lone key that is within its limit. */
  lemma {:induction false} HitAdmitted(limit: int, window: int, m: Buckets, ip: string, now: int, rest: seq<Hit>,
                                       x: int)
    requires m.Keys <= {ip} && Touched(window, m, ip, now).count <= limit
    ensures AdmittedHits(limit, window, m, [Hit(ip, now)] + rest, ip, x)
         == Within(x, window, now) + AdmittedHits(limit, window, map[ip := Touched(window, m, ip, now)], rest, ip, x)
  {
    var next: Buckets := map[ip := Touched(window, m, ip, now)];
    assert m[ip := Touched(window, m, ip, now)] == next && |next| == 1;
    var hits := [Hit(ip, now)] + rest;
    assert hits[1..] == rest;
    var answers := Answers(limit, window, Some(SWEEP_ABOVE), m, hits);
    assert answers[1..] == Answers(limit, window, Some(SWEEP_ABOVE), next, rest);
  }

  /** A burst that fits into the open bucket of a lone key is admitted whole. */
  lemma {:induction false} BurstAdmitted(limit: int, window: int, b: RateBucket, ip: string, now: int, n: nat,
                                         rest: seq<Hit>, x: int)
    requires now < b.resetAt && b.count + n <= limit && x <= now < x + window
    ensures AdmittedHits(limit, window, map[ip := b], Burst(ip, now, n) + rest, ip, x)
         == n + AdmittedHits(limit, window, map[ip := b.(count := b.count + n)], rest, ip, x)
    decreases n
  {
    if n == 0 {
      assert Burst(ip, now, 0) + rest == rest;
    } else {
      var after := Burst(ip, now, n - 1) + rest;
      assert Burst(ip, now, n) + rest == [Hit(ip, now)] + after;
      assert Touched(window, map[ip := b], ip, now) == b.(count := b.count + 1);
      HitAdmitted(limit, window, map[ip := b], ip, now, after, x);
      BurstAdmitted(limit, window, b.(count := b.count + 1), ip, now, n - 1, rest, x);
    }
  }

  /** A burst that opens a bucket, up to the limit, is admitted whole. */
  lemma {:induction false} OpeningBurst(limit: int, window: int, m: Buckets, ip: string, now: int, x: int)
    requires limit > 0 && m.Keys <= {ip} && Live(m, ip, now).None? && x <= now < x + window
    ensures AdmittedHits(limit, window, m, Burst(ip, now, limit), ip, x) == limit
  {
    var rest := Burst(ip, now, limit - 1);
    HitAdmitted(limit, window, m, ip, now, rest, x);
    assert rest == rest + [];
    BurstAdmitted(limit, window, RateBucket(1, now + window), ip, now, limit - 1, [], x);
  }

  /** One early hit, a bucket filled just before it elapses, and the next filled as it opens. */
  function Straddling(limit: int, window: int, ip: string): seq<Hit>
    requires limit > 0
  {
    [Hit(ip, 0)] + (Burst(ip, window - 1, limit - 1) + Burst(ip, window, limit))
  }

  lemma {:induction false} StraddlingReaches(limit: int, window: int, ip: string)
    requires limit > 0 && window >= 2
    ensures HitsInOrder(0, Straddling(limit, window, ip))
    ensures AdmittedHits(limit, window, map[], Straddling(limit, window, ip), ip, window - 1) == 2 * limit - 1
  {
    var x, last := window - 1, Burst(ip, window, limit);
    var middle := Burst(ip, x, limit - 1) + last;
    HitAdmitted(limit, window, map[], ip, 0, middle, x);
    BurstAdmitted(limit, window, RateBucket(1, window), ip, x, limit - 1, last, x);
    OpeningBurst(limit, window, map[ip := RateBucket(limit, window)], ip, window, x);
    assert last == last + [];
    BurstInOrder(ip, window, window, limit, []);
    BurstInOrder(ip, 0, x, limit - 1, last);
    assert Straddling(limit, window, ip)[1..] == middle;
  }

  /**
   The bound is exact: for every limit and window there is a run that reaches it. A window of 2 or more is opened by one
   early hit and filled just before it elapses; the next is filled as soon as it opens.
   */
  lemma {:induction false} SlidingBoundReached(limit: int, window: int, ip: string) returns (hits: seq<Hit>, x: int)
    requires limit > 0
    ensures HitsInOrder(0, hits) && AdmittedHits(limit, window, map[], hits, ip, x) == MostWithin(limit, window)
  {
    if window <= 0 {
      hits, x := [], 0;
    } else if window == 1 {
      hits, x := Burst(ip, 0, limit), 0;
      OpeningBurst(limit, window, map[], ip, 0, 0);
      BurstInOrder(ip, 0, 0, limit, []);
      assert hits == hits + [];
    } else {
      x, hits := window - 1, Straddling(limit, window, ip);
      StraddlingReaches(limit, window, ip);
    }
  }
}
