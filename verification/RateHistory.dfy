/** What the two rate checks answer, counted from the hits themselves. */
module RateHistory {
  import opened Text
  import opened Schema
  import opened PacketHash
  import opened FixedWindow
  import opened RateLimiting
  import opened KnollGate
  import opened KnollRuns

  // ---------- the gateway's limiter ----------

  /** How many hits of a key there are from a time on. */
  function HitsFrom(hits: seq<Hit>, ip: string, from: int): nat {
    if hits == [] then 0
    else
      var last := hits[|hits| - 1];
      HitsFrom(hits[..|hits| - 1], ip, from) + if last.ip == ip && last.now >= from then 1 else 0
  }

  lemma {:induction false} OneMoreHit(hits: seq<Hit>, h: Hit, ip: string, from: int)
    ensures HitsFrom(hits + [h], ip, from) == HitsFrom(hits, ip, from) + if h.ip == ip && h.now >= from then 1 else 0
  {
    assert (hits + [h])[..|hits|] == hits;
  }

  lemma {:induction false} NoneYet(hits: seq<Hit>, ip: string, from: int)
    requires forall i | 0 <= i < |hits| && hits[i].ip == ip :: hits[i].now < from
    ensures HitsFrom(hits, ip, from) == 0
  {
    if hits != [] {
      NoneYet(hits[..|hits| - 1], ip, from);
    }
  }

  /** A key's bucket counts the key's hits since its window opened, and none came after the window's end. */
  ghost predicate Counts(window: int, past: seq<Hit>, m: Buckets, ip: string) {
    if ip in m then
      && m[ip].count == HitsFrom(past, ip, m[ip].resetAt - window)
      && forall i | 0 <= i < |past| && past[i].ip == ip :: past[i].now < m[ip].resetAt
    else forall i | 0 <= i < |past| :: past[i].ip != ip
  }

  /** What an answer says of a hit: a window the hit falls into, and how many hits of the key it has seen. */
  ghost predicate Tells(limit: int, window: int, past: seq<Hit>, h: Hit, r: HitResult) {
    var n := HitsFrom(past, h.ip, r.resetAt - window) + 1;
    && r.resetAt - window <= h.now < r.resetAt && r.limit == limit
    && (r.allowed <==> n <= limit) && r.remaining == Some(if n < limit then limit - n else 0)
  }

  lemma {:induction false} HitTells(limit: int, window: int, past: seq<Hit>, m: Buckets, h: Hit)
    requires limit > 0 && window >= 1 && Counts(window, past, m, h.ip)
    requires h.ip in m ==> m[h.ip].resetAt - window <= h.now
    ensures Tells(limit, window, past, h, AnswerTo(limit, window, m, h.ip, h.now))
    ensures Counts(window, past + [h], AfterHit(limit, window, None, m, h.ip, h.now), h.ip)
  {
    var next := Touched(window, m, h.ip, h.now);
    if Live(m, h.ip, h.now).None? {
      NoneYet(past, h.ip, h.now);
    }
    OneMoreHit(past, h, h.ip, next.resetAt - window);
  }

  lemma {:induction false} OthersCount(limit: int, window: int, past: seq<Hit>, m: Buckets, h: Hit, ip: string)
    requires limit > 0 && ip != h.ip && Counts(window, past, m, ip)
    ensures Counts(window, past + [h], AfterHit(limit, window, None, m, h.ip, h.now), ip)
  {
    if ip in m {
      OneMoreHit(past, h, ip, m[ip].resetAt - window);
    }
  }

  ghost predicate Steady(window: int, past: seq<Hit>, m: Buckets, now: int) {
    forall ip :: Counts(window, past, m, ip) && (ip in m ==> m[ip].resetAt - window <= now)
  }

  lemma {:induction false} HitKeepsSteady(limit: int, window: int, past: seq<Hit>, m: Buckets, from: int, h: Hit)
    requires limit > 0 && window >= 1 && Steady(window, past, m, from) && from <= h.now
    ensures Tells(limit, window, past, h, AnswerTo(limit, window, m, h.ip, h.now))
    ensures Steady(window, past + [h], AfterHit(limit, window, None, m, h.ip, h.now), h.now)
  {
    assert Counts(window, past, m, h.ip);
    HitTells(limit, window, past, m, h);
    var next := AfterHit(limit, window, None, m, h.ip, h.now);
    forall ip ensures Counts(window, past + [h], next, ip) && (ip in next ==> next[ip].resetAt - window <= h.now) {
      assert Counts(window, past, m, ip);
      if ip != h.ip {
        OthersCount(limit, window, past, m, h, ip);
      }
    }
  }

  lemma {:induction false} TakeAfterFirst<T>(past: seq<T>, s: seq<T>, i: nat)
    requires 0 < i <= |s|
    ensures past + [s[0]] + s[1..][..i - 1] == past + s[..i]
  {
    assert s[..i] == [s[0]] + s[1..][..i - 1];
  }

  lemma {:induction false} NextAnswer(limit: int, window: int, m: Buckets, hits: seq<Hit>, i: nat)
    requires 0 < i < |hits|
    ensures Answers(limit, window, None, m, hits)[i]
         == Answers(limit, window, None, AfterHit(limit, window, None, m, hits[0].ip, hits[0].now), hits[1..])[i - 1]
  {
  }

  lemma {:induction false} RunTells(limit: int, window: int, past: seq<Hit>, m: Buckets, from: int, hits: seq<Hit>,
                                    i: nat)
    requires limit > 0 && window >= 1 && Steady(window, past, m, from) && HitsInOrder(from, hits) && i < |hits|
    ensures Tells(limit, window, past + hits[..i], hits[i], Answers(limit, window, None, m, hits)[i])
    decreases |hits|
  {
    var h := hits[0];
    HitKeepsSteady(limit, window, past, m, from, h);
    if i == 0 {
      assert past + hits[..0] == past;
    } else {
      RunTells(limit, window, past + [h], AfterHit(limit, window, None, m, h.ip, h.now), h.now, hits[1..], i - 1);
      TakeAfterFirst(past, hits, i);
      NextAnswer(limit, window, m, hits, i);
    }
  }

  lemma {:induction false} LaterHits(from: int, hits: seq<Hit>, j: nat)
    requires HitsInOrder(from, hits) && j < |hits|
    ensures from <= hits[j].now
    decreases |hits|
  {
    if j > 0 {
      LaterHits(hits[0].now, hits[1..], j - 1);
    }
  }

  /** An open window is told of again, or has elapsed. */
  lemma {:induction false} WindowLasts(limit: int, window: int, m: Buckets, from: int, hits: seq<Hit>, ip: string,
                                      j: nat)
    requires limit > 0 && ip in m && HitsInOrder(from, hits) && j < |hits| && hits[j].ip == ip
    ensures var r := Answers(limit, window, None, m, hits)[j];
            r.resetAt == m[ip].resetAt || m[ip].resetAt <= hits[j].now
    decreases |hits|
  {
    var h := hits[0];
    if h.ip == ip && m[ip].resetAt <= h.now {
      if j > 0 {
        LaterHits(h.now, hits[1..], j - 1);
      }
    } else if j > 0 {
      WindowLasts(limit, window, AfterHit(limit, window, None, m, h.ip, h.now), h.now, hits[1..], ip, j - 1);
    }
  }

  lemma {:induction false} WindowsDoNotOverlap(limit: int, window: int, m: Buckets, from: int, hits: seq<Hit>, i: nat,
                                               j: nat)
    requires limit > 0 && HitsInOrder(from, hits) && i < j < |hits| && hits[i].ip == hits[j].ip
    ensures var rs := Answers(limit, window, None, m, hits);
            rs[i].resetAt == rs[j].resetAt || rs[i].resetAt <= hits[j].now
    decreases |hits|
  {
    var h := hits[0];
    var next := AfterHit(limit, window, None, m, h.ip, h.now);
    if i == 0 {
      WindowLasts(limit, window, next, h.now, hits[1..], h.ip, j - 1);
    } else {
      WindowsDoNotOverlap(limit, window, next, h.now, hits[1..], i - 1, j - 1);
    }
  }

  lemma {:induction false} NoLimit(limit: int, window: int, m: Buckets, hits: seq<Hit>, i: nat)
    requires limit <= 0 && i < |hits|
    ensures Answers(limit, window, None, m, hits)[i] == HitResult(true, None, hits[i].now + window, limit)
    decreases |hits|
  {
    if i > 0 {
      NoLimit(limit, window, m, hits[1..], i - 1);
    }
  }

  /**
   For every window of 1 ms or more and run of hits on a clock that never goes back, swept at any size or never: a limit
   that is not positive admits every hit; under any other, every hit is answered with a window it falls into, admitted
   if and only if it is among the first `limit` of its key since that window opened, and told how many of them are left;
   and the windows of a key do not overlap.
   */
  lemma {:induction false} AnswersAreExact(limit: int, window: int, sweepAbove: Option<nat>, from: int, hits: seq<Hit>,
                                           i: nat, j: nat)
    requires window >= 1 && HitsInOrder(from, hits) && i < |hits|
    ensures var rs := Answers(limit, window, sweepAbove, map[], hits);
            if limit <= 0 then rs[i] == HitResult(true, None, hits[i].now + window, limit)
            else
              && Tells(limit, window, hits[..i], hits[i], rs[i])
              && (i < j < |hits| && hits[i].ip == hits[j].ip ==>
                    rs[i].resetAt == rs[j].resetAt || rs[i].resetAt <= hits[j].now)
  {
    SweepIsInvisible(limit, window, sweepAbove, None, map[], map[], from, hits);
    if limit <= 0 {
      NoLimit(limit, window, map[], hits, i);
    } else {
      RunTells(limit, window, [], map[], from, hits, i);
      assert [] + hits[..i] == hits[..i];
      if i < j < |hits| && hits[i].ip == hits[j].ip {
        WindowsDoNotOverlap(limit, window, map[], from, hits, i, j);
      }
    }
  }

  // ---------- KNOLL's rate check ----------

  /** A packet of a source whose hash is right: the ones KNOLL's rate check counts. */
  predicate Checked(c: KnollConfig, a: Arrival, source: AgentRole) {
    && a.inbound.Packet? && a.inbound.packet.header.source == source
    && PacketDigest(c.hash, a.inbound.packet.header, a.inbound.packet.payload) == a.inbound.packet.security.hash
  }

  /** How many of them a run has later than a time. */
  function CheckedAfter(c: KnollConfig, run: seq<Arrival>, source: AgentRole, after: int): nat {
    if run == [] then 0
    else
      var n := |run| - 1;
      CheckedAfter(c, run[..n], source, after)
      + if Checked(c, run[n], source) && run[n].now.rate > after then 1 else 0
  }

  /** A source's bucket counts no more than the source's packets since it was opened. */
  ghost predicate CountsNoMore(c: KnollConfig, run: seq<Arrival>, b: Option<Bucket>, source: AgentRole) {
    b.Some? ==> b.value.count >= 1 && forall x | x < b.value.start :: b.value.count <= CheckedAfter(c, run, source, x)
  }

  lemma {:induction false} GateCounts(c: KnollConfig, s: KnollState, a: Arrival, source: AgentRole)
    ensures var next := BucketOf(Gate(c, s, a.inbound, a.tenant, a.now).state.buckets, source);
            if Checked(c, a, source) then next == Some(Advance(c.rateWindowMs, BucketOf(s.buckets, source), a.now.rate))
            else next == BucketOf(s.buckets, source)
  {
    if a.inbound.Packet? {
      RateGateBuckets(c, s, a.inbound.packet, a.tenant, a.now);
    }
  }

  lemma {:induction false} BucketsCountNoMore(c: KnollConfig, s: KnollState, run: seq<Arrival>, source: AgentRole)
    requires InOrder(run) && s.buckets == map[]
    ensures var b := BucketOf(StateAfter(c, s, run).buckets, source);
            CountsNoMore(c, run, b, source) && (b.Some? ==> run != [] && b.value.start <= run[|run| - 1].now.rate)
  {
    if run != [] {
      var n := |run| - 1;
      BucketsCountNoMore(c, s, run[..n], source);
      GateCounts(c, StateAfter(c, s, run[..n]), run[n], source);
    }
  }

  lemma {:induction false} RoomLeft(c: KnollConfig, run: seq<Arrival>, b: Option<Bucket>, source: AgentRole, t: int)
    requires CountsNoMore(c, run, b, source)
    ensures var n := CheckedAfter(c, run, source, t - c.rateWindowMs);
            n < c.rateLimit || n == 0 ==> RateAllows(c.rateLimit, c.rateWindowMs, b, t)
  {
  }

  /**
   Over every run with a clock that never runs backwards the rate check refuses nothing early: a packet of a source that
   has had fewer than `rateLimit` checked within the window before it, refused ones included, or none, gets past it.
   */
  lemma {:induction false} NothingRefusedEarly(c: KnollConfig, s: KnollState, run: seq<Arrival>, a: Arrival,
                                               source: AgentRole)
    requires InOrder(run) && s.buckets == map[] && Checked(c, a, source)
    ensures var n := CheckedAfter(c, run, source, a.now.rate - c.rateWindowMs);
            n < c.rateLimit || n == 0 ==> RateAdmits(c, StateAfter(c, s, run), a, source)
  {
    BucketsCountNoMore(c, s, run, source);
    RoomLeft(c, run, BucketOf(StateAfter(c, s, run).buckets, source), source, a.now.rate);
  }
}
