/** The heuristic behavioural scorer: weighted features, a pruned rate window and reputation feedback. */
module Scoring {
  import opened Money
  import opened Schema

  /** Features and weights in the fixed order rate, entropy, hits, endpoint, size, priority, reputation. */
  type Vector = v: seq<real> | |v| == 7 witness [0.0, 0.0, 0.0, 0.0, 0.0, 0.0, 0.0]

  /** The features that depend on the packet alone, each in 0..1. */
  datatype Probe = Probe(intentEntropy: real, maliciousHits: real, endpointRisk: real, payloadSize: real,
                         priorityAbuse: real)

  datatype ScorerConfig = ScorerConfig(threshold: real, flagThreshold: real, weights: Vector, rateWindowMs: int,
                                       rateSoftCap: real, probe: RoutingPacket -> Probe)

  datatype ScorerState = ScorerState(windows: map<AgentRole, seq<int>>, reputation: map<AgentRole, real>)

  datatype BehavioralScore = BehavioralScore(score: real, isAnomalous: bool, flagged: bool, features: Vector)

  const FRESH_SCORER := ScorerState(map[], map[])

  function Features(p: Probe, recentCount: nat, rateSoftCap: real, reputationRisk: real): Vector {
    [Clamp01(recentCount as real / MaxReal(1.0, rateSoftCap)), p.intentEntropy, p.maliciousHits, p.endpointRisk,
     p.payloadSize, p.priorityAbuse, Clamp01(reputationRisk)]
  }

  /** The sum the accumulation loop computes over the first `n` features. */
  function Weighted(f: Vector, w: Vector, n: nat): real
    requires n <= 7
  {
    if n == 0 then 0.0 else Weighted(f, w, n - 1) + f[n - 1] * w[n - 1]
  }

  /** The timestamps later than the cutoff, in order. */
  function Prune(ts: seq<int>, cutoff: int): seq<int> {
    if ts == [] then []
    else Prune(ts[..|ts| - 1], cutoff) + (if ts[|ts| - 1] > cutoff then [ts[|ts| - 1]] else [])
  }

  function WindowOf(s: ScorerState, source: AgentRole): seq<int> {
    if source in s.windows then s.windows[source] else []
  }

  function ReputationOf(s: ScorerState, source: AgentRole): real {
    if source in s.reputation then s.reputation[source] else 0.0
  }

  /** The source's window after observing a packet at `t`. */
  function Observed(rateWindowMs: int, s: ScorerState, source: AgentRole, t: int): seq<int> {
    Prune(WindowOf(s, source), t - rateWindowMs) + [t]
  }

  /** Reputation feedback: an anomaly costs 0.25, a flag 0.05, and clean traffic forgives 0.02. */
  function Feedback(isAnomalous: bool, flagged: bool): real {
    if isAnomalous then 0.25 else if flagged then 0.05 else -0.02
  }

  /** The verdict on a packet, read off the scorer's state before it. */
  function Judge(c: ScorerConfig, s: ScorerState, p: RoutingPacket, t: int): BehavioralScore {
    var source := p.header.source;
    var f := Features(c.probe(p), |Observed(c.rateWindowMs, s, source, t)|, c.rateSoftCap, ReputationOf(s, source));
    var score := Clamp01(Weighted(f, c.weights, |f|));
    BehavioralScore(score, score >= c.threshold, score < c.threshold && score >= c.flagThreshold, f)
  }

  function AfterScore(c: ScorerConfig, s: ScorerState, p: RoutingPacket, t: int): ScorerState {
    var source := p.header.source;
    var v := Judge(c, s, p, t);
    ScorerState(s.windows[source := Observed(c.rateWindowMs, s, source, t)],
                s.reputation[source := Clamp01(ReputationOf(s, source) + Feedback(v.isAnomalous, v.flagged))])
  }

  class BehavioralScorer {
    const config: ScorerConfig
    var windows: map<AgentRole, seq<int>>
    var reputation: map<AgentRole, real>

    ghost function State(): ScorerState
      reads this
    {
      ScorerState(windows, reputation)
    }

    constructor (config: ScorerConfig)
      ensures State() == FRESH_SCORER && this.config == config
    {
      this.config := config;
      windows, reputation := map[], map[];
    }

    method Score(p: RoutingPacket, t: int) returns (v: BehavioralScore)
      modifies this
      ensures v == Judge(config, old(State()), p, t)
      ensures State() == AfterScore(config, old(State()), p, t)
    {
      var source := p.header.source;
      var recentCount := ObserveRate(source, t);
      var risk := if source in reputation then reputation[source] else 0.0;
      var features := Features(config.probe(p), recentCount, config.rateSoftCap, risk);
      var score := 0.0;
      var k := 0;
      while k < 7
        invariant 0 <= k <= 7 && score == Weighted(features, config.weights, k)
      {
        score := score + features[k] * config.weights[k];
        k := k + 1;
      }
      score := Clamp01(score);
      var isAnomalous := score >= config.threshold;
      var flagged := !isAnomalous && score >= config.flagThreshold;
      if isAnomalous {
        BumpReputation(source, 0.25);
      } else if flagged {
        BumpReputation(source, 0.05);
      } else {
        DecayReputation(source, 0.02);
      }
      v := BehavioralScore(score, isAnomalous, flagged, features);
    }

    method ObserveRate(source: AgentRole, t: int) returns (recent: nat)
      modifies this`windows
      ensures windows == old(windows)[source := Observed(config.rateWindowMs, old(State()), source, t)]
      ensures recent == |windows[source]|
    {
      var arr := if source in windows then windows[source] else [];
      var cutoff := t - config.rateWindowMs;
      var pruned := [];
      var i := 0;
      while i < |arr|
        invariant 0 <= i <= |arr| && pruned == Prune(arr[..i], cutoff)
      {
        assert arr[..i + 1][..i] == arr[..i];
        if arr[i] > cutoff {
          pruned := pruned + [arr[i]];
        }
        i := i + 1;
      }
      assert arr[..i] == arr;
      windows := windows[source := pruned + [t]];
      recent := |windows[source]|;
    }

    method BumpReputation(source: AgentRole, delta: real)
      modifies this`reputation
      ensures reputation == old(reputation)[source := Clamp01(ReputationOf(old(State()), source) + delta)]
    {
      reputation := reputation[source := Clamp01((if source in reputation then reputation[source] else 0.0) + delta)];
    }

    method DecayReputation(source: AgentRole, delta: real)
      modifies this`reputation
      ensures reputation == old(reputation)[source := Clamp01(ReputationOf(old(State()), source) - delta)]
    {
      reputation := reputation[source := Clamp01((if source in reputation then reputation[source] else 0.0) - delta)];
    }
  }

  // ---------- runs ----------

  datatype Sighting = Sighting(packet: RoutingPacket, now: int)

  predicate Chronological(run: seq<Sighting>) {
    forall i, j | 0 <= i < j < |run| :: run[i].now <= run[j].now
  }

  /** The scorer's state after a run of packets. */
  function AfterRun(c: ScorerConfig, s: ScorerState, run: seq<Sighting>): ScorerState {
    if run == [] then s
    else
      var last := run[|run| - 1];
      AfterScore(c, AfterRun(c, s, run[..|run| - 1]), last.packet, last.now)
  }

  /** The verdict on the `i`-th packet of a run. */
  function JudgedAt(c: ScorerConfig, s: ScorerState, run: seq<Sighting>, i: nat): BehavioralScore
    requires i < |run|
  {
    Judge(c, AfterRun(c, s, run[..i]), run[i].packet, run[i].now)
  }

  // ---------- reputation is monotone ----------

  /** The same rate windows, and `b` is at least as suspicious of every source as `a` is. */
  ghost predicate NoCleaner(a: ScorerState, b: ScorerState) {
    a.windows == b.windows && forall r: AgentRole :: ReputationOf(a, r) <= ReputationOf(b, r)
  }

  lemma {:induction false} WeightedMonotone(f: Vector, g: Vector, w: Vector)
    requires f[..6] == g[..6] && f[6] <= g[6] && 0.0 <= w[6]
    ensures Weighted(f, w, |f|) <= Weighted(g, w, |g|)
  {
    SharedPrefix(f, g, w, 6);
    assert f[6] * w[6] <= g[6] * w[6];
  }

  lemma {:induction false} SharedPrefix(f: Vector, g: Vector, w: Vector, n: nat)
    requires n <= 6 && f[..6] == g[..6]
    ensures Weighted(f, w, n) == Weighted(g, w, n)
  {
    if n > 0 {
      assert f[..6][n - 1] == g[..6][n - 1];
      SharedPrefix(f, g, w, n - 1);
    }
  }

  lemma {:induction false} JudgeMonotone(c: ScorerConfig, a: ScorerState, b: ScorerState, p: RoutingPacket, t: int)
    requires 0.0 <= c.weights[6] && NoCleaner(a, b)
    ensures Judge(c, a, p, t).score <= Judge(c, b, p, t).score
  {
    var u, v := Judge(c, a, p, t), Judge(c, b, p, t);
    ClampMonotone(ReputationOf(a, p.header.source), ReputationOf(b, p.header.source));
    WeightedMonotone(u.features, v.features, c.weights);
    ClampMonotone(Weighted(u.features, c.weights, |u.features|), Weighted(v.features, c.weights, |v.features|));
  }

  lemma {:induction false} ScoreKeepsOrder(c: ScorerConfig, a: ScorerState, b: ScorerState, p: RoutingPacket, t: int)
    requires 0.0 <= c.weights[6] && NoCleaner(a, b)
    ensures NoCleaner(AfterScore(c, a, p, t), AfterScore(c, b, p, t))
  {
    JudgeMonotone(c, a, b, p, t);
    var source := p.header.source;
    var u, v := Judge(c, a, p, t), Judge(c, b, p, t);
    var x := ReputationOf(a, source) + Feedback(u.isAnomalous, u.flagged);
    var y := ReputationOf(b, source) + Feedback(v.isAnomalous, v.flagged);
    ClampMonotone(x, y);
    forall r: AgentRole
      ensures ReputationOf(AfterScore(c, a, p, t), r) <= ReputationOf(AfterScore(c, b, p, t), r)
    {
      if r != source {
        assert ReputationOf(AfterScore(c, a, p, t), r) == ReputationOf(a, r);
        assert ReputationOf(AfterScore(c, b, p, t), r) == ReputationOf(b, r);
      }
    }
  }

  lemma {:induction false} RunKeepsOrder(c: ScorerConfig, a: ScorerState, b: ScorerState, run: seq<Sighting>)
    requires 0.0 <= c.weights[6] && NoCleaner(a, b)
    ensures NoCleaner(AfterRun(c, a, run), AfterRun(c, b, run))
  {
    if run != [] {
      var front, last := run[..|run| - 1], run[|run| - 1];
      RunKeepsOrder(c, a, b, front);
      ScoreKeepsOrder(c, AfterRun(c, a, front), AfterRun(c, b, front), last.packet, last.now);
    }
  }

  /**
   A worse reputation never helps: of two scorers with the same windows, the one that starts out more
   suspicious stays so over every run of the same packets, and denies whatever the other denies.
   */
  lemma {:induction false} ReputationMonotone(c: ScorerConfig, a: ScorerState, b: ScorerState, run: seq<Sighting>,
                                              i: nat)
    requires 0.0 <= c.weights[6] && NoCleaner(a, b) && i < |run|
    ensures NoCleaner(AfterRun(c, a, run), AfterRun(c, b, run))
    ensures JudgedAt(c, a, run, i).score <= JudgedAt(c, b, run, i).score
    ensures JudgedAt(c, a, run, i).isAnomalous ==> JudgedAt(c, b, run, i).isAnomalous
    ensures JudgedAt(c, a, run, i).flagged ==> JudgedAt(c, b, run, i).flagged || JudgedAt(c, b, run, i).isAnomalous
  {
    RunKeepsOrder(c, a, b, run);
    RunKeepsOrder(c, a, b, run[..i]);
    JudgeMonotone(c, AfterRun(c, a, run[..i]), AfterRun(c, b, run[..i]), run[i].packet, run[i].now);
  }

  // ---------- the pruned window is the recent history ----------

  /** Every time a source was seen, oldest first, nothing forgotten. */
  function Seen(run: seq<Sighting>, source: AgentRole): seq<int> {
    if run == [] then []
    else
      var last := run[|run| - 1];
      Seen(run[..|run| - 1], source) + (if last.packet.header.source == source then [last.now] else [])
  }

  /** The part of a full history a window keeps: the last sighting, and those within the window before it. */
  function Recent(rateWindowMs: int, seen: seq<int>): seq<int> {
    if seen == [] then []
    else Prune(seen[..|seen| - 1], seen[|seen| - 1] - rateWindowMs) + [seen[|seen| - 1]]
  }

  lemma {:induction false} PruneAppend(a: seq<int>, x: int, cutoff: int)
    ensures Prune(a + [x], cutoff) == Prune(a, cutoff) + (if x > cutoff then [x] else [])
  {
    assert (a + [x])[..|a|] == a;
  }

  lemma {:induction false} PruneTwice(a: seq<int>, early: int, late: int)
    requires early <= late
    ensures Prune(Prune(a, early), late) == Prune(a, late)
  {
    if a != [] {
      PruneTwice(a[..|a| - 1], early, late);
      if a[|a| - 1] > early {
        PruneAppend(Prune(a[..|a| - 1], early), a[|a| - 1], late);
      } else {
        assert Prune(a, early) == Prune(a[..|a| - 1], early);
      }
    }
  }

  lemma {:induction false} SeenBefore(run: seq<Sighting>, source: AgentRole, bound: int)
    requires forall i | 0 <= i < |run| :: run[i].now <= bound
    ensures forall i | 0 <= i < |Seen(run, source)| :: Seen(run, source)[i] <= bound
  {
    if run != [] {
      SeenBefore(run[..|run| - 1], source, bound);
    }
  }

  /** Pruning the pruned window at a later time equals pruning the full history. */
  lemma {:induction false} RecentPrunes(w: int, seen: seq<int>, t: int)
    requires seen != [] ==> seen[|seen| - 1] <= t
    ensures Prune(Recent(w, seen), t - w) == Prune(seen, t - w)
  {
    if seen != [] {
      var front, last := seen[..|seen| - 1], seen[|seen| - 1];
      assert front + [last] == seen;
      PruneLate(front, last, last - w, t - w, Recent(w, seen), seen);
    }
  }

  lemma {:induction false} PruneLate(front: seq<int>, last: int, early: int, late: int, recent: seq<int>,
                                     seen: seq<int>)
    requires early <= late && recent == Prune(front, early) + [last] && seen == front + [last]
    ensures Prune(recent, late) == Prune(seen, late)
  {
    PruneAppend(Prune(front, early), last, late);
    PruneTwice(front, early, late);
    PruneAppend(front, last, late);
  }

  lemma {:induction false} RecentStep(w: int, seen: seq<int>, t: int)
    requires seen != [] ==> seen[|seen| - 1] <= t
    ensures Prune(Recent(w, seen), t - w) + [t] == Recent(w, seen + [t])
  {
    RecentPrunes(w, seen, t);
    assert (seen + [t])[..|seen|] == seen;
  }

  lemma {:induction false} RecentMoves(w: int, window: seq<int>, seen: seq<int>, t: int, mine: bool)
    requires window == Recent(w, seen) && (seen != [] ==> seen[|seen| - 1] <= t)
    ensures (if mine then Prune(window, t - w) + [t] else window) == Recent(w, seen + if mine then [t] else [])
  {
    if mine {
      RecentStep(w, seen, t);
    } else {
      assert seen + [] == seen;
    }
  }

  lemma {:induction false} WindowAfterScore(c: ScorerConfig, s: ScorerState, p: RoutingPacket, t: int,
                                            source: AgentRole)
    ensures WindowOf(AfterScore(c, s, p, t), source)
         == if p.header.source == source
            then Prune(WindowOf(s, source), t - c.rateWindowMs) + [t]
            else WindowOf(s, source)
  {
  }

  lemma {:induction false} WindowStep(c: ScorerConfig, s: ScorerState, last: Sighting, source: AgentRole,
                                      seen: seq<int>)
    requires WindowOf(s, source) == Recent(c.rateWindowMs, seen) && (seen != [] ==> seen[|seen| - 1] <= last.now)
    ensures WindowOf(AfterScore(c, s, last.packet, last.now), source)
         == Recent(c.rateWindowMs, seen + if last.packet.header.source == source then [last.now] else [])
  {
    WindowAfterScore(c, s, last.packet, last.now, source);
    RecentMoves(c.rateWindowMs, WindowOf(s, source), seen, last.now, last.packet.header.source == source);
  }

  /**
   For a fresh scorer and a clock that never runs backwards, the window kept for a source is always
   the recent part of everything ever seen from it.
   */
  lemma {:induction false} WindowIsRecentHistory(c: ScorerConfig, run: seq<Sighting>, source: AgentRole)
    requires Chronological(run)
    ensures WindowOf(AfterRun(c, FRESH_SCORER, run), source) == Recent(c.rateWindowMs, Seen(run, source))
  {
    if run != [] {
      var front, last := run[..|run| - 1], run[|run| - 1];
      WindowIsRecentHistory(c, front, source);
      SeenBefore(front, source, last.now);
      WindowStep(c, AfterRun(c, FRESH_SCORER, front), last, source, Seen(front, source));
    }
  }
}
