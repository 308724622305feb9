/** The score of every packet of a run, by either scorer, worked out from the packets before it alone. */
module ScoreRuns {
  import opened Money
  import opened Schema
  import opened Scoring
  import opened Learned

  /** What a scorer grades by: a window, a soft cap, weights, what it makes of the weighted sum, and two thresholds. */
  datatype Rubric = Rubric(rateWindowMs: int, rateSoftCap: real, probe: RoutingPacket -> Probe, weights: Vector,
                           grade: real -> real, threshold: real, flagThreshold: real)

  /** How many packets of a source a run has later than a time. */
  function HowOften(run: seq<Sighting>, source: AgentRole, after: int): nat {
    if run == [] then 0
    else
      var last := run[|run| - 1];
      HowOften(run[..|run| - 1], source, after)
      + if last.packet.header.source == source && last.now > after then 1 else 0
  }

  function Term(feature: real, weight: real): real { feature * weight }

  /** The sum of seven weighted features. */
  function SevenTerms(rate: real, x: Probe, risk: real, w: Vector): real {
    Term(rate, w[0]) + Term(x.intentEntropy, w[1]) + Term(x.maliciousHits, w[2]) + Term(x.endpointRisk, w[3])
    + Term(x.payloadSize, w[4]) + Term(x.priorityAbuse, w[5]) + Term(risk, w[6])
  }

  /** A number held to 0..1. */
  function Held(x: real): real { if x < 0.0 then 0.0 else if x > 1.0 then 1.0 else x }

  /** The share of the soft cap that `n` packets take up. */
  function RateShare(rateSoftCap: real, n: nat): real {
    Held(n as real / if rateSoftCap < 1.0 then 1.0 else rateSoftCap)
  }

  /** The score of the last packet of a run. */
  function LastScore(g: Rubric, run: seq<Sighting>): real
    requires run != []
    decreases |run|, 0
  {
    var last, front := run[|run| - 1], run[..|run| - 1];
    var source := last.packet.header.source;
    var n := 1 + HowOften(front, source, last.now - g.rateWindowMs);
    g.grade(SevenTerms(RateShare(g.rateSoftCap, n), g.probe(last.packet), Risk(g, front, source), g.weights))
  }

  /**
   How far a run has made a source suspect: a packet of its that is denied adds 0.25, one that is flagged 0.05, and any
   other takes away 0.02, within 0..1.
   */
  function Risk(g: Rubric, run: seq<Sighting>, source: AgentRole): real
    decreases |run|, 1
  {
    if run == [] then 0.0
    else
      var before := Risk(g, run[..|run| - 1], source);
      if run[|run| - 1].packet.header.source != source then before
      else if LastScore(g, run) >= g.threshold then Held(before + 0.25)
      else if LastScore(g, run) >= g.flagThreshold then Held(before + 0.05)
      else Held(before - 0.02)
  }

  // ---------- a scorer's memory is the history of its run ----------

  lemma HeldIsClamped(x: real)
    ensures Held(x) == Clamp01(x) && 0.0 <= Held(x) <= 1.0 && Held(Held(x)) == Held(x)
  {
  }

  lemma {:induction false} RiskHeld(g: Rubric, run: seq<Sighting>, source: AgentRole)
    ensures Held(Risk(g, run, source)) == Risk(g, run, source)
  {
    if run != [] {
      RiskHeld(g, run[..|run| - 1], source);
    }
  }

  lemma WeightedNext(f: Vector, w: Vector, n: nat)
    requires 0 < n <= 7
    ensures Weighted(f, w, n) == Weighted(f, w, n - 1) + Term(f[n - 1], w[n - 1])
  {
  }

  lemma {:induction false} WeightedIsSevenTerms(rate: real, x: Probe, risk: real, w: Vector, f: Vector)
    requires f == [rate, x.intentEntropy, x.maliciousHits, x.endpointRisk, x.payloadSize, x.priorityAbuse, risk]
    ensures Weighted(f, w, |f|) == SevenTerms(rate, x, risk, w)
  {
    var n := |f|;
    WeightedNext(f, w, n);
    WeightedNext(f, w, n - 1);
    WeightedNext(f, w, n - 2);
    WeightedNext(f, w, n - 3);
    WeightedNext(f, w, n - 4);
    WeightedNext(f, w, n - 5);
    WeightedNext(f, w, n - 6);
    assert Weighted(f, w, n - 7) == 0.0;
  }

  lemma {:induction false} FeaturesAre(x: Probe, n: nat, rateSoftCap: real, risk: real, w: Vector)
    ensures var f := Features(x, n, rateSoftCap, risk);
            Weighted(f, w, |f|) == SevenTerms(RateShare(rateSoftCap, n), x, Held(risk), w)
  {
    var f := Features(x, n, rateSoftCap, risk);
    HeldIsClamped(risk);
    HeldIsClamped(n as real / MaxReal(1.0, rateSoftCap));
    WeightedIsSevenTerms(RateShare(rateSoftCap, n), x, Held(risk), w, f);
  }

  lemma {:induction false} PruneCounts(run: seq<Sighting>, source: AgentRole, cutoff: int)
    ensures |Prune(Seen(run, source), cutoff)| == HowOften(run, source, cutoff)
  {
    if run != [] {
      var front, last := run[..|run| - 1], run[|run| - 1];
      PruneCounts(front, source, cutoff);
      if last.packet.header.source == source {
        PruneAppend(Seen(front, source), last.now, cutoff);
      } else {
        assert Seen(front, source) + [] == Seen(front, source);
      }
    }
  }

  lemma {:induction false} SeenByNow(front: seq<Sighting>, last: Sighting, source: AgentRole)
    requires Chronological(front + [last])
    ensures Chronological(front)
    ensures forall i | 0 <= i < |Seen(front, source)| :: Seen(front, source)[i] <= last.now
  {
    var run := front + [last];
    assert run[|front|] == last;
    assert forall i | 0 <= i < |front| :: run[i] == front[i];
    SeenBefore(front, source, last.now);
  }

  /** A memory of a source that agrees with a run. */
  ghost predicate Tracks(g: Rubric, run: seq<Sighting>, s: ScorerState, source: AgentRole) {
    && ReputationOf(s, source) == Risk(g, run, source)
    && WindowOf(s, source) == Recent(g.rateWindowMs, Seen(run, source))
  }

  lemma {:induction false} LastScoreIs(g: Rubric, front: seq<Sighting>, last: Sighting, n: nat, risk: real)
    requires n == 1 + HowOften(front, last.packet.header.source, last.now - g.rateWindowMs)
    requires risk == Risk(g, front, last.packet.header.source)
    ensures LastScore(g, front + [last])
         == g.grade(SevenTerms(RateShare(g.rateSoftCap, n), g.probe(last.packet), risk, g.weights))
  {
    assert (front + [last])[..|front|] == front;
  }

  lemma {:induction false} WindowHolds(g: Rubric, front: seq<Sighting>, last: Sighting, s: ScorerState)
    requires Chronological(front + [last]) && Tracks(g, front, s, last.packet.header.source)
    ensures var source := last.packet.header.source;
            |Observed(g.rateWindowMs, s, source, last.now)|
            == 1 + HowOften(front, source, last.now - g.rateWindowMs)
  {
    var source := last.packet.header.source;
    SeenByNow(front, last, source);
    RecentPrunes(g.rateWindowMs, Seen(front, source), last.now);
    PruneCounts(front, source, last.now - g.rateWindowMs);
  }

  /** A scorer whose memory agrees with the run so far grades the next packet as the run does. */
  lemma {:induction false} GradesAlike(g: Rubric, front: seq<Sighting>, last: Sighting, s: ScorerState)
    requires Chronological(front + [last]) && Tracks(g, front, s, last.packet.header.source)
    ensures var source := last.packet.header.source;
            var f := Features(g.probe(last.packet), |Observed(g.rateWindowMs, s, source, last.now)|, g.rateSoftCap,
                              ReputationOf(s, source));
            g.grade(Weighted(f, g.weights, |f|)) == LastScore(g, front + [last])
  {
    var source := last.packet.header.source;
    var n, risk := |Observed(g.rateWindowMs, s, source, last.now)|, ReputationOf(s, source);
    WindowHolds(g, front, last, s);
    RiskHeld(g, front, source);
    LastScoreIs(g, front, last, n, risk);
    FeaturesAre(g.probe(last.packet), n, g.rateSoftCap, risk, g.weights);
  }

  /** What a verdict makes of a scorer's memory. */
  function Remembered(rateWindowMs: int, s: ScorerState, x: Sighting, isAnomalous: bool, flagged: bool): ScorerState {
    var source := x.packet.header.source;
    ScorerState(s.windows[source := Observed(rateWindowMs, s, source, x.now)],
                s.reputation[source := Clamp01(ReputationOf(s, source) + Feedback(isAnomalous, flagged))])
  }

  lemma {:induction false} RiskMoves(g: Rubric, front: seq<Sighting>, last: Sighting, isAnomalous: bool, flagged: bool,
                                     source: AgentRole)
    requires isAnomalous <==> LastScore(g, front + [last]) >= g.threshold
    requires flagged <==> !isAnomalous && LastScore(g, front + [last]) >= g.flagThreshold
    ensures Risk(g, front + [last], source)
         == if last.packet.header.source == source then Clamp01(Risk(g, front, source) + Feedback(isAnomalous, flagged))
            else Risk(g, front, source)
  {
    assert (front + [last])[..|front|] == front;
    HeldIsClamped(Risk(g, front, source) + Feedback(isAnomalous, flagged));
  }

  lemma {:induction false} MemoryMoves(w: int, s: ScorerState, x: Sighting, isAnomalous: bool, flagged: bool,
                                       source: AgentRole)
    ensures var next := Remembered(w, s, x, isAnomalous, flagged);
            if x.packet.header.source == source
            then ReputationOf(next, source) == Clamp01(ReputationOf(s, source) + Feedback(isAnomalous, flagged))
                 && WindowOf(next, source) == Prune(WindowOf(s, source), x.now - w) + [x.now]
            else ReputationOf(next, source) == ReputationOf(s, source) && WindowOf(next, source) == WindowOf(s, source)
  {
  }

  lemma {:induction false} SeenMoves(front: seq<Sighting>, last: Sighting, source: AgentRole)
    ensures Seen(front + [last], source)
         == Seen(front, source) + if last.packet.header.source == source then [last.now] else []
  {
    assert (front + [last])[..|front|] == front;
  }

  lemma {:induction false} WindowTracksOn(g: Rubric, front: seq<Sighting>, last: Sighting, s: ScorerState,
                                          isAnomalous: bool, flagged: bool, source: AgentRole)
    requires Chronological(front + [last]) && Tracks(g, front, s, source)
    ensures WindowOf(Remembered(g.rateWindowMs, s, last, isAnomalous, flagged), source)
         == Recent(g.rateWindowMs, Seen(front + [last], source))
  {
    SeenByNow(front, last, source);
    SeenMoves(front, last, source);
    RecentMoves(g.rateWindowMs, WindowOf(s, source), Seen(front, source), last.now,
                last.packet.header.source == source);
    MemoryMoves(g.rateWindowMs, s, last, isAnomalous, flagged, source);
  }

  lemma {:induction false} RiskTracksOn(g: Rubric, front: seq<Sighting>, last: Sighting, s: ScorerState,
                                        isAnomalous: bool, flagged: bool, source: AgentRole)
    requires ReputationOf(s, source) == Risk(g, front, source)
    requires isAnomalous <==> LastScore(g, front + [last]) >= g.threshold
    requires flagged <==> !isAnomalous && LastScore(g, front + [last]) >= g.flagThreshold
    ensures ReputationOf(Remembered(g.rateWindowMs, s, last, isAnomalous, flagged), source)
         == Risk(g, front + [last], source)
  {
    RiskMoves(g, front, last, isAnomalous, flagged, source);
    MemoryMoves(g.rateWindowMs, s, last, isAnomalous, flagged, source);
  }

  lemma {:induction false} TracksOn(g: Rubric, front: seq<Sighting>, last: Sighting, s: ScorerState, isAnomalous: bool,
                                    flagged: bool, source: AgentRole)
    requires Chronological(front + [last]) && Tracks(g, front, s, source)
    requires isAnomalous <==> LastScore(g, front + [last]) >= g.threshold
    requires flagged <==> !isAnomalous && LastScore(g, front + [last]) >= g.flagThreshold
    ensures Tracks(g, front + [last], Remembered(g.rateWindowMs, s, last, isAnomalous, flagged), source)
  {
    WindowTracksOn(g, front, last, s, isAnomalous, flagged, source);
    RiskTracksOn(g, front, last, s, isAnomalous, flagged, source);
  }

  // ---------- the heuristic scorer ----------

  function Heuristic(c: ScorerConfig): Rubric {
    Rubric(c.rateWindowMs, c.rateSoftCap, c.probe, c.weights, x => Held(x), c.threshold, c.flagThreshold)
  }

  lemma {:induction false} JudgeGrades(c: ScorerConfig, front: seq<Sighting>, last: Sighting, s: ScorerState)
    requires Chronological(front + [last]) && Tracks(Heuristic(c), front, s, last.packet.header.source)
    ensures var v, score := Judge(c, s, last.packet, last.now), LastScore(Heuristic(c), front + [last]);
            && v.score == score && (v.isAnomalous <==> score >= c.threshold)
            && (v.flagged <==> score < c.threshold && score >= c.flagThreshold)
  {
    var f := Judge(c, s, last.packet, last.now).features;
    GradesAlike(Heuristic(c), front, last, s);
    HeldIsClamped(Weighted(f, c.weights, |f|));
  }

  lemma {:induction false} ScorerTracks(c: ScorerConfig, run: seq<Sighting>, source: AgentRole)
    requires Chronological(run)
    ensures Tracks(Heuristic(c), run, AfterRun(c, FRESH_SCORER, run), source)
  {
    if run != [] {
      var front, last := run[..|run| - 1], run[|run| - 1];
      var s := AfterRun(c, FRESH_SCORER, front);
      var v := Judge(c, s, last.packet, last.now);
      assert front + [last] == run;
      ScorerTracks(c, front, source);
      ScorerTracks(c, front, last.packet.header.source);
      JudgeGrades(c, front, last, s);
      TracksOn(Heuristic(c), front, last, s, v.isAnomalous, v.flagged, source);
    }
  }

  /**
   For a fresh scorer and a clock that never runs backwards, every packet of every run is scored by its own five
   features, by how many packets of its source the window holds, and by how its source's earlier packets fared; it is
   denied if and only if the score reaches the threshold, and flagged if and only if it reaches only the lower one.
   */
  lemma {:induction false} ScoreIsExact(c: ScorerConfig, run: seq<Sighting>, i: nat)
    requires i < |run| && Chronological(run)
    ensures var v, score := JudgedAt(c, FRESH_SCORER, run, i), LastScore(Heuristic(c), run[..i + 1]);
            && v.score == score && (v.isAnomalous <==> score >= c.threshold)
            && (v.flagged <==> score < c.threshold && score >= c.flagThreshold)
  {
    assert run[..i + 1] == run[..i] + [run[i]];
    ScorerTracks(c, run[..i], run[i].packet.header.source);
    JudgeGrades(c, run[..i], run[i], AfterRun(c, FRESH_SCORER, run[..i]));
  }

  // ---------- the learned scorer ----------

  /** The learned scorer's state after a run. */
  function AfterVerdicts(c: LearnedConfig, s: LearnedState, run: seq<Sighting>): LearnedState {
    if run == [] then s
    else
      var last := run[|run| - 1];
      AfterVerdict(c, AfterVerdicts(c, s, run[..|run| - 1]), last.packet, last.now)
  }

  function Logistic(c: LearnedConfig, s: LearnedState): Rubric {
    Rubric(c.rateWindowMs, c.rateSoftCap, c.probe, s.weights, x => Round4(c.sigmoid(s.bias + x)), c.threshold,
           c.flagThreshold)
  }

  /** A run moves what the learned scorer remembers, and nothing else of it. */
  lemma {:induction false} VerdictsKeepModel(c: LearnedConfig, s: LearnedState, run: seq<Sighting>)
    ensures AfterVerdicts(c, s, run) == s.(memory := AfterVerdicts(c, s, run).memory)
  {
    if run != [] {
      VerdictsKeepModel(c, s, run[..|run| - 1]);
    }
  }

  lemma {:induction false} LearnedGrades(c: LearnedConfig, s: LearnedState, front: seq<Sighting>, last: Sighting,
                                         now: LearnedState)
    requires Chronological(front + [last]) && now == s.(memory := now.memory)
    requires Tracks(Logistic(c, s), front, now.memory, last.packet.header.source)
    ensures var v, score := LearnedJudge(c, now, last.packet, last.now), LastScore(Logistic(c, s), front + [last]);
            && v.probability == score && (v.isAnomalous <==> score >= c.threshold)
            && (v.flagged <==> score < c.threshold && score >= c.flagThreshold)
  {
    GradesAlike(Logistic(c, s), front, last, now.memory);
  }

  lemma {:induction false} LearnedTracks(c: LearnedConfig, s: LearnedState, run: seq<Sighting>, source: AgentRole)
    requires Chronological(run) && s.memory == FRESH_SCORER
    ensures Tracks(Logistic(c, s), run, AfterVerdicts(c, s, run).memory, source)
  {
    if run != [] {
      var front, last := run[..|run| - 1], run[|run| - 1];
      var now := AfterVerdicts(c, s, front);
      var v := LearnedJudge(c, now, last.packet, last.now);
      assert front + [last] == run;
      VerdictsKeepModel(c, s, front);
      LearnedTracks(c, s, front, source);
      LearnedTracks(c, s, front, last.packet.header.source);
      LearnedGrades(c, s, front, last, now);
      TracksOn(Logistic(c, s), front, last, now.memory, v.isAnomalous, v.flagged, source);
    }
  }

  /**
   The same of the learned scorer, with its model as it is: every packet's probability is the rounded sigmoid of the
   bias and the weighted sum of the same seven features; it is denied if and only if the scorer enforces and the
   probability reaches the threshold.
   */
  lemma {:induction false} LearnedIsExact(c: LearnedConfig, s: LearnedState, run: seq<Sighting>, i: nat)
    requires i < |run| && Chronological(run) && s.memory == FRESH_SCORER
    ensures var now := AfterVerdicts(c, s, run[..i]); var p, t := run[i].packet, run[i].now;
            var v, score := LearnedJudge(c, now, p, t), LastScore(Logistic(c, s), run[..i + 1]);
            && v.probability == score && (v.isAnomalous <==> score >= c.threshold)
            && (v.flagged <==> score < c.threshold && score >= c.flagThreshold)
            && (Denies(c, now, p, t) <==> s.mode.Enforce? && score >= c.threshold)
  {
    var now := AfterVerdicts(c, s, run[..i]);
    assert run[..i + 1] == run[..i] + [run[i]];
    VerdictsKeepModel(c, s, run[..i]);
    LearnedTracks(c, s, run[..i], run[i].packet.header.source);
    LearnedGrades(c, s, run[..i], run[i], now);
  }

  // ---------- every feature counts ----------

  /** Nowhere less suspicious. */
  predicate NoLess(x: Probe, y: Probe) {
    && x.intentEntropy <= y.intentEntropy && x.maliciousHits <= y.maliciousHits && x.endpointRisk <= y.endpointRisk
    && x.payloadSize <= y.payloadSize && x.priorityAbuse <= y.priorityAbuse
  }

  lemma TermRises(x: real, y: real, w: real)
    requires x <= y && 0.0 <= w
    ensures Term(x, w) <= Term(y, w)
  {
    NonNegativeProduct(y - x, w);
    assert (y - x) * w == y * w - x * w;
  }

  /** With weights that are not negative, no feature that rises lowers the sum. */
  lemma {:induction false} EveryFeatureCounts(rate: real, x: Probe, y: Probe, risk: real, w: Vector)
    requires NoLess(x, y) && forall k | 0 <= k < 7 :: 0.0 <= w[k]
    ensures SevenTerms(rate, x, risk, w) <= SevenTerms(rate, y, risk, w)
  {
    TermRises(x.intentEntropy, y.intentEntropy, w[1]);
    TermRises(x.maliciousHits, y.maliciousHits, w[2]);
    TermRises(x.endpointRisk, y.endpointRisk, w[3]);
    TermRises(x.payloadSize, y.payloadSize, w[4]);
    TermRises(x.priorityAbuse, y.priorityAbuse, w[5]);
  }

  /** A packet that is nowhere less suspicious than another of the same source never scores less in its place. */
  lemma {:induction false} ScoreRises(g: Rubric, front: seq<Sighting>, p: RoutingPacket, q: RoutingPacket, now: int)
    requires p.header.source == q.header.source && NoLess(g.probe(p), g.probe(q))
    requires forall k | 0 <= k < 7 :: 0.0 <= g.weights[k]
    requires forall x: real, y: real | x <= y :: g.grade(x) <= g.grade(y)
    ensures LastScore(g, front + [Sighting(p, now)]) <= LastScore(g, front + [Sighting(q, now)])
  {
    assert (front + [Sighting(p, now)])[..|front|] == front && (front + [Sighting(q, now)])[..|front|] == front;
    var source := p.header.source;
    var rate := RateShare(g.rateSoftCap, 1 + HowOften(front, source, now - g.rateWindowMs));
    EveryFeatureCounts(rate, g.probe(p), g.probe(q), Risk(g, front, source), g.weights);
  }

  /** So it is for the heuristic scorer. */
  lemma {:induction false} HeuristicRises(c: ScorerConfig, front: seq<Sighting>, p: RoutingPacket, q: RoutingPacket,
                                          now: int)
    requires p.header.source == q.header.source && NoLess(c.probe(p), c.probe(q))
    requires forall k | 0 <= k < 7 :: 0.0 <= c.weights[k]
    ensures LastScore(Heuristic(c), front + [Sighting(p, now)]) <= LastScore(Heuristic(c), front + [Sighting(q, now)])
  {
    ScoreRises(Heuristic(c), front, p, q, now);
  }
}
