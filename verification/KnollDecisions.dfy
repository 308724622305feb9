/** What KNOLL answers to each packet of a run, from what came before it. */
module KnollDecisions {
  import opened Text
  import opened Money
  import opened Schema
  import opened PacketHash
  import opened FixedWindow
  import opened Scoring
  import opened Learned
  import opened ScoreRuns
  import opened Laws
  import opened KnollGate
  import opened KnollRuns

  /** A packet whose hash is right, that the rate check lets by and that breaks no law: the scorers look at it. */
  predicate ToScorers(c: KnollConfig, s: KnollState, a: Arrival) {
    && a.inbound.Packet? && RateAdmits(c, s, a, a.inbound.packet.header.source)
    && FirstBrokenFrom(c.malicious, a.inbound.packet, a.tenant, 0).None?
  }

  predicate ScorerDenies(c: KnollConfig, s: KnollState, a: Arrival)
    requires a.inbound.Packet?
  {
    s.scorer.Some? && Judge(c.scorer, s.scorer.value, a.inbound.packet, a.now.score).isAnomalous
  }

  predicate LearnedDenies(c: KnollConfig, s: KnollState, a: Arrival)
    requires a.inbound.Packet?
  {
    s.learned.Some? && Denies(c.learned, s.learned.value, a.inbound.packet, a.now.learned)
  }

  /** What stands in a packet's way first, in the order KNOLL asks. */
  function FirstObstacle(c: KnollConfig, s: KnollState, a: Arrival): Option<Constraint> {
    if a.inbound.Malformed? then Some(STRUCTURE)
    else
      var p := a.inbound.packet;
      if p.security.hash != PacketDigest(c.hash, p.header, p.payload) then Some(HASH_INTEGRITY)
      else if !RateAdmits(c, s, a, p.header.source) then Some(RATE_LIMIT)
      else if !ToScorers(c, s, a) then Some(BrokenLaw(FirstBrokenFrom(c.malicious, p, a.tenant, 0).value))
      else if ScorerDenies(c, s, a) then Some(BEHAVIORAL_SCORE)
      else if LearnedDenies(c, s, a) then Some(LEARNED_BEHAVIORAL_SCORE)
      else None
  }

  /** Why a packet is refused, or what is noted of one that is not: its score if flagged, and the learned verdict. */
  function ReasonFor(c: KnollConfig, s: KnollState, a: Arrival): Reason {
    if a.inbound.Malformed? then NotAPacket
    else
      var p := a.inbound.packet;
      if p.security.hash != PacketDigest(c.hash, p.header, p.payload) then HashMismatch
      else if !RateAdmits(c, s, a, p.header.source) then RateExceeded(p.header.source)
      else if !ToScorers(c, s, a) then LawFailed(FirstBrokenFrom(c.malicious, p, a.tenant, 0).value)
      else
        var score := if s.scorer.None? then None else Some(Judge(c.scorer, s.scorer.value, p, a.now.score));
        var learned := if s.learned.None? then None
            else Some(LearnedJudge(c.learned, s.learned.value, p, a.now.learned));
        if ScorerDenies(c, s, a) then Anomaly(Round4(score.value.score), c.scorer.threshold)
        else if LearnedDenies(c, s, a) then LearnedAnomaly(learned.value.probability, c.learned.threshold)
        else Satisfied(if score.Some? && score.value.flagged then Some(Round4(score.value.score)) else None, learned)
  }

  /** The packets the heuristic scorer has looked at, and when. */
  function SentToScorer(c: KnollConfig, s: KnollState, run: seq<Arrival>): seq<Sighting> {
    if run == [] then []
    else
      var n := |run| - 1;
      SentToScorer(c, s, run[..n])
      + if ToScorers(c, StateAfter(c, s, run[..n]), run[n]) then [Sighting(run[n].inbound.packet, run[n].now.score)]
        else []
  }

  /** The packets the learned scorer has looked at: those the heuristic one did not deny. */
  function PassedOn(c: KnollConfig, s: KnollState, run: seq<Arrival>): seq<Sighting> {
    if run == [] then []
    else
      var n := |run| - 1;
      var before := StateAfter(c, s, run[..n]);
      PassedOn(c, s, run[..n])
      + if ToScorers(c, before, run[n]) && !ScorerDenies(c, before, run[n])
        then [Sighting(run[n].inbound.packet, run[n].now.learned)] else []
  }

  /** The scorers there are, in the order they are asked. */
  function ScorersAsked(s: KnollState): seq<Constraint> {
    (if s.scorer.Some? then [BEHAVIORAL_SCORE] else []) + if s.learned.Some? then [LEARNED_BEHAVIORAL_SCORE] else []
  }

  /** What a gate leaves of the two scorers, and how it answers. */
  ghost predicate Decided(c: KnollConfig, s: KnollState, a: Arrival, g: Gated) {
    && (match FirstObstacle(c, s, a)
        case None =>
          && g.verdict.isAllowed
          && g.verdict.constraints == [LawHeld(1), LawHeld(2), LawHeld(3), LawHeld(4), LawHeld(5), LawHeld(6),
                                       LawHeld(7), LawHeld(8)] + ScorersAsked(s)
        case Some(obstacle) => !g.verdict.isAllowed && g.verdict.constraints == [obstacle])
    && g.verdict.reasoning == c.wording(ReasonFor(c, s, a))
    && g.state.scorer == (if s.scorer.Some? && ToScorers(c, s, a)
                          then Some(AfterScore(c.scorer, s.scorer.value, a.inbound.packet, a.now.score)) else s.scorer)
    && g.state.learned == (if s.learned.Some? && ToScorers(c, s, a) && !ScorerDenies(c, s, a)
                           then Some(AfterVerdict(c.learned, s.learned.value, a.inbound.packet, a.now.learned))
                           else s.learned)
  }

  lemma {:induction false} LearnedGateDecides(c: KnollConfig, s: KnollState, p: RoutingPacket, flagged: Option<real>,
                                              held: seq<Constraint>, t: Readings)
    ensures var g := LearnedGate(c, s, p, flagged, held, t);
            && g.state.scorer == s.scorer
            && (g.verdict.isAllowed ==>
                  g.verdict.reasoning
                  == c.wording(Satisfied(flagged, if s.learned.None? then None
                                                  else Some(LearnedJudge(c.learned, s.learned.value, p, t.learned)))))
            && (!g.verdict.isAllowed && s.learned.Some? ==>
                  g.verdict.reasoning
                  == c.wording(LearnedAnomaly(LearnedJudge(c.learned, s.learned.value, p, t.learned).probability,
                                              c.learned.threshold)))
            && (g.verdict.isAllowed ==>
                  g.verdict.constraints
                  == LAWS_HELD + (held + if s.learned.Some? then [LEARNED_BEHAVIORAL_SCORE] else []))
            && (if s.learned.None? then g.verdict.isAllowed && g.state.learned == s.learned
                else
                  && g.state.learned == Some(AfterVerdict(c.learned, s.learned.value, p, t.learned))
                  && (g.verdict.isAllowed <==> !Denies(c.learned, s.learned.value, p, t.learned))
                  && (!g.verdict.isAllowed ==> g.verdict.constraints == [LEARNED_BEHAVIORAL_SCORE]))
  {
    assert held + [] == held;
  }

  lemma {:induction false} ScoreGateDecides(c: KnollConfig, s: KnollState, a: Arrival, before: KnollState)
    requires ToScorers(c, before, a) && before.scorer == s.scorer && before.learned == s.learned
    ensures Decided(c, before, a, ScoreGate(c, s, a.inbound.packet, a.now))
  {
    var p, t := a.inbound.packet, a.now;
    match s.scorer
    case None => LearnedGateDecides(c, s, p, None, [], t);
    case Some(sc) =>
      var v := Judge(c.scorer, sc, p, t.score);
      if !v.isAnomalous {
        LearnedGateDecides(c, s.(scorer := Some(AfterScore(c.scorer, sc, p, t.score))), p,
                           if v.flagged then Some(Round4(v.score)) else None, [BEHAVIORAL_SCORE], t);
      }
  }

  /** KNOLL allows a packet if and only if nothing stands in its way, and otherwise names what does first. */
  lemma {:induction false} GateDecides(c: KnollConfig, s: KnollState, a: Arrival)
    ensures Decided(c, s, a, Gate(c, s, a.inbound, a.tenant, a.now))
  {
    if ToScorers(c, s, a) {
      var p := a.inbound.packet;
      var next := Advance(c.rateWindowMs, BucketOf(s.buckets, p.header.source), a.now.rate);
      ScoreGateDecides(c, s.(buckets := s.buckets[p.header.source := next]), a, s);
    }
  }

  // ---------- over a run ----------

  /** No clock of the parts runs backwards. */
  ghost predicate ClocksRise(run: seq<Arrival>) {
    forall i, j | 0 <= i < j < |run| ::
      run[i].now.score <= run[j].now.score && run[i].now.learned <= run[j].now.learned
  }

  ghost predicate EarlierThan(xs: seq<Sighting>, bound: int) {
    Chronological(xs) && forall i | 0 <= i < |xs| :: xs[i].now <= bound
  }

  lemma {:induction false} OneLater(xs: seq<Sighting>, x: seq<Sighting>, now: int, bound: int)
    requires EarlierThan(xs, now) && |x| <= 1 && (x != [] ==> x[0].now == now) && now <= bound
    ensures EarlierThan(xs + x, bound)
  {
  }

  lemma {:induction false} ClocksRoseBefore(run: seq<Arrival>, last: Arrival)
    requires ClocksRise(run + [last])
    ensures ClocksRise(run)
    ensures run != [] ==> run[|run| - 1].now.score <= last.now.score && run[|run| - 1].now.learned <= last.now.learned
  {
    assert (run + [last])[|run|] == last;
    assert forall i | 0 <= i < |run| :: (run + [last])[i] == run[i];
  }

  /** The scorers see their packets in the order of their clocks. */
  lemma {:induction false} SightingsInOrder(c: KnollConfig, s: KnollState, run: seq<Arrival>, last: Arrival)
    requires ClocksRise(run + [last])
    ensures EarlierThan(SentToScorer(c, s, run), last.now.score) && EarlierThan(PassedOn(c, s, run), last.now.learned)
    decreases |run|
  {
    if run != [] {
      var front, x := run[..|run| - 1], run[|run| - 1];
      var before := StateAfter(c, s, front);
      assert front + [x] == run;
      ClocksRoseBefore(run, last);
      SightingsInOrder(c, s, front, x);
      OneLater(SentToScorer(c, s, front),
               if ToScorers(c, before, x) then [Sighting(x.inbound.packet, x.now.score)] else [], x.now.score,
               last.now.score);
      OneLater(PassedOn(c, s, front),
               if ToScorers(c, before, x) && !ScorerDenies(c, before, x)
               then [Sighting(x.inbound.packet, x.now.learned)] else [], x.now.learned, last.now.learned);
    }
  }

  /** The scorers are where the packets they have looked at left them. */
  ghost predicate ScorersTrack(c: KnollConfig, s: KnollState, run: seq<Arrival>, now: KnollState) {
    && now.scorer == (if s.scorer.None? then None
                      else Some(AfterRun(c.scorer, s.scorer.value, SentToScorer(c, s, run))))
    && now.learned == (if s.learned.None? then None
                       else Some(AfterVerdicts(c.learned, s.learned.value, PassedOn(c, s, run))))
  }

  lemma {:induction false} OneMoreSighting(c: ScorerConfig, s: ScorerState, xs: seq<Sighting>, x: Sighting)
    ensures AfterRun(c, s, xs + [x]) == AfterScore(c, AfterRun(c, s, xs), x.packet, x.now)
  {
    assert (xs + [x])[..|xs|] == xs;
  }

  lemma {:induction false} OneMoreVerdict(c: LearnedConfig, s: LearnedState, xs: seq<Sighting>, x: Sighting)
    ensures AfterVerdicts(c, s, xs + [x]) == AfterVerdict(c, AfterVerdicts(c, s, xs), x.packet, x.now)
  {
    assert (xs + [x])[..|xs|] == xs;
  }

  lemma {:induction false} ScorersFollow(c: KnollConfig, s: KnollState, run: seq<Arrival>)
    ensures ScorersTrack(c, s, run, StateAfter(c, s, run))
  {
    if run != [] {
      var front, x := run[..|run| - 1], run[|run| - 1];
      var before := StateAfter(c, s, front);
      ScorersFollow(c, s, front);
      GateDecides(c, before, x);
      if ToScorers(c, before, x) {
        var p, t := x.inbound.packet, x.now;
        if s.scorer.Some? {
          OneMoreSighting(c.scorer, s.scorer.value, SentToScorer(c, s, front), Sighting(p, t.score));
        }
        if s.learned.Some? {
          OneMoreVerdict(c.learned, s.learned.value, PassedOn(c, s, front), Sighting(p, t.learned));
        }
      }
      NothingMore(SentToScorer(c, s, front));
      NothingMore(PassedOn(c, s, front));
    }
  }

  lemma NothingMore<T>(xs: seq<T>)
    ensures xs + [] == xs
  {
  }

  /** The scorers have seen nothing yet. */
  predicate FreshScorers(s: KnollState) {
    (s.scorer.Some? ==> s.scorer.value == FRESH_SCORER) && (s.learned.Some? ==> s.learned.value.memory == FRESH_SCORER)
  }

  /** The heuristic score, and the learned probability, of a packet that arrives after a run. */
  function ScoreAfter(c: KnollConfig, s: KnollState, run: seq<Arrival>, p: RoutingPacket, t: int): real {
    LastScore(Heuristic(c.scorer), SentToScorer(c, s, run) + [Sighting(p, t)])
  }

  function ChanceAfter(c: KnollConfig, s: KnollState, run: seq<Arrival>, p: RoutingPacket, t: int): real
    requires s.learned.Some?
  {
    LastScore(Logistic(c.learned, s.learned.value), PassedOn(c, s, run) + [Sighting(p, t)])
  }

  lemma {:induction false} ScorerDecides(c: KnollConfig, s: KnollState, run: seq<Arrival>, a: Arrival)
    requires FreshScorers(s) && ClocksRise(run + [a]) && a.inbound.Packet? && s.scorer.Some?
    ensures ScorerDenies(c, StateAfter(c, s, run), a)
            <==> ScoreAfter(c, s, run, a.inbound.packet, a.now.score) >= c.scorer.threshold
  {
    var xs, last := SentToScorer(c, s, run), Sighting(a.inbound.packet, a.now.score);
    ScorersFollow(c, s, run);
    SightingsInOrder(c, s, run, a);
    OneLater(xs, [last], a.now.score, a.now.score);
    ScorerTracks(c.scorer, xs, last.packet.header.source);
    JudgeGrades(c.scorer, xs, last, AfterRun(c.scorer, FRESH_SCORER, xs));
  }

  lemma {:induction false} LearnedDecides(c: KnollConfig, s: KnollState, run: seq<Arrival>, a: Arrival)
    requires FreshScorers(s) && ClocksRise(run + [a]) && a.inbound.Packet? && s.learned.Some?
    ensures LearnedDenies(c, StateAfter(c, s, run), a)
            <==> s.learned.value.mode.Enforce?
                 && ChanceAfter(c, s, run, a.inbound.packet, a.now.learned) >= c.learned.threshold
  {
    var xs, last := PassedOn(c, s, run), Sighting(a.inbound.packet, a.now.learned);
    var now := AfterVerdicts(c.learned, s.learned.value, xs);
    ScorersFollow(c, s, run);
    SightingsInOrder(c, s, run, a);
    OneLater(xs, [last], a.now.learned, a.now.learned);
    VerdictsKeepModel(c.learned, s.learned.value, xs);
    LearnedTracks(c.learned, s.learned.value, xs, last.packet.header.source);
    LearnedGrades(c.learned, s.learned.value, xs, last, now);
  }

  /** The heuristic scorer, if there is one, makes the score of `a` reach its threshold. */
  predicate TooSuspect(c: KnollConfig, s: KnollState, run: seq<Arrival>, a: Arrival)
    requires a.inbound.Packet?
  {
    s.scorer.Some? && ScoreAfter(c, s, run, a.inbound.packet, a.now.score) >= c.scorer.threshold
  }

  /** The learned scorer, if there is one and it enforces, makes the probability of `a` reach its threshold. */
  predicate TooLikely(c: KnollConfig, s: KnollState, run: seq<Arrival>, a: Arrival)
    requires a.inbound.Packet?
  {
    && s.learned.Some? && s.learned.value.mode.Enforce?
    && ChanceAfter(c, s, run, a.inbound.packet, a.now.learned) >= c.learned.threshold
  }

  lemma {:induction false} ScorersDecide(c: KnollConfig, s: KnollState, run: seq<Arrival>, a: Arrival)
    requires FreshScorers(s) && ClocksRise(run + [a]) && a.inbound.Packet?
    ensures ScorerDenies(c, StateAfter(c, s, run), a) <==> TooSuspect(c, s, run, a)
    ensures LearnedDenies(c, StateAfter(c, s, run), a) <==> TooLikely(c, s, run, a)
  {
    ScorersFollow(c, s, run);
    if s.scorer.Some? {
      ScorerDecides(c, s, run, a);
    }
    if s.learned.Some? {
      LearnedDecides(c, s, run, a);
    }
  }

  lemma {:induction false} ClocksRoseTo(run: seq<Arrival>, i: nat)
    requires i < |run| && ClocksRise(run)
    ensures ClocksRise(run[..i] + [run[i]])
  {
    assert run[..i] + [run[i]] == run[..i + 1];
  }

  /**
   Over every run of arrivals at a KNOLL with fresh scorers and clocks that never run backwards: a packet is allowed if
   and only if its hash is right, the rate check lets it by, it breaks no law, its heuristic score stays below the
   threshold, and the learned scorer, if it enforces, finds a probability below its own. What is answered otherwise
   names the first of these that fails.
   */
  lemma {:induction false} KnollDecidesExactly(c: KnollConfig, s: KnollState, run: seq<Arrival>, i: nat)
    requires i < |run| && ClocksRise(run) && FreshScorers(s)
    ensures var a, before, v := run[i], StateAfter(c, s, run[..i]), VerdictAt(c, s, run, i);
            && (v.isAllowed <==>
                  ToScorers(c, before, a) && !TooSuspect(c, s, run[..i], a) && !TooLikely(c, s, run[..i], a))
            && (!v.isAllowed ==>
                  v.constraints == [if !ToScorers(c, before, a) then FirstObstacle(c, before, a).value
                                    else if TooSuspect(c, s, run[..i], a) then BEHAVIORAL_SCORE
                                    else LEARNED_BEHAVIORAL_SCORE])
  {
    GateDecides(c, StateAfter(c, s, run[..i]), run[i]);
    if run[i].inbound.Packet? {
      ClocksRoseTo(run, i);
      ScorersDecide(c, s, run[..i], run[i]);
    }
  }
}
