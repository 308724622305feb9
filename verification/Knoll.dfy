/** KNOLL, the gate every packet passes before it is routed. */
module KnollGate {
  import opened Text
  import opened Money
  import opened Schema
  import opened PacketHash
  import opened FixedWindow
  import opened Scoring
  import opened Learned
  import opened Laws
  import opened Freeze

  /** Why a verdict was reached; the wording shown to operators is a parameter. */
  datatype Reason =
    | NotAPacket
    | HashMismatch
    | RateExceeded(source: AgentRole)
    | LawFailed(law: Law)
    | Anomaly(score: real, threshold: real)
    | LearnedAnomaly(probability: real, threshold: real)
    | Satisfied(flaggedScore: Option<real>, learned: Option<LearnedScore>)

  /** Everything KNOLL is given at construction. */
  datatype KnollConfig = KnollConfig(
    rateLimit: int, rateWindowMs: int, scorer: ScorerConfig, learned: LearnedConfig,
    hash: string -> string, malicious: Malicious, accepts: string -> bool,
    wording: Reason -> string, newId: nat -> string)

  /** KNOLL's state. An absent scorer is `None`. */
  datatype KnollState = KnollState(
    buckets: map<AgentRole, Bucket>, scorer: Option<ScorerState>, learned: Option<LearnedState>,
    freeze: FreezeState, quarantine: seq<QuarantineRecord>, audit: seq<AuditEntry>)

  /** The clock readings one interception takes, each by the part it is named after. */
  datatype Readings = Readings(rate: int, score: int, freeze: int, quarantine: int, learned: int, audit: int)

  datatype Gated = Gated(state: KnollState, verdict: Verdict)

  function BucketOf(m: map<AgentRole, Bucket>, source: AgentRole): Option<Bucket> {
    if source in m then Some(m[source]) else None
  }

  /** A hit that opens a window is always allowed; later ones are counted against the limit. */
  predicate RateAllows(limit: int, window: int, b: Option<Bucket>, t: int) {
    b.None? || t - b.value.start >= window || b.value.count + 1 <= limit
  }

  function Entry(c: KnollConfig, audit: seq<AuditEntry>, id: string, outcome: AuditOutcome, why: Reason,
                 t: int): AuditEntry {
    AuditEntry(c.newId(|audit|), id, outcome, Some(c.wording(why)), t)
  }

  function Deny(c: KnollConfig, s: KnollState, id: string, why: Reason, broken: Constraint, t: int): Gated {
    Gated(s.(audit := s.audit + [Entry(c, s.audit, id, BLOCKED_BY_KNOLL, why, t)]),
          Verdict(false, c.wording(why), [broken]))
  }

  const LAWS_HELD: seq<Constraint> :=
    [LawHeld(1), LawHeld(2), LawHeld(3), LawHeld(4), LawHeld(5), LawHeld(6), LawHeld(7), LawHeld(8)]

  function Allow(c: KnollConfig, s: KnollState, id: string, why: Reason, extra: seq<Constraint>, t: int): Gated {
    Gated(s.(audit := s.audit + [Entry(c, s.audit, id, ALLOWED, why, t)]),
          Verdict(true, c.wording(why), LAWS_HELD + extra))
  }

  /** `packet.header.packetId` when it is a non-empty string. */
  function SafePacketId(id: Option<string>): string {
    if id.Some? && id.value != "" then id.value else "unknown-packet"
  }

  /** The gate: structure, hash, rate, laws, behavioural score, learned score, in that order. */
  function Gate(c: KnollConfig, s: KnollState, x: Inbound, tenant: Option<string>, t: Readings): Gated {
    match x
    case Malformed(id) => Deny(c, s, SafePacketId(id), NotAPacket, STRUCTURE, t.audit)
    case Packet(p) =>
      if PacketDigest(c.hash, p.header, p.payload) != p.security.hash then
        Deny(c, s, p.header.packetId, HashMismatch, HASH_INTEGRITY, t.audit)
      else
        RateGate(c, s, p, tenant, t)
  }

  function RateGate(c: KnollConfig, s: KnollState, p: RoutingPacket, tenant: Option<string>, t: Readings): Gated {
    var source, b := p.header.source, BucketOf(s.buckets, p.header.source);
    var s1 := s.(buckets := s.buckets[source := Advance(c.rateWindowMs, b, t.rate)]);
    if !RateAllows(c.rateLimit, c.rateWindowMs, b, t.rate) then
      Deny(c, s1, p.header.packetId, RateExceeded(source), RATE_LIMIT, t.audit)
    else
      match FirstBrokenFrom(c.malicious, p, tenant, 0)
      case Some(law) => Deny(c, s1, p.header.packetId, LawFailed(law), BrokenLaw(law), t.audit)
      case None => ScoreGate(c, s1, p, t)
  }

  function ScoreGate(c: KnollConfig, s: KnollState, p: RoutingPacket, t: Readings): Gated {
    match s.scorer
    case None => LearnedGate(c, s, p, None, [], t)
    case Some(sc) =>
      var v := Judge(c.scorer, sc, p, t.score);
      var s1 := s.(scorer := Some(AfterScore(c.scorer, sc, p, t.score)));
      if v.isAnomalous then
        var why := Anomaly(Round4(v.score), c.scorer.threshold);
        var record := QuarantineRecord(p.header.packetId, p, c.wording(why), Some(Round4(v.score)), t.quarantine);
        var frozen := Tripped(s.freeze, c.wording(why), Round4(v.score), Some(p.header.packetId), t.freeze);
        var s2 := s1.(freeze := frozen, quarantine := s.quarantine + [record]);
        Deny(c, s2, p.header.packetId, why, BEHAVIORAL_SCORE, t.audit)
      else
        LearnedGate(c, s1, p, if v.flagged then Some(Round4(v.score)) else None, [BEHAVIORAL_SCORE], t)
  }

  function LearnedGate(c: KnollConfig, s: KnollState, p: RoutingPacket, flagged: Option<real>, held: seq<Constraint>,
                       t: Readings): Gated {
    match s.learned
    case None => Allow(c, s, p.header.packetId, Satisfied(flagged, None), held, t.audit)
    case Some(l) =>
      var v := LearnedJudge(c.learned, l, p, t.learned);
      var s1 := s.(learned := Some(AfterVerdict(c.learned, l, p, t.learned)));
      if Denies(c.learned, l, p, t.learned) then
        Deny(c, s1, p.header.packetId, LearnedAnomaly(v.probability, c.learned.threshold), LEARNED_BEHAVIORAL_SCORE,
             t.audit)
      else
        Allow(c, s1, p.header.packetId, Satisfied(flagged, Some(v)), held + [LEARNED_BEHAVIORAL_SCORE], t.audit)
  }

  class SecurityAuditLog {
    const newId: nat -> string
    var entries: seq<AuditEntry>

    constructor (newId: nat -> string)
      ensures entries == [] && this.newId == newId
    {
      this.newId, entries := newId, [];
    }

    method Record(packetId: string, outcome: AuditOutcome, reasoning: string, now: int)
      modifies this
      ensures entries == old(entries) + [AuditEntry(newId(|old(entries)|), packetId, outcome, Some(reasoning), now)]
    {
      entries := entries + [AuditEntry(newId(|entries|), packetId, outcome, Some(reasoning), now)];
    }
  }

  class Knoll {
    const config: KnollConfig
    const audit: SecurityAuditLog
    const scorer: BehavioralScorer?
    const learnedScorer: LearnedBehavioralScorer?
    const freeze: SystemFreezeController
    var buckets: map<AgentRole, Bucket>

    ghost predicate Valid()
      reads this, freeze
    {
      && audit.newId == config.newId && freeze.accepts == config.accepts && freeze.Valid()
      && (scorer != null ==> scorer.config == config.scorer)
      && (learnedScorer != null ==> learnedScorer.config == config.learned)
    }

    ghost function State(): KnollState
      requires Valid()
      reads this, audit, scorer, learnedScorer, freeze
    {
      KnollState(buckets,
                 if scorer == null then None else Some(scorer.State()),
                 if learnedScorer == null then None else Some(learnedScorer.State()),
                 freeze.State(), freeze.quarantine, audit.entries)
    }

    /** Scorers are stood up or not as the flags say; the learned one is off unless asked for. */
    constructor (config: KnollConfig, enableScoring: bool, learned: LearnedBehavioralScorer?)
      requires learned != null ==> learned.config == config.learned
      ensures Valid()
      ensures State() == KnollState(map[], if enableScoring then Some(FRESH_SCORER) else None,
                                    if learned == null then None else Some(learned.State()), Running, [], [])
    {
      this.config := config;
      audit := new SecurityAuditLog(config.newId);
      var s: BehavioralScorer? := null;
      if enableScoring {
        s := new BehavioralScorer(config.scorer);
      }
      scorer := s;
      learnedScorer := learned;
      freeze := new SystemFreezeController(config.accepts);
      buckets := map[];
    }

    method CheckRate(source: AgentRole, t: int) returns (ok: bool)
      modifies this`buckets
      ensures ok == RateAllows(config.rateLimit, config.rateWindowMs, BucketOf(old(buckets), source), t)
      ensures buckets == old(buckets)[source := Advance(config.rateWindowMs, BucketOf(old(buckets), source), t)]
    {
      if source !in buckets || t - buckets[source].start >= config.rateWindowMs {
        buckets := buckets[source := Bucket(t, 1)];
        return true;
      }
      var b := buckets[source];
      buckets := buckets[source := b.(count := b.count + 1)];
      ok := b.count + 1 <= config.rateLimit;
    }

    method Record(id: string, outcome: AuditOutcome, why: Reason, t: int)
      requires Valid()
      modifies audit
      ensures Valid()
      ensures var entry := Entry(config, old(audit.entries), id, outcome, why, t);
              State() == old(State()).(audit := old(audit.entries) + [entry])
    {
      audit.Record(id, outcome, config.wording(why), t);
    }

    method Intercept(x: Inbound, tenant: Option<string>, t: Readings) returns (v: Verdict)
      requires Valid()
      modifies this, audit, scorer, learnedScorer, freeze
      ensures Valid()
      ensures Gated(State(), v) == Gate(config, old(State()), x, tenant, t)
    {
      if x.Malformed? {
        Record(SafePacketId(x.id), BLOCKED_BY_KNOLL, NotAPacket, t.audit);
        return Verdict(false, config.wording(NotAPacket), [STRUCTURE]);
      }
      var p := x.packet;
      if PacketDigest(config.hash, p.header, p.payload) != p.security.hash {
        Record(p.header.packetId, BLOCKED_BY_KNOLL, HashMismatch, t.audit);
        return Verdict(false, config.wording(HashMismatch), [HASH_INTEGRITY]);
      }
      v := RateAndLaws(p, tenant, t);
    }

    method RateAndLaws(p: RoutingPacket, tenant: Option<string>, t: Readings) returns (v: Verdict)
      requires Valid()
      modifies this, audit, scorer, learnedScorer, freeze
      ensures Valid()
      ensures Gated(State(), v) == RateGate(config, old(State()), p, tenant, t)
    {
      var ok := CheckRate(p.header.source, t.rate);
      if !ok {
        Record(p.header.packetId, BLOCKED_BY_KNOLL, RateExceeded(p.header.source), t.audit);
        return Verdict(false, config.wording(RateExceeded(p.header.source)), [RATE_LIMIT]);
      }
      var broken := FirstBroken(config.malicious, p, tenant);
      if broken.Some? {
        Record(p.header.packetId, BLOCKED_BY_KNOLL, LawFailed(broken.value), t.audit);
        return Verdict(false, config.wording(LawFailed(broken.value)), [BrokenLaw(broken.value)]);
      }
      v := Behavioral(p, t);
    }

    method Behavioral(p: RoutingPacket, t: Readings) returns (v: Verdict)
      requires Valid()
      modifies audit, scorer, learnedScorer, freeze
      ensures Valid()
      ensures Gated(State(), v) == ScoreGate(config, old(State()), p, t)
    {
      var flagged := None;
      var held := [];
      if scorer != null {
        var b := scorer.Score(p, t.score);
        if b.isAnomalous {
          var why := Anomaly(Round4(b.score), config.scorer.threshold);
          freeze.TriggerFreeze(config.wording(why), Round4(b.score), Some(p.header.packetId), t.freeze);
          freeze.QuarantinePacket(p, Some(config.wording(why)), Some(Round4(b.score)), t.quarantine);
          Record(p.header.packetId, BLOCKED_BY_KNOLL, why, t.audit);
          return Verdict(false, config.wording(why), [BEHAVIORAL_SCORE]);
        }
        if b.flagged {
          flagged := Some(Round4(b.score));
        }
        held := [BEHAVIORAL_SCORE];
      }
      v := LearnedVerdict(p, flagged, held, t);
    }

    method LearnedVerdict(p: RoutingPacket, flagged: Option<real>, held: seq<Constraint>, t: Readings)
      returns (v: Verdict)
      requires Valid()
      modifies audit, learnedScorer
      ensures Valid()
      ensures Gated(State(), v) == LearnedGate(config, old(State()), p, flagged, held, t)
    {
      var constraints := held;
      var learned := None;
      if learnedScorer != null {
        var deny, l := learnedScorer.Verdict(p, t.learned);
        if deny {
          var why := LearnedAnomaly(l.probability, config.learned.threshold);
          Record(p.header.packetId, BLOCKED_BY_KNOLL, why, t.audit);
          return Verdict(false, config.wording(why), [LEARNED_BEHAVIORAL_SCORE]);
        }
        learned := Some(l);
        constraints := held + [LEARNED_BEHAVIORAL_SCORE];
      }
      Record(p.header.packetId, ALLOWED, Satisfied(flagged, learned), t.audit);
      v := Verdict(true, config.wording(Satisfied(flagged, learned)), LAWS_HELD + constraints);
    }
  }
}
