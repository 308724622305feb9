/** What KNOLL keeps over whole runs of arrivals. */
module KnollRuns {
  import opened Text
  import opened Money
  import opened Json
  import opened Schema
  import opened PacketHash
  import opened FixedWindow
  import opened Scoring
  import opened Learned
  import opened Laws
  import opened PayloadText
  import opened Freeze
  import opened KnollGate

  datatype Arrival = Arrival(inbound: Inbound, tenant: Option<string>, now: Readings)

  function StateAfter(c: KnollConfig, s: KnollState, run: seq<Arrival>): KnollState {
    if run == [] then s
    else
      var last := run[|run| - 1];
      Gate(c, StateAfter(c, s, run[..|run| - 1]), last.inbound, last.tenant, last.now).state
  }

  function VerdictAt(c: KnollConfig, s: KnollState, run: seq<Arrival>, i: nat): Verdict
    requires i < |run|
  {
    Gate(c, StateAfter(c, s, run[..i]), run[i].inbound, run[i].tenant, run[i].now).verdict
  }

  predicate InOrder(run: seq<Arrival>) {
    forall i, j | 0 <= i < j < |run| :: run[i].now.rate <= run[j].now.rate
  }

  // ---------- one call ----------

  /** The audit grew by one entry at the end: packet, the outcome the caller is told, why, and when. */
  ghost predicate AuditedOnce(c: KnollConfig, s: KnollState, id: string, g: Gated, t: int) {
    var outcome := if g.verdict.isAllowed then ALLOWED else BLOCKED_BY_KNOLL;
    g.state.audit == s.audit + [AuditEntry(c.newId(|s.audit|), id, outcome, Some(g.verdict.reasoning), t)]
  }

  /** A freeze once raised keeps its cause; exactly a behavioural denial raises one, naming its own packet. */
  ghost predicate FreezeExplained(s: KnollState, id: string, g: Gated) {
    && (s.freeze.Frozen? ==> g.state.freeze == s.freeze)
    && (g.state.freeze != s.freeze ==>
          !g.verdict.isAllowed && g.verdict.constraints == [BEHAVIORAL_SCORE] && g.state.freeze.packetId == Some(id))
    && (!g.verdict.isAllowed && g.verdict.constraints == [BEHAVIORAL_SCORE] ==> g.state.freeze.Frozen?)
  }

  lemma {:induction false} DenyAudits(c: KnollConfig, s: KnollState, id: string, why: Reason, broken: Constraint,
                                      t: int)
    ensures AuditedOnce(c, s, id, Deny(c, s, id, why, broken, t), t)
        && Deny(c, s, id, why, broken, t).state.freeze == s.freeze
  {
  }

  lemma {:induction false} LearnedGateAudits(c: KnollConfig, s: KnollState, p: RoutingPacket, flagged: Option<real>,
                                             held: seq<Constraint>, t: Readings)
    ensures var g := LearnedGate(c, s, p, flagged, held, t);
            AuditedOnce(c, s, p.header.packetId, g, t.audit) && g.state.freeze == s.freeze
  {
  }

  lemma {:induction false} ScoreGateAudits(c: KnollConfig, s: KnollState, p: RoutingPacket, t: Readings)
    ensures var g := ScoreGate(c, s, p, t);
            AuditedOnce(c, s, p.header.packetId, g, t.audit) && FreezeExplained(s, p.header.packetId, g)
  {
    match s.scorer
    case None => LearnedGateAudits(c, s, p, None, [], t);
    case Some(sc) =>
      var v := Judge(c.scorer, sc, p, t.score);
      var s1 := s.(scorer := Some(AfterScore(c.scorer, sc, p, t.score)));
      if !v.isAnomalous {
        LearnedGateAudits(c, s1, p, if v.flagged then Some(Round4(v.score)) else None, [BEHAVIORAL_SCORE], t);
      }
  }

  lemma {:induction false} RateGateAudits(c: KnollConfig, s: KnollState, p: RoutingPacket, tenant: Option<string>,
                                          t: Readings)
    ensures var g := RateGate(c, s, p, tenant, t);
            AuditedOnce(c, s, p.header.packetId, g, t.audit) && FreezeExplained(s, p.header.packetId, g)
  {
    var source := p.header.source;
    var s1 := s.(buckets := s.buckets[source := Advance(c.rateWindowMs, BucketOf(s.buckets, source), t.rate)]);
    DenyAudits(c, s1, p.header.packetId, RateExceeded(p.header.source), RATE_LIMIT, t.audit);
    match FirstBrokenFrom(c.malicious, p, tenant, 0)
    case Some(law) => DenyAudits(c, s1, p.header.packetId, LawFailed(law), BrokenLaw(law), t.audit);
    case None => ScoreGateAudits(c, s1, p, t);
  }

  /**
   Every call is audited once, at the end of the log, with the outcome the caller is told; and a freeze
   once raised keeps its cause.
   */
  lemma {:induction false} GateAudits(c: KnollConfig, s: KnollState, x: Inbound, tenant: Option<string>, t: Readings)
    ensures var g := Gate(c, s, x, tenant, t);
            var id := if x.Packet? then x.packet.header.packetId
                else if x.id.None? || x.id.value == "" then "unknown-packet" else x.id.value;
            AuditedOnce(c, s, id, g, t.audit) && FreezeExplained(s, id, g)
  {
    match x
    case Malformed(id) => DenyAudits(c, s, SafePacketId(id), NotAPacket, STRUCTURE, t.audit);
    case Packet(p) =>
      DenyAudits(c, s, p.header.packetId, HashMismatch, HASH_INTEGRITY, t.audit);
      RateGateAudits(c, s, p, tenant, t);
  }

  ghost predicate SameBut<V>(a: map<AgentRole, V>, b: map<AgentRole, V>, source: AgentRole) {
    a - {source} == b - {source}
  }

  ghost predicate ScorerSameBut(a: ScorerState, b: ScorerState, source: AgentRole) {
    SameBut(a.windows, b.windows, source) && SameBut(a.reputation, b.reputation, source)
  }

  /** Buckets and heuristic scorer have changed for one source at most. */
  ghost predicate SpentBy(a: KnollState, b: KnollState, source: AgentRole) {
    && SameBut(a.buckets, b.buckets, source) && a.scorer.Some? == b.scorer.Some?
    && (a.scorer.Some? ==> ScorerSameBut(a.scorer.value, b.scorer.value, source))
  }

  /** So has what the learned scorer remembers; its mode and model have not changed. */
  ghost predicate LearnedBy(a: KnollState, b: KnollState, source: AgentRole) {
    && a.learned.Some? == b.learned.Some?
    && (a.learned.Some? ==>
          ScorerSameBut(a.learned.value.memory, b.learned.value.memory, source)
          && b.learned.value == a.learned.value.(memory := b.learned.value.memory))
  }

  /** The packet is quarantined, with the reason given, and is the cause of the freeze if none stood. */
  ghost predicate FrozenFor(p: RoutingPacket, a: KnollState, g: Gated, t: Readings) {
    && |g.state.quarantine| == |a.quarantine| + 1
    && var record := g.state.quarantine[|a.quarantine|];
    && record.score.Some?
    && record == QuarantineRecord(p.header.packetId, p, g.verdict.reasoning, record.score, t.quarantine)
    && g.state.quarantine == a.quarantine + [record]
    && g.state.freeze == Tripped(a.freeze, g.verdict.reasoning, record.score.value, Some(p.header.packetId), t.freeze)
  }

  ghost predicate FreezeKept(a: KnollState, b: KnollState) { a.freeze == b.freeze && a.quarantine == b.quarantine }

  /**
   What an answer leaves behind besides its audit entry. Refusals on structure or hash leave nothing; those on rate or
   a law spend the source's bucket; a behavioural one also moves the scorer's memory of the source, quarantines the
   packet and freezes the system before the learned scorer sees it; a learned one, and an admission, move both
   scorers' memory of the source and neither freeze nor quarantine.
   */
  ghost predicate Footprint(s: KnollState, x: Inbound, g: Gated, t: Readings) {
    match x
    case Malformed(_) =>
      !g.verdict.isAllowed && g.verdict.constraints == [STRUCTURE] && g.state == s.(audit := g.state.audit)
    case Packet(p) =>
      var source := p.header.source;
      if g.verdict.isAllowed then
        SpentBy(s, g.state, source) && LearnedBy(s, g.state, source) && FreezeKept(s, g.state)
      else
        |g.verdict.constraints| == 1 &&
        match g.verdict.constraints[0]
        case HASH_INTEGRITY => g.state == s.(audit := g.state.audit)
        case RATE_LIMIT => BucketSpent(s, g.state, source)
        case BrokenLaw(_) => BucketSpent(s, g.state, source)
        case BEHAVIORAL_SCORE =>
          SpentBy(s, g.state, source) && g.state.learned == s.learned && FrozenFor(p, s, g, t)
        case LEARNED_BEHAVIORAL_SCORE =>
          SpentBy(s, g.state, source) && LearnedBy(s, g.state, source) && FreezeKept(s, g.state)
        case _ => false
  }

  ghost predicate BucketSpent(a: KnollState, b: KnollState, source: AgentRole) {
    SameBut(a.buckets, b.buckets, source) && b == a.(audit := b.audit, buckets := b.buckets)
  }

  lemma {:induction false} OneKey<V>(m: map<AgentRole, V>, source: AgentRole, v: V)
    ensures SameBut(m, m[source := v], source)
  {
  }

  lemma {:induction false} LearnedGateFootprint(c: KnollConfig, s: KnollState, p: RoutingPacket, flagged: Option<real>,
                                                held: seq<Constraint>, t: Readings)
    ensures var g := LearnedGate(c, s, p, flagged, held, t);
            && g.state == s.(audit := g.state.audit, learned := g.state.learned)
            && LearnedBy(s, g.state, p.header.source)
            && (!g.verdict.isAllowed ==> g.verdict.constraints == [LEARNED_BEHAVIORAL_SCORE])
  {
    if s.learned.Some? {
      var l, source := s.learned.value, p.header.source;
      var after := AfterVerdict(c.learned, l, p, t.learned);
      OneKey(l.memory.windows, source, after.memory.windows[source]);
      OneKey(l.memory.reputation, source, after.memory.reputation[source]);
    }
  }

  lemma {:induction false} ScoreGateFootprint(c: KnollConfig, s: KnollState, p: RoutingPacket, t: Readings)
    ensures var g := ScoreGate(c, s, p, t);
            && g.state.buckets == s.buckets && SpentBy(s, g.state, p.header.source)
            && (if !g.verdict.isAllowed && g.verdict.constraints == [BEHAVIORAL_SCORE]
                then g.state.learned == s.learned && FrozenFor(p, s, g, t)
                else LearnedBy(s, g.state, p.header.source) && FreezeKept(s, g.state))
            && (!g.verdict.isAllowed ==> g.verdict.constraints in {[BEHAVIORAL_SCORE], [LEARNED_BEHAVIORAL_SCORE]})
  {
    match s.scorer
    case None => LearnedGateFootprint(c, s, p, None, [], t);
    case Some(sc) =>
      var v, source := Judge(c.scorer, sc, p, t.score), p.header.source;
      var after := AfterScore(c.scorer, sc, p, t.score);
      OneKey(sc.windows, source, after.windows[source]);
      OneKey(sc.reputation, source, after.reputation[source]);
      if !v.isAnomalous {
        LearnedGateFootprint(c, s.(scorer := Some(after)), p, if v.flagged then Some(Round4(v.score)) else None,
                             [BEHAVIORAL_SCORE], t);
      }
  }

  lemma {:induction false} RateGateFootprint(c: KnollConfig, s: KnollState, p: RoutingPacket, tenant: Option<string>,
                                             t: Readings)
    ensures Footprint(s, Packet(p), RateGate(c, s, p, tenant, t), t)
  {
    var source := p.header.source;
    var bucket := Advance(c.rateWindowMs, BucketOf(s.buckets, source), t.rate);
    OneKey(s.buckets, source, bucket);
    ScoreGateFootprint(c, s.(buckets := s.buckets[source := bucket]), p, t);
  }

  /**
   In every state each answer leaves exactly its own footprint; in particular the system freezes on a behavioural
   refusal and on no other answer.
   */
  lemma {:induction false} RefusalFootprint(c: KnollConfig, s: KnollState, x: Inbound, tenant: Option<string>,
                                            t: Readings)
    ensures var g := Gate(c, s, x, tenant, t);
            && Footprint(s, x, g, t)
            && (s.freeze.Running? ==>
                  (g.state.freeze.Frozen? <==> !g.verdict.isAllowed && g.verdict.constraints == [BEHAVIORAL_SCORE]))
  {
    if x.Packet? {
      RateGateFootprint(c, s, x.packet, tenant, t);
    }
  }

  /**
   What an allowed packet is known to be: untampered, on an open route, well tokened, free of malicious
   text, inside its tenant and asking its destination only for that destination's duty.
   */
  lemma {:induction false} AllowedMeans(c: KnollConfig, s: KnollState, x: Inbound, tenant: Option<string>, t: Readings)
    requires Gate(c, s, x, tenant, t).verdict.isAllowed
    ensures x.Packet?
    ensures var p := x.packet;
            && PacketDigest(c.hash, p.header, p.payload) == p.security.hash
            && WellFormedToken(p.security.knollToken)
            && (p.header.source, p.header.destination) in OPEN_ROUTES
            && !c.malicious(Haystack(p)) && TenantsAgree(p, tenant) && DutyRespected(p)
  {
    if x.Packet? {
      LawfulIff(c.malicious, x.packet, tenant);
    }
  }

  /**
   For patterns that a match satisfies whatever stands around it, an allowed packet says nothing malicious: neither its
   intent nor any string at any depth of its data matches.
   */
  lemma {:induction false} AllowedSaysNoMalice(c: KnollConfig, s: KnollState, x: Inbound, tenant: Option<string>,
                                               t: Readings)
    requires Embeds(c.malicious) && Gate(c, s, x, tenant, t).verdict.isAllowed
    ensures x.Packet? && !c.malicious(x.packet.payload.intent)
    ensures forall path, text :: At(x.packet.payload.data, path) == Some(Str(text)) ==> !c.malicious(text)
  {
    AllowedMeans(c, s, x, tenant, t);
    var p := x.packet;
    if text :| Says(p, text) && c.malicious(text) {
      MaliceIsSeen(c.malicious, p);
    }
    assert Says(p, p.payload.intent);
    forall path, text | At(p.payload.data, path) == Some(Str(text)) ensures !c.malicious(text) {
      assert Contains(p.payload.data, text) && Says(p, text);
    }
  }

  /**
   A packet whose sealed content was changed after hashing is refused on the hash alone, whatever the
   state, unless its text collides with the original's; a copy that only reorders keys is not.
   */
  lemma {:induction false} TamperIsCaught(c: KnollConfig, s: KnollState, original: RoutingPacket, p: RoutingPacket,
                                          tenant: Option<string>, t: Readings)
    requires Distinct(original.payload.data) && Distinct(p.payload.data)
    requires original.security.hash == PacketDigest(c.hash, original.header, original.payload)
    requires p.security == original.security
    requires PacketDigest(c.hash, original.header, original.payload) == PacketDigest(c.hash, p.header, p.payload) ==>
               Canonicalize(original.header, original.payload) == Canonicalize(p.header, p.payload)
    ensures !SameContent(original.header, original.payload, p.header, p.payload) <==>
            Gate(c, s, Packet(p), tenant, t) == Deny(c, s, p.header.packetId, HashMismatch, HASH_INTEGRITY, t.audit)
  {
    CanonicalDecides(original.header, original.payload, p.header, p.payload);
    var g := Gate(c, s, Packet(p), tenant, t);
    if PacketDigest(c.hash, p.header, p.payload) == p.security.hash {
      NotHashIntegrity(c, s, p, tenant, t);
      assert g.verdict.constraints != [HASH_INTEGRITY];
    } else {
      assert g == Deny(c, s, p.header.packetId, HashMismatch, HASH_INTEGRITY, t.audit);
    }
  }

  lemma {:induction false} NotHashIntegrity(c: KnollConfig, s: KnollState, p: RoutingPacket, tenant: Option<string>,
                                            t: Readings)
    ensures RateGate(c, s, p, tenant, t).verdict.constraints[0] != HASH_INTEGRITY
  {
  }

  // ---------- the learned scorer only adds denies ----------

  /** Everything but the learned scorer and the audit wording. */
  ghost predicate SameCore(a: KnollState, b: KnollState) {
    a.buckets == b.buckets && a.scorer == b.scorer && a.freeze == b.freeze && a.quarantine == b.quarantine
    && |a.audit| == |b.audit|
  }

  /** `with` may carry a learned scorer, `without` carries none. */
  ghost predicate Shadowing(a: KnollState, b: KnollState) {
    SameCore(a, b) && b.learned.None?
  }

  predicate InShadow(s: KnollState) { s.learned.Some? ==> s.learned.value.mode.Shadow? }

  /** How the answers of the two gates may differ, given the state the first one started from. */
  ghost predicate Additive(a: KnollState, g: Gated, h: Gated) {
    && Shadowing(g.state, h.state)
    && (g.verdict.isAllowed ==> h.verdict.isAllowed)
    && (!g.verdict.isAllowed && h.verdict.isAllowed ==> g.verdict.constraints == [LEARNED_BEHAVIORAL_SCORE])
    && (InShadow(a) ==> InShadow(g.state) && g.verdict.isAllowed == h.verdict.isAllowed)
  }

  lemma {:induction false} DenyAlike(c: KnollConfig, a: KnollState, b: KnollState, id: string, why: Reason,
                                     broken: Constraint, t: int)
    requires Shadowing(a, b)
    ensures Additive(a, Deny(c, a, id, why, broken, t), Deny(c, b, id, why, broken, t))
  {
  }

  lemma {:induction false} LearnedGateStep(c: KnollConfig, a: KnollState, b: KnollState, p: RoutingPacket,
                                           flagged: Option<real>, held: seq<Constraint>, t: Readings)
    requires Shadowing(a, b)
    ensures Additive(a, LearnedGate(c, a, p, flagged, held, t), LearnedGate(c, b, p, flagged, held, t))
  {
  }

  lemma {:induction false} ScoreGateStep(c: KnollConfig, a: KnollState, b: KnollState, p: RoutingPacket, t: Readings)
    requires Shadowing(a, b)
    ensures Additive(a, ScoreGate(c, a, p, t), ScoreGate(c, b, p, t))
  {
    match a.scorer
    case None => LearnedGateStep(c, a, b, p, None, [], t);
    case Some(sc) =>
      var v := Judge(c.scorer, sc, p, t.score);
      var next := Some(AfterScore(c.scorer, sc, p, t.score));
      if !v.isAnomalous {
        LearnedGateStep(c, a.(scorer := next), b.(scorer := next), p,
                        if v.flagged then Some(Round4(v.score)) else None, [BEHAVIORAL_SCORE], t);
      }
  }

  lemma {:induction false} RateGateStep(c: KnollConfig, a: KnollState, b: KnollState, p: RoutingPacket,
                                        tenant: Option<string>, t: Readings)
    requires Shadowing(a, b)
    ensures Additive(a, RateGate(c, a, p, tenant, t), RateGate(c, b, p, tenant, t))
  {
    var next := a.buckets[p.header.source := Advance(c.rateWindowMs, BucketOf(a.buckets, p.header.source), t.rate)];
    ScoreGateStep(c, a.(buckets := next), b.(buckets := next), p, t);
  }

  lemma {:induction false} LearnedStep(c: KnollConfig, a: KnollState, b: KnollState, x: Inbound,
                                       tenant: Option<string>, t: Readings)
    requires Shadowing(a, b)
    ensures Additive(a, Gate(c, a, x, tenant, t), Gate(c, b, x, tenant, t))
  {
    match x
    case Malformed(id) => DenyAlike(c, a, b, SafePacketId(id), NotAPacket, STRUCTURE, t.audit);
    case Packet(p) =>
      DenyAlike(c, a, b, p.header.packetId, HashMismatch, HASH_INTEGRITY, t.audit);
      RateGateStep(c, a, b, p, tenant, t);
  }

  lemma {:induction false} LearnedRun(c: KnollConfig, a: KnollState, b: KnollState, run: seq<Arrival>)
    requires Shadowing(a, b)
    ensures Shadowing(StateAfter(c, a, run), StateAfter(c, b, run))
    ensures InShadow(a) ==> InShadow(StateAfter(c, a, run))
  {
    if run != [] {
      var front, last := run[..|run| - 1], run[|run| - 1];
      LearnedRun(c, a, b, front);
      LearnedStep(c, StateAfter(c, a, front), StateAfter(c, b, front), last.inbound, last.tenant, last.now);
    }
  }

  /**
   The learned scorer is purely additive. Feed the same arrivals to a KNOLL with it and to one without:
   buckets, heuristic scorer, freeze and quarantine stay equal throughout, whatever the first allows the
   second allows, the only new denial is the learned one, and in shadow mode the answers never differ.
   */
  lemma {:induction false} LearnedIsAdditive(c: KnollConfig, a: KnollState, b: KnollState, run: seq<Arrival>, i: nat)
    requires Shadowing(a, b) && i < |run|
    ensures SameCore(StateAfter(c, a, run), StateAfter(c, b, run))
    ensures VerdictAt(c, a, run, i).isAllowed ==> VerdictAt(c, b, run, i).isAllowed
    ensures !VerdictAt(c, a, run, i).isAllowed && VerdictAt(c, b, run, i).isAllowed ==>
              VerdictAt(c, a, run, i).constraints == [LEARNED_BEHAVIORAL_SCORE]
    ensures InShadow(a) ==> VerdictAt(c, a, run, i).isAllowed == VerdictAt(c, b, run, i).isAllowed
  {
    LearnedRun(c, a, b, run);
    LearnedRun(c, a, b, run[..i]);
    LearnedStep(c, StateAfter(c, a, run[..i]), StateAfter(c, b, run[..i]), run[i].inbound, run[i].tenant, run[i].now);
  }

  // ---------- the rate limit over sliding windows ----------

  /** Whether a packet of `source` gets past the rate check, whatever a later check makes of it. */
  predicate RateAdmits(c: KnollConfig, s: KnollState, a: Arrival, source: AgentRole) {
    && a.inbound.Packet? && a.inbound.packet.header.source == source
    && PacketDigest(c.hash, a.inbound.packet.header, a.inbound.packet.payload) == a.inbound.packet.security.hash
    && RateAllows(c.rateLimit, c.rateWindowMs, BucketOf(s.buckets, source), a.now.rate)
  }

  /** How many packets of a source get past the rate check within [x, x + rateWindowMs). */
  function RateAdmittedWithin(c: KnollConfig, s: KnollState, run: seq<Arrival>, source: AgentRole, x: int): nat {
    if run == [] then 0
    else
      var n := |run| - 1;
      RateAdmittedWithin(c, s, run[..n], source, x)
      + if RateAdmits(c, StateAfter(c, s, run[..n]), run[n], source) then Within(x, c.rateWindowMs, run[n].now.rate)
          else 0
  }

  /** How many packets of a source KNOLL allows within [x, x + rateWindowMs). */
  function AllowedWithin(c: KnollConfig, s: KnollState, run: seq<Arrival>, source: AgentRole, x: int): nat {
    if run == [] then 0
    else
      var n := |run| - 1;
      AllowedWithin(c, s, run[..n], source, x)
      + if run[n].inbound.Packet? && run[n].inbound.packet.header.source == source && VerdictAt(c, s, run, n).isAllowed
        then Within(x, c.rateWindowMs, run[n].now.rate) else 0
  }

  /** The limit in force: the hit that opens a window is never refused. */
  function EffectiveLimit(limit: int): nat { if limit < 1 then 1 else limit }

  lemma {:induction false} RateGateBuckets(c: KnollConfig, s: KnollState, p: RoutingPacket, tenant: Option<string>,
                                           t: Readings)
    ensures var g := RateGate(c, s, p, tenant, t); var b := BucketOf(s.buckets, p.header.source);
            && g.state.buckets == s.buckets[p.header.source := Advance(c.rateWindowMs, b, t.rate)]
            && (g.verdict.isAllowed ==> RateAllows(c.rateLimit, c.rateWindowMs, b, t.rate))
  {
    var next := s.buckets[p.header.source := Advance(c.rateWindowMs, BucketOf(s.buckets, p.header.source), t.rate)];
    ScoreGateFootprint(c, s.(buckets := next), p, t);
  }

  lemma {:induction false} GateBuckets(c: KnollConfig, s: KnollState, a: Arrival, source: AgentRole)
    ensures var g := Gate(c, s, a.inbound, a.tenant, a.now); var b := BucketOf(s.buckets, source);
            && BucketOf(g.state.buckets, source) in {b, Some(Advance(c.rateWindowMs, b, a.now.rate))}
            && (RateAdmits(c, s, a, source) ==>
                  BucketOf(g.state.buckets, source) == Some(Advance(c.rateWindowMs, b, a.now.rate)))
            && (a.inbound.Packet? && a.inbound.packet.header.source == source && g.verdict.isAllowed ==>
                  RateAdmits(c, s, a, source))
  {
    if a.inbound.Packet? {
      RateGateBuckets(c, s, a.inbound.packet, a.tenant, a.now);
    }
  }

  lemma {:induction false} RateAdmittedStep(c: KnollConfig, s: KnollState, a: Arrival, source: AgentRole, x: int,
                                            last: int, admitted: nat)
    requires last <= a.now.rate
    requires WithinBound(EffectiveLimit(c.rateLimit), c.rateWindowMs, x, BucketOf(s.buckets, source), last, admitted)
    ensures var next := BucketOf(Gate(c, s, a.inbound, a.tenant, a.now).state.buckets, source);
            WithinBound(EffectiveLimit(c.rateLimit), c.rateWindowMs, x, next, a.now.rate,
                        admitted + if RateAdmits(c, s, a, source) then Within(x, c.rateWindowMs, a.now.rate) else 0)
  {
    GateBuckets(c, s, a, source);
    BoundStep(EffectiveLimit(c.rateLimit), c.rateWindowMs, x, BucketOf(s.buckets, source), last, admitted, a.now.rate);
  }

  lemma {:induction false} RateAdmittedBound(c: KnollConfig, s: KnollState, run: seq<Arrival>, source: AgentRole,
                                             x: int, from: int)
    requires InOrder(run) && s.buckets == map[]
    requires run != [] ==> from <= run[0].now.rate
    ensures WithinBound(EffectiveLimit(c.rateLimit), c.rateWindowMs, x, BucketOf(StateAfter(c, s, run).buckets, source),
                        if run == [] then from else run[|run| - 1].now.rate, RateAdmittedWithin(c, s, run, source, x))
  {
    if run != [] {
      var n := |run| - 1;
      RateAdmittedBound(c, s, run[..n], source, x, from);
      RateAdmittedStep(c, StateAfter(c, s, run[..n]), run[n], source, x, if n == 0 then from else run[n - 1].now.rate,
                       RateAdmittedWithin(c, s, run[..n], source, x));
    }
  }

  lemma {:induction false} AllowedAreAdmitted(c: KnollConfig, s: KnollState, run: seq<Arrival>, source: AgentRole,
                                              x: int)
    ensures AllowedWithin(c, s, run, source, x) <= RateAdmittedWithin(c, s, run, source, x)
  {
    if run != [] {
      var n := |run| - 1;
      AllowedAreAdmitted(c, s, run[..n], source, x);
      GateBuckets(c, StateAfter(c, s, run[..n]), run[n], source);
    }
  }

  /**
   Over every run with a clock that never runs backwards, the rate check lets through at most
   `MostWithin(max(1, rateLimit), rateWindowMs)` packets of one source within any half-open interval one rate window
   long, and KNOLL allows no more than those.
   */
  lemma {:induction false} KnollSlidingBound(c: KnollConfig, s: KnollState, run: seq<Arrival>, source: AgentRole,
                                             x: int)
    requires InOrder(run) && s.buckets == map[]
    ensures AllowedWithin(c, s, run, source, x) <= RateAdmittedWithin(c, s, run, source, x)
         <= MostWithin(EffectiveLimit(c.rateLimit), c.rateWindowMs)
  {
    var from := if run == [] then 0 else run[0].now.rate;
    AllowedAreAdmitted(c, s, run, source, x);
    RateAdmittedBound(c, s, run, source, x, from);
    BoundMeans(EffectiveLimit(c.rateLimit), c.rateWindowMs, x, BucketOf(StateAfter(c, s, run).buckets, source),
               if run == [] then from else run[|run| - 1].now.rate, RateAdmittedWithin(c, s, run, source, x));
  }
}
