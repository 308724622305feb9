/** The routing contract: agent roles, packets, verdicts, and the structural guard's two outcomes. */
module Schema {
  import opened Text
  import opened Json

  /** A packet endpoint is a string at run time; only the five named ones are legal. */
  datatype Endpoint = HOPE | DREAM | VISION | KNOLL | APEX | Other(name: string)

  predicate IsRole(e: Endpoint) { !e.Other? }

  function EndpointName(e: Endpoint): string {
    match e
    case HOPE => "HOPE"
    case DREAM => "DREAM"
    case VISION => "VISION"
    case KNOLL => "KNOLL"
    case APEX => "APEX"
    case Other(name) => name
  }

  /** Excludes the spelling of a role as an unknown endpoint, so a name means one endpoint. */
  type AgentRole = e: Endpoint | e.Other? ==> e.name !in {"HOPE", "DREAM", "VISION", "KNOLL", "APEX"} witness HOPE

  lemma EndpointNameInjective(a: AgentRole, b: AgentRole)
    requires EndpointName(a) == EndpointName(b)
    ensures a == b
  {
    var ns := ["HOPE", "DREAM", "VISION", "KNOLL", "APEX"];
    assert forall i, j | 0 <= i < j < 5 :: ns[i][0] != ns[j][0];
    assert !a.Other? ==> EndpointName(a) in {"HOPE", "DREAM", "VISION", "KNOLL", "APEX"};
    assert !b.Other? ==> EndpointName(b) in {"HOPE", "DREAM", "VISION", "KNOLL", "APEX"};
    if !a.Other? && !b.Other? {
      assert EndpointName(a)[0] == EndpointName(b)[0];
    }
  }

  datatype Priority = CRITICAL | STANDARD | BACKGROUND

  function PriorityName(p: Priority): string {
    match p
    case CRITICAL => "CRITICAL"
    case STANDARD => "STANDARD"
    case BACKGROUND => "BACKGROUND"
  }

  lemma PriorityNameInjective(a: Priority, b: Priority)
    requires PriorityName(a) == PriorityName(b)
    ensures a == b
  {
    assert PriorityName(a)[0] == PriorityName(b)[0];
  }

  datatype Status = SUCCESS | BLOCKED | FAILED

  datatype Header = Header(packetId: string, timestamp: int, source: AgentRole, destination: AgentRole,
                           priority: Priority, tenantId: Option<string>)

  /** `data` is any object or array: what `typeof data === 'object'` admits besides null, which is refused. */
  type PayloadData = v: Json | v.Obj? || v.Arr? witness Obj(NoMembers)

  datatype Payload = Payload(intent: string, data: PayloadData)

  datatype Security = Security(knollToken: string, hash: string)

  datatype RoutingPacket = RoutingPacket(header: Header, payload: Payload, security: Security)

  /**
   What arrives at a gate: a value with the shape of a packet, or anything else. Of the latter only
   the string found at `header.packetId`, if any, is ever looked at.
   */
  datatype Inbound = Malformed(id: Option<string>) | Packet(packet: RoutingPacket)

  datatype Law = TokenWellFormed | ValidEndpoints | NoDirectDreamVision | NoKnollForgery
               | HopeCannotCommand | NoMaliciousIntent | NoCrossTenant | PrimaryTriadDuty

  datatype Constraint = STRUCTURE | SYSTEM_FREEZE | HASH_INTEGRITY | RATE_LIMIT | BrokenLaw(law: Law)
                      | LawHeld(number: nat) | BEHAVIORAL_SCORE | LEARNED_BEHAVIORAL_SCORE

  datatype Verdict = Verdict(isAllowed: bool, reasoning: string, constraints: seq<Constraint>)

  datatype AuditOutcome = ALLOWED | BLOCKED_BY_KNOLL

  /** One row of KNOLL's security audit. */
  datatype AuditEntry = AuditEntry(id: string, packetId: string, outcome: AuditOutcome, reasoning: Option<string>,
                                   timestamp: int)
}
