/** APEX's orchestrator: minting packets, the forwarding handler, and submissions. */
module Orchestrator {
  import opened Text
  import opened Json
  import opened Schema
  import opened PacketHash
  import opened Laws
  import opened FixedWindow
  import opened KnollGate
  import opened KnollRuns
  import opened Router
  import opened RouterRuns
  import opened RouterSafety

  /** What a caller asks to have sent; `None` stands for an option left out. */
  datatype Draft = Draft(source: AgentRole, destination: AgentRole, intent: string, data: PayloadData,
                         priority: Option<Priority>,
                         knollToken: Option<string>, timestamp: Option<int>, tenantId: Option<string>)

  /** `newKnollToken` always yields a well-formed token. */
  type KnollToken = t: string | WellFormedToken(t) witness "knoll_00000000000000000000000000000000"

  /** The fresh id, token and clock reading taken when a packet is minted. */
  datatype Minting = Minting(packetId: string, token: KnollToken, now: int)

  /** `createPacket`; `None` for the errors it throws. */
  function CreatePacket(hash: string -> string, d: Draft, m: Minting): Option<RoutingPacket> {
    if !IsRole(d.source) || !IsRole(d.destination) || d.intent == "" then None
    else
      var token: string := if d.knollToken.Some? then d.knollToken.value else m.token;
      if !WellFormedToken(token) then None
      else
        var header := Header(m.packetId, if d.timestamp.Some? then d.timestamp.value else m.now, d.source,
                             d.destination, if d.priority.Some? then d.priority.value else STANDARD, d.tenantId);
        var payload := Payload(d.intent, d.data);
        Some(RoutingPacket(header, payload, Security(token, PacketDigest(hash, header, payload))))
  }

  /**
   Minting fails only for an unknown role, an empty intent or a given token that is not well formed; what is minted has
   the draft's ends, intent, data and tenant, the given priority, timestamp and token or else STANDARD, the clock's and
   a new one, and the hash of just that content.
   */
  lemma {:induction false} MintedAsDrafted(hash: string -> string, d: Draft, m: Minting)
    ensures CreatePacket(hash, d, m).None? <==>
            || d.source !in {HOPE, DREAM, VISION, KNOLL, APEX} || d.destination !in {HOPE, DREAM, VISION, KNOLL, APEX}
            || d.intent == "" || (d.knollToken.Some? && !WellFormedToken(d.knollToken.value))
    ensures CreatePacket(hash, d, m).Some? ==>
              var p := CreatePacket(hash, d, m).value;
              && p.header.packetId == m.packetId && p.header.source == d.source
              && p.header.destination == d.destination && p.header.tenantId == d.tenantId
              && p.payload.intent == d.intent && p.payload.data == d.data
              && (if d.priority.None? then p.header.priority == STANDARD else d.priority == Some(p.header.priority))
              && (if d.timestamp.None? then p.header.timestamp == m.now else d.timestamp == Some(p.header.timestamp))
              && (if d.knollToken.None? then p.security.knollToken == m.token
                  else d.knollToken == Some(p.security.knollToken))
              && p.security.hash == PacketDigest(hash, p.header, p.payload)
  {
  }

  /** The clock readings of one dispatch. */
  datatype Timing = Timing(now: Readings, loggedAt: int, durationMs: real)

  /** `router.dispatch(packet)` with no cost and no token. */
  function Sent(p: RoutingPacket, t: Timing): Request {
    Request(Packet(p), None, None, t.now, t.loggedAt, t.durationMs)
  }

  /** `payload.data.suggestedDestination`, when it names DREAM or VISION. */
  function Suggested(p: RoutingPacket): Option<AgentRole> {
    var v := Field(p.payload.data, "suggestedDestination");
    if v == Some(Str("DREAM")) then Some(DREAM) else if v == Some(Str("VISION")) then Some(VISION) else None
  }

  /** What `forward` drafts: the same intent, data and priority, from APEX. The tenant is not carried over. */
  function ForwardDraft(p: RoutingPacket, destination: AgentRole): Draft {
    Draft(APEX, destination, p.payload.intent, p.payload.data, Some(p.header.priority), None, None, None)
  }

  /** What `forward` answers, and the error of minting; their text is a parameter. */
  datatype Words = Words(handledHere: string, cannotMint: string, forwarded: Reply -> string)

  /**
   APEX's own handler, as the script it plays for a packet; `peer` is what the suggested peer's handler does. Its answer
   reports the reply it got: `watched` tells that reply from any other.
   */
  function Forward(hash: string -> string, w: Words, p: RoutingPacket, m: Minting, t: Timing, peer: Script,
                   watched: Reply, other: Reply): Script {
    match Suggested(p)
    case None => Return(w.handledHere)
    case Some(destination) =>
      match CreatePacket(hash, ForwardDraft(p, destination), m)
      case None => Throw(w.cannotMint)
      case Some(q) => Send(Sent(q, t), peer, watched, Return(w.forwarded(watched)), Return(w.forwarded(other)))
  }

  /** The peers APEX may be asked to forward to, by name. */
  const PEERS: map<string, AgentRole> := map["DREAM" := DREAM, "VISION" := VISION]

  /**
   APEX sends nothing on unless the packet's data names DREAM or VISION under `suggestedDestination`; then it sends one
   packet of its own to that peer, with the same intent, data and priority, untimed, tokened anew and with no tenant.
   */
  lemma {:induction false} ForwardTells(hash: string -> string, w: Words, p: RoutingPacket, m: Minting, t: Timing,
                                        peer: Script, watched: Reply, other: Reply)
    ensures var script := Forward(hash, w, p, m, t, peer, watched, other);
            var named := if p.payload.data.Obj? then Get(p.payload.data.members, "suggestedDestination") else None;
            if named.Some? && named.value.Str? && named.value.s in PEERS && p.payload.intent != "" then
              && script.Send? && script.body == peer && script.request.inbound.Packet? && script.request.token.None?
              && var q := script.request.inbound.packet;
              && q.header == Header(m.packetId, m.now, APEX, PEERS[named.value.s], p.header.priority, None)
              && q.payload == p.payload && q.security == Security(m.token, PacketDigest(hash, q.header, q.payload))
            else if named.Some? && named.value.Str? && named.value.s in PEERS then script == Throw(w.cannotMint)
            else script == Return(w.handledHere)
  {
  }

  /** Packets the orchestrator mints pass every check on the envelope: only rate, laws and scores can refuse them. */
  lemma {:induction false} MintedPassEnvelope(c: KnollConfig, s: KnollState, d: Draft, m: Minting,
                                              tenant: Option<string>, t: Readings)
    requires CreatePacket(c.hash, d, m).Some?
    ensures var g := Gate(c, s, Packet(CreatePacket(c.hash, d, m).value), tenant, t);
            !g.verdict.isAllowed ==>
              |g.verdict.constraints| == 1
              && g.verdict.constraints[0] !in {STRUCTURE, HASH_INTEGRITY, BrokenLaw(TokenWellFormed)}
  {
    var p := CreatePacket(c.hash, d, m).value;
    assert PacketDigest(c.hash, p.header, p.payload) == p.security.hash;
    TokenIsNotFirst(c.malicious, p, tenant, 0);
    var source := p.header.source;
    var b := BucketOf(s.buckets, source);
    ScoreGateFootprint(c, s.(buckets := s.buckets[source := Advance(c.rateWindowMs, b, t.rate)]), p, t);
  }

  lemma {:induction false} TokenIsNotFirst(malicious: Malicious, p: RoutingPacket, tenant: Option<string>, i: nat)
    requires WellFormedToken(p.security.knollToken) && i <= |VIRTUAL_LAWS|
    ensures FirstBrokenFrom(malicious, p, tenant, i) != Some(TokenWellFormed)
    decreases |VIRTUAL_LAWS| - i
  {
    if i < |VIRTUAL_LAWS| {
      TokenIsNotFirst(malicious, p, tenant, i + 1);
    }
  }

  /**
   A packet let through a freeze by its own token is answered, but what APEX forwards for it is refused: forwarding
   carries no token, so the peer never hears of it, whatever its handler would do.
   */
  lemma {:induction false} ForwardOfTokenedIsRefused(c: RouterConfig, s: RouterState, w: Words, r: Request,
                                                     p: RoutingPacket,
                                                     m: Minting, ft: Timing, peer: Script, watched: Reply, other: Reply)
    requires s.knoll.freeze.Frozen? && r.inbound == Packet(p)
    ensures var body := Forward(c.knoll.hash, w, p, m, ft, peer, watched, other);
            && (forall call | call in PostOrder(Nested(c, s, r, body)) :: ShutOut(call))
            && Routed(c, s, r, body).state.knoll == Admit(c, s, r).knoll
  {
    var body := Forward(c.knoll.hash, w, p, m, ft, peer, watched, other);
    AdmissionKeepsFreeze(c, s, r);
    if Admit(c, s, r).status.SUCCESS? {
      QuietBringsNothing(c, Admitted(c, s, r), body);
    }
    TokenAdmitsOneOnly(c, s, r, body);
  }

  class ApexOrchestrator {
    const router: ApexRouter

    /** The orchestrator's own handler is registered at once. */
    constructor (router: ApexRouter)
      requires router.Valid()
      modifies router.Footprint()
      ensures this.router == router && router.Valid()
      ensures router.State() == old(router.State()).(handlers := old(router.handlers) + {APEX})
    {
      this.router := router;
      new;
      var _ := router.Play(Register(APEX, Return("")));
    }

    /** `wire`: register the peers that were injected. */
    method Wire(dream: bool, vision: bool, hope: bool)
      requires router.Valid()
      modifies router.Footprint()
      ensures router.Valid()
      ensures var peers :=
                (if dream then {DREAM} else {}) + (if vision then {VISION} else {}) + (if hope then {HOPE} else {});
              router.State() == old(router.State()).(handlers := old(router.handlers) + peers)
    {
      if dream {
        var _ := router.Play(Register(DREAM, Return("")));
      }
      if vision {
        var _ := router.Play(Register(VISION, Return("")));
      }
      if hope {
        var _ := router.Play(Register(HOPE, Return("")));
      }
    }

    /** The one transport: mint and dispatch. `None` when minting throws; then nothing is sent. */
    method SendViaApex(d: Draft, m: Minting, t: Timing, body: Script) returns (result: Option<DispatchResult>)
      requires router.Valid()
      modifies router.Footprint()
      ensures router.Valid()
      ensures var minted := CreatePacket(router.config.knoll.hash, d, m);
              if minted.None? then result.None? && router.State() == old(router.State())
              else result.Some? && Dispatched(router.State(), result.value)
                                == Routed(router.config, old(router.State()), Sent(minted.value, t), body)
    {
      var minted := CreatePacket(router.config.knoll.hash, d, m);
      if minted.None? {
        return None;
      }
      var dispatch := router.Dispatch(Sent(minted.value, t), body);
      result := Some(dispatch);
    }
  }
}
