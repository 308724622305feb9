/**
 APEX, the router: gated, re-entrant delivery. A handler may dispatch again while a dispatch is on the
 stack, to any depth, so a run is a finite script of sends, each carrying the script its destination's
 handler plays if the packet is delivered. A send goes on in one of two ways, as the reply is one watched
 for or any other, so any terminating run of any handlers is a run of some script, and so are any two runs
 of the same handlers in two routers: where their replies first differ, one of them is the one watched for.
 Handlers are taken to read a reply's status, response and error, not the verdict's wording or constraints.
 */
module Router {
  import opened Text
  import opened Schema
  import opened Freeze
  import opened KnollGate
  import opened Ledger
  import opened Metering

  /** One call of `dispatch`: its arguments, and the clock readings taken during it. */
  datatype Request = Request(inbound: Inbound, cost: Option<real>, token: Option<string>, now: Readings,
                               loggedAt: int, durationMs: real)

  /** What `dispatch` answers its caller: a response, a refusal, or the error of a failed delivery. */
  datatype Reply = Answered(response: string) | Refused | Erred(error: string)

  function StatusOf(reply: Reply): Status {
    match reply
    case Answered(_) => SUCCESS
    case Refused => BLOCKED
    case Erred(_) => FAILED
  }

  datatype Script =
    | Return(response: string)
    | Throw(error: string)
    | Send(request: Request, body: Script, watched: Reply, ifSo: Script, ifNot: Script)
    | Govern(order: Order, rest: Script)
    | Register(role: AgentRole, rest: Script)

  /** How a script goes on after a send. */
  function Then(script: Script, reply: Reply): Script
    requires script.Send?
  {
    if reply == script.watched then script.ifSo else script.ifNot
  }

  /** What APEX words itself. */
  datatype Notice = NotARoutingPacket | SystemFrozen(cause: string) | NoHandler(destination: AgentRole)

  datatype RouterConfig = RouterConfig(knoll: KnollConfig, defaultCost: real, wording: Notice -> string)

  datatype RouterState = RouterState(knoll: KnollState, rows: seq<LedgerRow>, handlers: set<AgentRole>,
                                     reports: Option<seq<Report>>)

  datatype DispatchResult = DispatchResult(reply: Reply, packetId: string, knoll: Verdict, cost: real)

  predicate AcceptsToken(c: RouterConfig, token: Option<string>) { token.Some? && c.knoll.accepts(token.value) }

  /** Whether a call gets as far as KNOLL: a packet, and no freeze it cannot pass. */
  predicate Reaches(c: RouterConfig, k: KnollState, r: Request) {
    r.inbound.Packet? && (k.freeze.Running? || AcceptsToken(c, r.token))
  }

  /** What is decided before any handler runs. */
  datatype Admission = Admission(knoll: KnollState, verdict: Verdict, status: Status)

  /** SUCCESS here means "deliver". */
  function Admit(c: RouterConfig, s: RouterState, r: Request): Admission {
    match r.inbound
    case Malformed(_) => Admission(s.knoll, Verdict(false, c.wording(NotARoutingPacket), [STRUCTURE]), BLOCKED)
    case Packet(p) =>
      if s.knoll.freeze.Frozen? && !AcceptsToken(c, r.token) then
        Admission(s.knoll, Verdict(false, c.wording(SystemFrozen(s.knoll.freeze.reason)), [SYSTEM_FREEZE]), BLOCKED)
      else
        var g := Gate(c.knoll, s.knoll, r.inbound, None, r.now);
        Admission(g.state, g.verdict,
                  if !g.verdict.isAllowed then BLOCKED else if p.header.destination in s.handlers then SUCCESS
                      else FAILED)
  }

  function CostOf(c: RouterConfig, r: Request): real { if r.cost.Some? then r.cost.value else c.defaultCost }

  function PacketIdOf(x: Inbound): string { if x.Packet? then x.packet.header.packetId else "unknown-packet" }

  function SourceOf(x: Inbound): AgentRole { if x.Packet? then x.packet.header.source else APEX }

  function DestinationOf(x: Inbound): AgentRole { if x.Packet? then x.packet.header.destination else APEX }

  /** The first fourteen characters of the token, the verdict and its constraints. */
  function SignatureOf(x: Inbound, v: Verdict): Signature {
    if x.Packet? then
      var token := x.packet.security.knollToken;
      Signed(if |token| <= 14 then token else token[..14], v.isAllowed, v.constraints)
    else NoToken
  }

  function LogOf(r: Request, status: Status, cost: real, v: Verdict): LogRequest {
    LogRequest(PacketIdOf(r.inbound), r.loggedAt, SourceOf(r.inbound), DestinationOf(r.inbound), status, cost,
               SignatureOf(r.inbound, v))
  }

  function EventOf(r: Request, status: Status, cost: real, v: Verdict): DispatchEvent {
    DispatchEvent(PacketIdOf(r.inbound), SourceOf(r.inbound), DestinationOf(r.inbound), status, r.durationMs, cost, v)
  }

  /** The end of every dispatch: one ledger row, then one observation. */
  function Settled(c: RouterConfig, s: RouterState, r: Request, status: Status, cost: real, v: Verdict): RouterState {
    s.(rows := s.rows + [RowFor(s.rows, LogOf(r, status, cost, v))],
       reports := if s.reports.None? then None
           else Some(s.reports.value + [Report(EventOf(r, status, cost, v), r.loggedAt)]))
  }

  datatype Dispatched = Dispatched(state: RouterState, result: DispatchResult)
  /** How a handler ended: it answered, or threw. */
  datatype Played = Played(state: RouterState, ending: Reply)

  /** `dispatch`: `body` is what the destination's handler does with this packet, if it gets it. */
  function Routed(c: RouterConfig, s: RouterState, r: Request, body: Script): Dispatched
    decreases body, 1
  {
    var a := Admit(c, s, r);
    var s1 := s.(knoll := a.knoll);
    var h := if a.status.SUCCESS? then Performed(c, s1, body) else Played(s1, TurnedAway(c, r, a.status));
    var cost := if h.ending.Answered? then CostOf(c, r) else 0.0;
    Dispatched(Settled(c, h.state, r, StatusOf(h.ending), cost, a.verdict),
               DispatchResult(h.ending, PacketIdOf(r.inbound), a.verdict, cost))
  }

  /** The reply when nothing is delivered. */
  function TurnedAway(c: RouterConfig, r: Request, status: Status): Reply {
    if status.BLOCKED? then Refused else Erred(c.wording(NoHandler(DestinationOf(r.inbound))))
  }

  /** A handler's activity, or a caller's: sends in order, and freeze overrides in between. */
  function Performed(c: RouterConfig, s: RouterState, script: Script): (played: Played)
    ensures !played.ending.Refused?
    decreases script, 0
  {
    match script
    case Return(response) => Played(s, Answered(response))
    case Throw(error) => Played(s, Erred(error))
    case Send(r, body, _, _, _) =>
      var d := Routed(c, s, r, body);
      Performed(c, d.state, Then(script, d.result.reply))
    case Govern(order, rest) => Performed(c, Ordering(c, s, order), rest)
    case Register(role, rest) => Performed(c, s.(handlers := s.handlers + {role}), rest)
  }

  /** What may change the freeze flag from outside a gate. */
  datatype Order = FreezeOrder(reason: string, score: real, at: int) | LiftOrder(token: Option<string>) | ClearOrder

  function Overridden(c: RouterConfig, k: KnollState, o: Order): KnollState {
    match o
    case FreezeOrder(reason, score, at) => k.(freeze := Tripped(k.freeze, reason, score, None, at))
    case LiftOrder(token) => if AcceptsToken(c, token) then k.(freeze := Running) else k
    case ClearOrder => k.(freeze := Running)
  }

  function Ordering(c: RouterConfig, s: RouterState, o: Order): RouterState {
    s.(knoll := Overridden(c, s.knoll, o))
  }

  // ---------- the mutable router ----------

  /**
   The sink a router reports to. It cannot alter routing, so all that matters of it is the sequence of
   events it has been given; a meter bound as observer is `MeterRun` over that sequence.
   */
  class DispatchObserver {
    var seen: seq<Report>

    constructor ()
      ensures seen == []
    {
      seen := [];
    }

    method Notify(e: DispatchEvent, at: int)
      modifies this
      ensures seen == old(seen) + [Report(e, at)]
    {
      seen := seen + [Report(e, at)];
    }
  }

  class ApexRouter {
    const config: RouterConfig
    const knoll: Knoll
    const ledger: InMemoryLedger
    const observer: DispatchObserver?
    var handlers: set<AgentRole>

    ghost function Footprint(): set<object?> {
      {this, knoll, knoll.audit, knoll.scorer, knoll.learnedScorer, knoll.freeze, ledger, observer}
    }

    ghost predicate Valid()
      reads Footprint()
    {
      knoll.Valid() && ledger.Valid() && knoll.config == config.knoll
    }

    ghost function State(): RouterState
      requires Valid()
      reads Footprint()
    {
      RouterState(knoll.State(), ledger.rows, handlers, if observer == null then None else Some(observer.seen))
    }

    /** KNOLL always stands in front: there is no router without one. */
    constructor (config: RouterConfig, knoll: Knoll, observer: DispatchObserver?)
      requires knoll.Valid() && knoll.config == config.knoll
      ensures Valid() && this.config == config && this.knoll == knoll && this.observer == observer && fresh(ledger)
      ensures State() == RouterState(knoll.State(), [], {}, if observer == null then None else Some(observer.seen))
    {
      this.config, this.knoll, this.observer := config, knoll, observer;
      ledger := new InMemoryLedger();
      handlers := {};
    }

    method Settle(r: Request, reply: Reply, cost: real, v: Verdict) returns (result: DispatchResult)
      requires Valid()
      modifies Footprint()
      ensures Valid()
      ensures State() == Settled(config, old(State()), r, StatusOf(reply), cost, v)
      ensures result == DispatchResult(reply, PacketIdOf(r.inbound), v, cost)
    {
      var status := StatusOf(reply);
      var _ := ledger.LogRequest(LogOf(r, status, cost, v));
      if observer != null {
        observer.Notify(EventOf(r, status, cost, v), r.loggedAt);
      }
      result := DispatchResult(reply, PacketIdOf(r.inbound), v, cost);
    }

    /** The mandatory gate; nothing but KNOLL changes. */
    method Consult(x: Inbound, now: Readings) returns (verdict: Verdict)
      requires Valid()
      modifies knoll, knoll.audit, knoll.scorer, knoll.learnedScorer, knoll.freeze
      ensures Valid()
      ensures var g := Gate(config.knoll, old(State()).knoll, x, None, now);
              verdict == g.verdict && State() == old(State()).(knoll := g.state)
    {
      verdict := knoll.Intercept(x, None, now);
    }

    /** Everything before delivery: structure, freeze, KNOLL, and whether a handler is registered. */
    method Admission(r: Request) returns (verdict: Verdict, status: Status)
      requires Valid()
      modifies knoll, knoll.audit, knoll.scorer, knoll.learnedScorer, knoll.freeze
      ensures Valid()
      ensures var a := Admit(config, old(State()), r);
              verdict == a.verdict && status == a.status && State() == old(State()).(knoll := a.knoll)
    {
      if r.inbound.Malformed? {
        return Verdict(false, config.wording(NotARoutingPacket), [STRUCTURE]), BLOCKED;
      }
      if knoll.freeze.frozen && !(r.token.Some? && knoll.freeze.accepts(r.token.value)) {
        return Verdict(false, config.wording(SystemFrozen(knoll.freeze.reason.value)), [SYSTEM_FREEZE]), BLOCKED;
      }
      verdict := Consult(r.inbound, r.now);
      if !verdict.isAllowed {
        status := BLOCKED;
      } else if r.inbound.packet.header.destination !in handlers {
        status := FAILED;
      } else {
        status := SUCCESS;
      }
    }

    /** One gated dispatch: admission, delivery, then always a ledger row and an observation. */
    method Dispatch(r: Request, body: Script) returns (result: DispatchResult)
      requires Valid()
      modifies Footprint()
      ensures Valid()
      ensures Dispatched(State(), result) == Routed(config, old(State()), r, body)
      decreases body, 1
    {
      var verdict, status := Admission(r);
      if !status.SUCCESS? {
        result := Settle(r, TurnedAway(config, r, status), 0.0, verdict);
        return;
      }
      var cost := if r.cost.Some? then r.cost.value else config.defaultCost;
      var ending := Play(body);
      result := Settle(r, ending, if ending.Answered? then cost else 0.0, verdict);
    }

    method Override(o: Order)
      requires Valid()
      modifies knoll.freeze
      ensures Valid() && State() == Ordering(config, old(State()), o)
    {
      match o
      case FreezeOrder(reason, score, at) => knoll.freeze.TriggerFreeze(reason, score, None, at);
      case LiftOrder(token) => var _ := knoll.freeze.Unfreeze(token);
      case ClearOrder => knoll.freeze.ClearFreeze();
    }

    /** Run a handler to its answer or its error. */
    method Play(script: Script) returns (ending: Reply)
      requires Valid()
      modifies Footprint()
      ensures Valid()
      ensures Played(State(), ending) == Performed(config, old(State()), script)
      decreases script, 0
    {
      match script
      case Return(response) => ending := Answered(response);
      case Throw(error) => ending := Erred(error);
      case Send(r, body, _, _, _) =>
        var result := Dispatch(r, body);
        ending := Play(Then(script, result.reply));
      case Govern(order, rest) =>
        Override(order);
        ending := Play(rest);
      case Register(role, rest) =>
        handlers := handlers + {role};
        ending := Play(rest);
    }
  }
}
