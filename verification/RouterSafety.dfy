/** Consequences of the run order: what a freeze stops, what is billed, what the meter sees. */
module RouterSafety {
  import opened Text
  import opened Money
  import opened Schema
  import opened PacketHash
  import opened Laws
  import opened PayloadText
  import opened Freeze
  import opened KnollGate
  import opened KnollRuns
  import opened Ledger
  import opened Allowance
  import opened Metering
  import opened Router
  import opened RouterRuns

  // ---------- the freeze flag is its history ----------

  /** The freeze a call leaves behind when it finds the system running. */
  function RaisedBy(c: RouterConfig, call: Call): FreezeState { Step(c, call.before, CallItem(call)).freeze }

  /** First cause wins: a call cannot replace a standing freeze, and only an order can lift one. */
  function FreezeAfter(c: RouterConfig, f: FreezeState, items: seq<Happening>): FreezeState {
    if items == [] then f
    else
      var before := FreezeAfter(c, f, items[..|items| - 1]);
      match items[|items| - 1]
      case CallItem(call) => if before.Frozen? then before else RaisedBy(c, call)
      case OrderItem(FreezeOrder(reason, score, at)) => Tripped(before, reason, score, None, at)
      case OrderItem(LiftOrder(token)) => if AcceptsToken(c, token) then Running else before
      case OrderItem(ClearOrder) => Running
      case RegisterItem(_) => before
  }

  lemma {:induction false} GateFreeze(c: RouterConfig, call: Call)
    ensures call.before.freeze.Frozen? ==> RaisedBy(c, call) == call.before.freeze
  {
    GateAudits(c.knoll, call.before, call.request.inbound, None, call.request.now);
  }

  /** At every point of a run the freeze flag is what the run's history says it is. */
  lemma {:induction false} FreezeIsHistory(c: RouterConfig, k: KnollState, items: seq<Happening>)
    requires OneAtATime(c, k, items)
    ensures Steps(c, k, items).freeze == FreezeAfter(c, k.freeze, items)
  {
    if items != [] {
      var n := |items| - 1;
      OneAtATimePrefix(c, k, items, n);
      FreezeIsHistory(c, k, items[..n]);
      if items[n].CallItem? {
        GateFreeze(c, items[n].call);
      }
    }
  }

  /** An order that can end a freeze. */
  predicate Lifts(c: RouterConfig, i: Happening) {
    i.OrderItem? && (i.order.ClearOrder? || (i.order.LiftOrder? && AcceptsToken(c, i.order.token)))
  }

  /** A freeze stands, with its first cause, until an order lifts it. */
  lemma {:induction false} FreezeStands(c: RouterConfig, f: FreezeState, items: seq<Happening>, i: nat, j: nat)
    requires i <= j <= |items| && FreezeAfter(c, f, items[..i]).Frozen?
    requires forall n | i <= n < j :: !Lifts(c, items[n])
    ensures FreezeAfter(c, f, items[..j]) == FreezeAfter(c, f, items[..i])
    decreases j
  {
    if i < j {
      FreezeStands(c, f, items, i, j - 1);
      assert items[..j][..j - 1] == items[..j - 1];
      assert !Lifts(c, items[j - 1]);
    }
  }

  // ---------- freeze safety ----------

  /** Refused outright: blocked, free of charge, nothing delivered. */
  predicate ShutOut(call: Call) { call.reply.Refused? && call.cost == 0.0 && !call.delivered }

  /** A call that begins while the system is frozen, with no accepted token of its own. */
  predicate Shut(c: RouterConfig, f: FreezeState, items: seq<Happening>, i: nat)
    requires i < |items|
  {
    items[i].CallItem? && FreezeAfter(c, f, items[..i]).Frozen? && !AcceptsToken(c, items[i].call.request.token)
  }

  lemma {:induction false} ShutCallRefused(c: RouterConfig, k: KnollState, items: seq<Happening>, i: nat)
    requires OneAtATime(c, k, items) && i < |items| && Shut(c, k.freeze, items, i)
    ensures ShutOut(items[i].call) && Steps(c, k, items[..i + 1]) == Steps(c, k, items[..i])
  {
    OneAtATimePrefix(c, k, items, i);
    FreezeIsHistory(c, k, items[..i]);
    assert items[..i + 1][..i] == items[..i];
    var before := Steps(c, k, items[..i]);
    assert items[i].call.before == before && Lawful(c, items[i].call);
    assert !Reaches(c, before, items[i].call.request);
  }

  /**
   Freeze safety over whole runs. A call that begins while the system is frozen, by anything that happened
   earlier in the run at any depth, and that carries no accepted token, is refused at no cost, is not audited
   and leaves KNOLL exactly as it was.
   */
  lemma {:induction false} FreezeSafety(c: RouterConfig, s: RouterState, script: Script, i: nat)
    requires i < |PreOrder(Trace(c, s, script))| && Shut(c, s.knoll.freeze, PreOrder(Trace(c, s, script)), i)
    ensures var items := PreOrder(Trace(c, s, script));
            ShutOut(items[i].call) && Steps(c, s.knoll, items[..i + 1]) == Steps(c, s.knoll, items[..i])
  {
    KnollRunsInPreOrder(c, s, script);
    ShutCallRefused(c, s.knoll, PreOrder(Trace(c, s, script)), i);
  }

  /**
   Whatever is delivered was admitted before the freeze or brought its own accepted token: a token admits the
   packet it came with and nothing that packet's handler sends on.
   */
  lemma {:induction false} DeliveredMeansAdmitted(c: RouterConfig, s: RouterState, script: Script, i: nat)
    requires i < |PreOrder(Trace(c, s, script))|
    ensures var items := PreOrder(Trace(c, s, script));
            items[i].CallItem? && items[i].call.delivered ==>
              FreezeAfter(c, s.knoll.freeze, items[..i]).Running? || AcceptsToken(c, items[i].call.request.token)
  {
    if Shut(c, s.knoll.freeze, PreOrder(Trace(c, s, script)), i) {
      FreezeSafety(c, s, script, i);
    }
  }

  predicate BringsNothing(c: RouterConfig, i: Happening) {
    !Lifts(c, i) && (i.CallItem? ==> !AcceptsToken(c, i.call.request.token))
  }

  /** No call of the run carries an accepted token, and no order lifts a freeze. */
  ghost predicate NoOverride(c: RouterConfig, items: seq<Happening>) {
    forall i | 0 <= i < |items| :: BringsNothing(c, items[i])
  }

  lemma {:induction false} FrozenSteps(c: RouterConfig, k: KnollState, items: seq<Happening>)
    requires OneAtATime(c, k, items) && k.freeze.Frozen? && NoOverride(c, items)
    ensures Steps(c, k, items) == k
  {
    if items != [] {
      var n := |items| - 1;
      OneAtATimePrefix(c, k, items, n);
      FrozenSteps(c, k, items[..n]);
      assert BringsNothing(c, items[n]);
    }
  }

  /**
   A run that starts frozen and brings no override is inert: KNOLL ends exactly as it began, every call of the
   run was refused, and the ledger's total is unchanged.
   */
  lemma {:induction false} FrozenRunIsInert(c: RouterConfig, s: RouterState, script: Script)
    requires s.knoll.freeze.Frozen? && NoOverride(c, PreOrder(Trace(c, s, script)))
    ensures Performed(c, s, script).state.knoll == s.knoll
    ensures forall call | call in PostOrder(Trace(c, s, script)) :: ShutOut(call)
    ensures Cost(Performed(c, s, script).state.rows, None) == Cost(s.rows, None)
  {
    var f := Trace(c, s, script);
    var items := PreOrder(f);
    KnollRunsInPreOrder(c, s, script);
    FrozenSteps(c, s.knoll, items);
    forall call | call in PostOrder(f) ensures ShutOut(call) {
      SameCalls(f, call);
      var i :| 0 <= i < |items| && items[i] == CallItem(call);
      OneAtATimePrefix(c, s.knoll, items, i);
      FrozenSteps(c, s.knoll, items[..i]);
    }
    LedgerIsPostOrder(c, s, script);
    FreeFilings(s.rows, PostOrder(f));
  }

  lemma {:induction false} FreeFilings(rows: seq<LedgerRow>, calls: seq<Call>)
    requires forall call | call in calls :: call.cost == 0.0
    ensures Cost(Filed(rows, calls), None) == Cost(rows, None)
  {
    if calls != [] {
      var front, last := calls[..|calls| - 1], calls[|calls| - 1];
      FreeFilings(rows, front);
      assert last in calls;
      CostAppend(Filed(rows, front), RowFor(Filed(rows, front), LogOfCall(last)), None);
    }
  }

  /**
   A script whose own sends carry no accepted token and whose orders lift no freeze, whatever replies it gets. What the
   handlers it reaches would do is left open: while the system is frozen it reaches none.
   */
  predicate Quiet(c: RouterConfig, script: Script) {
    match script
    case Return(_) => true
    case Throw(_) => true
    case Send(r, _, _, ifSo, ifNot) => !AcceptsToken(c, r.token) && Quiet(c, ifSo) && Quiet(c, ifNot)
    case Govern(order, rest) => !Lifts(c, OrderItem(order)) && Quiet(c, rest)
    case Register(_, rest) => Quiet(c, rest)
  }

  /** While frozen, a send with no accepted token reaches no handler and leaves KNOLL as it was. */
  lemma {:induction false} FrozenSend(c: RouterConfig, s: RouterState, r: Request, body: Script)
    requires s.knoll.freeze.Frozen? && !AcceptsToken(c, r.token)
    ensures Nested(c, s, r, body) == NoCalls && Routed(c, s, r, body).state.knoll == s.knoll
  {
    AdmissionIsGate(c, s, r);
  }

  /** A quiet script that runs while the system is frozen brings no override at any depth. */
  lemma {:induction false} QuietBringsNothing(c: RouterConfig, s: RouterState, script: Script)
    requires s.knoll.freeze.Frozen? && Quiet(c, script)
    ensures NoOverride(c, PreOrder(Trace(c, s, script)))
    decreases script
  {
    match script
    case Return(_) =>
    case Throw(_) =>
    case Send(r, body, _, _, _) =>
      var d := Routed(c, s, r, body);
      FrozenSend(c, s, r, body);
      QuietBringsNothing(c, d.state, Then(script, d.result.reply));
      QuietJoins(c, CallItem(CallOf(c, s, r, body)), PreOrder(Trace(c, d.state, Then(script, d.result.reply))));
    case Govern(order, rest) =>
      QuietBringsNothing(c, Ordering(c, s, order), rest);
      QuietJoins(c, OrderItem(order), PreOrder(Trace(c, Ordering(c, s, order), rest)));
    case Register(role, rest) =>
      var t := s.(handlers := s.handlers + {role});
      QuietBringsNothing(c, t, rest);
      QuietJoins(c, RegisterItem(role), PreOrder(Trace(c, t, rest)));
  }

  lemma {:induction false} QuietJoins(c: RouterConfig, first: Happening, items: seq<Happening>)
    requires BringsNothing(c, first) && NoOverride(c, items)
    ensures NoOverride(c, [first] + items) && NoOverride(c, [first] + [] + items)
  {
    assert [first] + [] + items == [first] + items;
    forall i | 0 <= i < |[first] + items| ensures BringsNothing(c, ([first] + items)[i]) {
      if i > 0 {
        assert ([first] + items)[i] == items[i - 1];
      }
    }
  }

  lemma {:induction false} AdmissionKeepsFreeze(c: RouterConfig, s: RouterState, r: Request)
    requires s.knoll.freeze.Frozen?
    ensures Admit(c, s, r).knoll.freeze == s.knoll.freeze
  {
    AdmissionIsGate(c, s, r);
    GateAudits(c.knoll, s.knoll, r.inbound, None, r.now);
  }

  /**
   An accepted token admits one packet only. Unless the handler that gets it brings an override of its own, whatever
   it sends on, to any depth, is refused, and the freeze keeps its cause.
   */
  lemma {:induction false} TokenAdmitsOneOnly(c: RouterConfig, s: RouterState, r: Request, body: Script)
    requires s.knoll.freeze.Frozen? && NoOverride(c, PreOrder(Nested(c, s, r, body)))
    ensures forall call | call in PostOrder(Nested(c, s, r, body)) :: ShutOut(call)
    ensures Routed(c, s, r, body).state.knoll == Admit(c, s, r).knoll
    ensures Routed(c, s, r, body).state.knoll.freeze == s.knoll.freeze
  {
    AdmissionKeepsFreeze(c, s, r);
    if Admit(c, s, r).status.SUCCESS? {
      FrozenRunIsInert(c, Admitted(c, s, r), body);
    }
  }

  // ---------- billing ----------

  /** The two orders list the same calls. */
  lemma {:induction false} SameCalls(f: Forest, call: Call)
    ensures call in PostOrder(f) <==> CallItem(call) in PreOrder(f)
  {
    match f
    case NoCalls =>
    case Node(_, nested, next) =>
      SameCalls(nested, call);
      SameCalls(next, call);
    case Ordered(_, next) => SameCalls(next, call);
    case Registered(_, next) => SameCalls(next, call);
  }

  predicate BilledIfSuccess(call: Call) { !call.reply.Answered? ==> call.cost == 0.0 }

  lemma {:induction false} EveryCallLawful(c: RouterConfig, s: RouterState, script: Script, call: Call)
    requires call in PostOrder(Trace(c, s, script))
    ensures Lawful(c, call)
  {
    KnollRunsInPreOrder(c, s, script);
    SameCalls(Trace(c, s, script), call);
  }

  /**
   Over every run, at any depth: a packet that reaches a handler is untampered, well tokened, on an open route and
   asks only for its destination's duty, so DREAM and VISION are never given anything that APEX did not send.
   */
  lemma {:induction false} DeliveredIsLawful(c: RouterConfig, s: RouterState, script: Script, call: Call)
    requires call in PostOrder(Trace(c, s, script)) && call.delivered
    ensures call.request.inbound.Packet?
    ensures var p := call.request.inbound.packet;
            && PacketDigest(c.knoll.hash, p.header, p.payload) == p.security.hash
            && WellFormedToken(p.security.knollToken) && DutyRespected(p)
            && (p.header.source, p.header.destination) in OPEN_ROUTES
            && (p.header.destination.DREAM? || p.header.destination.VISION? ==> p.header.source.APEX?)
  {
    EveryCallLawful(c, s, script, call);
    AllowedMeans(c.knoll, call.before, call.request.inbound, None, call.request.now);
    var p := call.request.inbound.packet;
    if p.header.destination.DREAM? || p.header.destination.VISION? {
      PeersHearOnlyApex(p.header.source, p.header.destination);
    }
  }

  /** Over every run, at any depth, nothing that reaches a handler says anything malicious. */
  lemma {:induction false} DeliveredSaysNoMalice(c: RouterConfig, s: RouterState, script: Script, call: Call)
    requires Embeds(c.knoll.malicious) && call in PostOrder(Trace(c, s, script)) && call.delivered
    ensures call.request.inbound.Packet? && !SaysMalice(c.knoll.malicious, call.request.inbound.packet)
  {
    EveryCallLawful(c, s, script, call);
    AllowedSaysNoMalice(c.knoll, call.before, call.request.inbound, None, call.request.now);
  }

  lemma {:induction false} PeersHearOnlyApex(a: AgentRole, b: AgentRole)
    requires (a, b) in OPEN_ROUTES && (b.DREAM? || b.VISION?)
    ensures a.APEX?
  {
    if IsTriad(a) {
      TriadTrafficFlowsUp(a, b);
    }
  }

  lemma {:induction false} FiledBilled(rows: seq<LedgerRow>, calls: seq<Call>)
    requires OnlySuccessBilled(rows) && forall call | call in calls :: BilledIfSuccess(call)
    ensures OnlySuccessBilled(Filed(rows, calls)) && |Filed(rows, calls)| == |rows| + |calls|
  {
    if calls != [] {
      FiledBilled(rows, calls[..|calls| - 1]);
      assert calls[|calls| - 1] in calls;
    }
  }

  /** Over every run only successful deliveries are billed, so the ledger's total is its SUCCESS total. */
  lemma {:induction false} OnlySuccessCosts(c: RouterConfig, s: RouterState, script: Script)
    requires OnlySuccessBilled(s.rows)
    ensures var t := Performed(c, s, script).state;
            OnlySuccessBilled(t.rows) && Cost(t.rows, None) == Cost(t.rows, Some(SUCCESS))
            && |t.rows| == |s.rows| + |PostOrder(Trace(c, s, script))|
  {
    var calls := PostOrder(Trace(c, s, script));
    forall call | call in calls ensures BilledIfSuccess(call) {
      EveryCallLawful(c, s, script, call);
    }
    LedgerIsPostOrder(c, s, script);
    FiledBilled(s.rows, calls);
    TotalIsSuccessCost(Performed(c, s, script).state.rows);
  }

  // ---------- the meter and the ledger tell the same story ----------

  function SuccessRows(rows: seq<LedgerRow>): nat {
    if rows == [] then 0
    else SuccessRows(rows[..|rows| - 1]) + (if rows[|rows| - 1].status.SUCCESS? then 1 else 0)
  }

  /** What a list of calls adds to a ledger, next to the reports of the same calls. */
  lemma {:induction false} FiledMatchesReports(mc: MeterConfig, rows: seq<LedgerRow>, calls: seq<Call>)
    requires forall call | call in calls :: BilledIfSuccess(call)
    ensures var filed, reports := Filed(rows, calls), ReportsOf(calls);
            && |filed| == |rows| + |calls| && |reports| == |calls|
            && SuccessRows(filed) == SuccessRows(rows) + CountStatus(reports, SUCCESS)
            && Cost(filed, None) == Cost(rows, None) + LedgerCost(mc, reports)
  {
    if calls != [] {
      var front, last := calls[..|calls| - 1], calls[|calls| - 1];
      FiledMatchesReports(mc, rows, front);
      var filed, reports := Filed(rows, front), ReportsOf(front);
      var row := RowFor(filed, LogOfCall(last));
      assert last in calls;
      RoundWhole(0);
      CostAppend(filed, row, None);
      assert (filed + [row])[..|filed|] == filed;
      assert (reports + [ReportOfCall(last)])[..|reports|] == reports;
    }
  }

  /** The reports a run adds to those its observer had already seen. */
  function NewReports(s: RouterState, t: RouterState): seq<Report> {
    if s.reports.Some? && t.reports.Some? && |s.reports.value| <= |t.reports.value|
    then t.reports.value[|s.reports.value|..] else []
  }

  lemma {:induction false} ReportsAdded(s: RouterState, calls: seq<Call>, t: RouterState)
    requires Filings(s, calls, t) && s.reports.Some?
    ensures NewReports(s, t) == ReportsOf(calls) && t.reports == Some(s.reports.value + NewReports(s, t))
  {
  }

  /**
   End to end, over every run with the meter as observer, wherever router, ledger and meter start from: metered plus
   skipped grow by the number of new rows, and with the default filter metered by the number of new SUCCESS rows; the
   tenant's spend grows by what the meter attributes. On a tier the platform bills, the ledger's total grows by the
   accepted and rejected cost of what was billed at its own cost, plus the ledger cost of what was billed by footprint,
   exactly when nothing billed at its own cost has a negative one.
   */
  lemma {:induction false} MeterMatchesLedger(c: RouterConfig, s: RouterState, script: Script, mc: MeterConfig,
                                              m: MeterState)
    requires s.reports.Some?
    ensures var t := Performed(c, s, script).state; var reports := NewReports(s, t); var n := MeterRun(mc, m, reports);
            && t.reports == Some(s.reports.value + reports)
            && (n.metered + n.skipped) - (m.metered + m.skipped) == |t.rows| - |s.rows|
            && (mc.onlySuccess ==> n.metered - m.metered == SuccessRows(t.rows) - SuccessRows(s.rows))
            && Spend(mc, n) - Spend(mc, m) == n.attributed - m.attributed
            && (PlatformBilled(mc, m) ==>
                  (Cost(t.rows, None) - Cost(s.rows, None) == OwnCost(mc, m, reports) + FootprintCost(mc, reports)
                   <==> NoNegativeOwnCost(mc, reports)))
            && (AllAtOwnCost(mc, reports) ==>
                  FootprintCost(mc, reports) == 0
                  && OwnCost(mc, m, reports) == (n.attributed - m.attributed) + RejectedCost(BilledRun(mc, m, reports)))
  {
    var t := Performed(c, s, script).state;
    var calls := PostOrder(Trace(c, s, script));
    forall call | call in calls ensures BilledIfSuccess(call) {
      EveryCallLawful(c, s, script, call);
    }
    LedgerIsPostOrder(c, s, script);
    ReportsAdded(s, calls, t);
    FiledMatchesReports(mc, s.rows, calls);
    MeterConserves(mc, m, ReportsOf(calls));
    if PlatformBilled(mc, m) {
      FallbackConserves(mc, m, ReportsOf(calls));
    }
    if AllAtOwnCost(mc, ReportsOf(calls)) {
      AllFallback(mc, m, ReportsOf(calls));
    }
  }

  // ---------- a shadow scorer is invisible to routing ----------

  /** The same rows up to the signature, which names the constraints that were evaluated. */
  ghost predicate SameBilling(a: seq<LedgerRow>, b: seq<LedgerRow>) {
    |a| == |b| && forall i | 0 <= i < |a| :: a[i].(signature := NoToken) == b[i].(signature := NoToken)
  }

  /** Two routers that differ only by a learned scorer in shadow mode in the first. */
  ghost predicate Twins(s: RouterState, t: RouterState) {
    Shadowing(s.knoll, t.knoll) && InShadow(s.knoll) && s.handlers == t.handlers && SameBilling(s.rows, t.rows)
  }

  lemma {:induction false} TwinsAdmit(c: RouterConfig, s: RouterState, t: RouterState, r: Request)
    requires Twins(s, t)
    ensures Admit(c, s, r).status == Admit(c, t, r).status && Twins(Admitted(c, s, r), Admitted(c, t, r))
  {
    LearnedStep(c.knoll, s.knoll, t.knoll, r.inbound, None, r.now);
  }

  lemma {:induction false} TwinsSettle(c: RouterConfig, s: RouterState, t: RouterState, r: Request, status: Status,
                                       cost: real, v: Verdict, w: Verdict)
    requires Twins(s, t)
    ensures Twins(Settled(c, s, r, status, cost, v), Settled(c, t, r, status, cost, w))
  {
  }

  /**
   A learned scorer in shadow mode is invisible to routing: over every run, nested to any depth, with handlers that may
   react to the status, response and error of every reply, the same sends are made and get the same replies at the same
   cost, and the ledgers agree row by row up to the signature.
   */
  lemma {:induction false} ShadowIsInvisible(c: RouterConfig, s: RouterState, t: RouterState, script: Script)
    requires Twins(s, t)
    ensures var p, q := Performed(c, s, script), Performed(c, t, script);
            Twins(p.state, q.state) && p.ending == q.ending
    decreases script, 0
  {
    match script
    case Return(_) =>
    case Throw(_) =>
    case Send(r, body, _, _, _) =>
      var d, e := Routed(c, s, r, body), Routed(c, t, r, body);
      ShadowDispatch(c, s, t, r, body);
      ShadowIsInvisible(c, d.state, e.state, Then(script, d.result.reply));
    case Govern(order, rest) => ShadowIsInvisible(c, Ordering(c, s, order), Ordering(c, t, order), rest);
    case Register(role, rest) =>
      ShadowIsInvisible(c, s.(handlers := s.handlers + {role}), t.(handlers := t.handlers + {role}), rest);
  }

  lemma {:induction false} ShadowDispatch(c: RouterConfig, s: RouterState, t: RouterState, r: Request, body: Script)
    requires Twins(s, t)
    ensures var d, e := Routed(c, s, r, body), Routed(c, t, r, body);
            Twins(d.state, e.state) && d.result.reply == e.result.reply && d.result.cost == e.result.cost
    decreases body, 1
  {
    var a, b := Admit(c, s, r), Admit(c, t, r);
    var s1, t1 := Admitted(c, s, r), Admitted(c, t, r);
    TwinsAdmit(c, s, t, r);
    if a.status.SUCCESS? {
      ShadowIsInvisible(c, s1, t1, body);
      var h, k := Performed(c, s1, body), Performed(c, t1, body);
      TwinsSettle(c, h.state, k.state, r, StatusOf(h.ending), if h.ending.Answered? then CostOf(c, r) else 0.0,
                  a.verdict, b.verdict);
    } else {
      TwinsSettle(c, s1, t1, r, StatusOf(TurnedAway(c, r, a.status)), 0.0, a.verdict, b.verdict);
    }
  }
}
