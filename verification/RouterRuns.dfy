/** What whole runs of the router keep: order of ledger and audit, freeze safety, money. */
module RouterRuns {
  import opened Text
  import opened Schema
  import opened KnollGate
  import opened KnollRuns
  import opened Ledger
  import opened Metering
  import opened Router

  /** One dispatch as it happened: what KNOLL was when it began, and how it ended. */
  datatype Call = Call(request: Request, before: KnollState, delivered: bool, reply: Reply, cost: real,
                       verdict: Verdict)

  /** The dispatches of a run as a call tree, with the freeze overrides and the registrations between them. */
  datatype Forest =
    | NoCalls
    | Node(call: Call, nested: Forest, next: Forest)
    | Ordered(order: Order, next: Forest)
    | Registered(role: AgentRole, next: Forest)

  function CallOf(c: RouterConfig, s: RouterState, r: Request, body: Script): Call {
    var d := Routed(c, s, r, body).result;
    Call(r, s.knoll, Admit(c, s, r).status.SUCCESS?, d.reply, d.cost, d.knoll)
  }

  /** The router once a call is admitted: where its handler starts. */
  function Admitted(c: RouterConfig, s: RouterState, r: Request): RouterState {
    s.(knoll := Admit(c, s, r).knoll)
  }

  function Trace(c: RouterConfig, s: RouterState, script: Script): Forest
    decreases script, 0
  {
    match script
    case Return(_) => NoCalls
    case Throw(_) => NoCalls
    case Send(r, body, _, _, _) =>
      var d := Routed(c, s, r, body);
      Node(CallOf(c, s, r, body), Nested(c, s, r, body), Trace(c, d.state, Then(script, d.result.reply)))
    case Govern(order, rest) => Ordered(order, Trace(c, Ordering(c, s, order), rest))
    case Register(role, rest) => Registered(role, Trace(c, s.(handlers := s.handlers + {role}), rest))
  }

  /** What a call's handler did, if it ran. */
  function Nested(c: RouterConfig, s: RouterState, r: Request, body: Script): Forest
    decreases body, 1
  {
    if Admit(c, s, r).status.SUCCESS? then Trace(c, Admitted(c, s, r), body) else NoCalls
  }

  /**
   The forest has one node per send that was made, under it those its handler made, if it ran, and after it those that
   follow the reply it got.
   */
  predicate IsCallTree(script: Script, f: Forest)
    decreases script, 0
  {
    match script
    case Return(_) => f.NoCalls?
    case Throw(_) => f.NoCalls?
    case Send(r, body, _, _, _) =>
      f.Node? && IsCall(r, body, f.call, f.nested) && IsCallTree(Then(script, f.call.reply), f.next)
    case Govern(order, rest) => f.Ordered? && f.order == order && IsCallTree(rest, f.next)
    case Register(role, rest) => f.Registered? && f.role == role && IsCallTree(rest, f.next)
  }

  /** A delivered call gets what its handler ends with; any other is refused or fails, and nothing is nested in it. */
  predicate IsCall(r: Request, body: Script, call: Call, nested: Forest)
    decreases body, 1
  {
    && call.request == r
    && (if call.delivered then IsCallTree(body, nested) && call.reply == Ending(body, nested)
        else nested.NoCalls? && !call.reply.Answered?)
  }

  /** How a script ends after the calls of its call tree. */
  function Ending(script: Script, f: Forest): Reply {
    match script
    case Return(response) => Answered(response)
    case Throw(error) => Erred(error)
    case Send(_, _, _, _, _) => if f.Node? then Ending(Then(script, f.call.reply), f.next) else Refused
    case Govern(_, rest) => if f.Ordered? then Ending(rest, f.next) else Refused
    case Register(_, rest) => if f.Registered? then Ending(rest, f.next) else Refused
  }

  /** Every run has the shape of its script, and ends as its calls make it end. */
  lemma {:induction false} TraceIsCallTree(c: RouterConfig, s: RouterState, script: Script)
    ensures IsCallTree(script, Trace(c, s, script))
    ensures Performed(c, s, script).ending == Ending(script, Trace(c, s, script))
    decreases script, 0
  {
    match script
    case Return(_) =>
    case Throw(_) =>
    case Send(r, body, _, _, _) =>
      var d := Routed(c, s, r, body);
      CallIsCall(c, s, r, body);
      TraceIsCallTree(c, d.state, Then(script, d.result.reply));
    case Govern(order, rest) => TraceIsCallTree(c, Ordering(c, s, order), rest);
    case Register(role, rest) => TraceIsCallTree(c, s.(handlers := s.handlers + {role}), rest);
  }

  lemma {:induction false} CallIsCall(c: RouterConfig, s: RouterState, r: Request, body: Script)
    ensures IsCall(r, body, CallOf(c, s, r, body), Nested(c, s, r, body))
    decreases body, 1
  {
    TraceIsCallTree(c, Admitted(c, s, r), body);
  }

  // ---------- the ledger is the post-order ----------

  /** Each call after every call nested in it. */
  function PostOrder(f: Forest): seq<Call> {
    match f
    case NoCalls => []
    case Node(call, nested, next) => PostOrder(nested) + [call] + PostOrder(next)
    case Ordered(_, next) => PostOrder(next)
    case Registered(_, next) => PostOrder(next)
  }

  function LogOfCall(call: Call): LogRequest { LogOf(call.request, StatusOf(call.reply), call.cost, call.verdict) }

  function ReportOfCall(call: Call): Report {
    Report(EventOf(call.request, StatusOf(call.reply), call.cost, call.verdict), call.request.loggedAt)
  }

  /** The ledger after one row for each call, in order. */
  function Filed(rows: seq<LedgerRow>, calls: seq<Call>): seq<LedgerRow> {
    if calls == [] then rows
    else
      var before := Filed(rows, calls[..|calls| - 1]);
      before + [RowFor(before, LogOfCall(calls[|calls| - 1]))]
  }

  function ReportsOf(calls: seq<Call>): (reports: seq<Report>)
    ensures |reports| == |calls|
  {
    if calls == [] then [] else ReportsOf(calls[..|calls| - 1]) + [ReportOfCall(calls[|calls| - 1])]
  }

  lemma {:induction false} FiledConcat(rows: seq<LedgerRow>, a: seq<Call>, b: seq<Call>)
    ensures Filed(rows, a + b) == Filed(Filed(rows, a), b)
    ensures ReportsOf(a + b) == ReportsOf(a) + ReportsOf(b)
  {
    if b == [] {
      assert a + b == a;
    } else {
      var front, last := b[..|b| - 1], b[|b| - 1];
      assert (a + b)[..|a + b| - 1] == a + front && (a + b)[|a + b| - 1] == last;
      FiledConcat(rows, a, front);
    }
  }

  /** What a run has logged and reported, given the calls it made. */
  ghost predicate Filings(s: RouterState, calls: seq<Call>, t: RouterState) {
    && t.rows == Filed(s.rows, calls)
    && t.reports == (if s.reports.None? then None else Some(s.reports.value + ReportsOf(calls)))
  }

  lemma {:induction false} FilingsCompose(s: RouterState, a: seq<Call>, t: RouterState, b: seq<Call>, u: RouterState)
    requires Filings(s, a, t) && Filings(t, b, u)
    ensures Filings(s, a + b, u)
  {
    FiledConcat(s.rows, a, b);
    if s.reports.Some? {
      assert s.reports.value + ReportsOf(a) + ReportsOf(b) == s.reports.value + (ReportsOf(a) + ReportsOf(b));
    }
  }

  lemma {:induction false} SettledFiles(c: RouterConfig, s: RouterState, call: Call)
    ensures Filings(s, [call], Settled(c, s, call.request, StatusOf(call.reply), call.cost, call.verdict))
  {
    assert [call][..0] == [];
    assert ReportsOf([call]) == [] + [ReportOfCall(call)] == [ReportOfCall(call)];
  }

  lemma {:induction false} NothingFiled(s: RouterState)
    ensures Filings(s, [], s)
  {
    if s.reports.Some? {
      assert s.reports.value + [] == s.reports.value;
    }
  }

  /**
   For every run, with handlers that dispatch again to any depth: the ledger grows by exactly one row per
   call, in post-order of the call tree, and the observer is told of the same calls in the same order.
   */
  lemma {:induction false} LedgerIsPostOrder(c: RouterConfig, s: RouterState, script: Script)
    ensures Filings(s, PostOrder(Trace(c, s, script)), Performed(c, s, script).state)
    decreases script, 0
  {
    match script
    case Return(_) => NothingFiled(s);
    case Throw(_) => NothingFiled(s);
    case Send(r, body, _, _, _) =>
      var d := Routed(c, s, r, body);
      var next, rest := d.state, Then(script, d.result.reply);
      DispatchFiles(c, s, r, body);
      LedgerIsPostOrder(c, next, rest);
      FilingsCompose(s, PostOrder(Nested(c, s, r, body)) + [CallOf(c, s, r, body)], next,
                     PostOrder(Trace(c, next, rest)), Performed(c, next, rest).state);
    case Govern(order, rest) => LedgerIsPostOrder(c, Ordering(c, s, order), rest);
    case Register(role, rest) => LedgerIsPostOrder(c, s.(handlers := s.handlers + {role}), rest);
  }

  lemma {:induction false} DispatchFiles(c: RouterConfig, s: RouterState, r: Request, body: Script)
    ensures Filings(s, PostOrder(Nested(c, s, r, body)) + [CallOf(c, s, r, body)], Routed(c, s, r, body).state)
    decreases body, 1
  {
    var s1 := Admitted(c, s, r);
    var call := CallOf(c, s, r, body);
    var h := if call.delivered then Performed(c, s1, body).state else s1;
    NothingFiled(s);
    if call.delivered {
      LedgerIsPostOrder(c, s1, body);
    }
    SettledFiles(c, h, call);
    FilingsCompose(s, PostOrder(Nested(c, s, r, body)), h, [call], Routed(c, s, r, body).state);
  }

  // ---------- KNOLL runs in pre-order ----------

  /** What happens in a run, one after another: calls as they begin, freeze overrides and registrations. */
  datatype Happening = CallItem(call: Call) | OrderItem(order: Order) | RegisterItem(role: AgentRole)

  /** Each call before every call nested in it. */
  function PreOrder(f: Forest): seq<Happening> {
    match f
    case NoCalls => []
    case Node(call, nested, next) => [CallItem(call)] + PreOrder(nested) + PreOrder(next)
    case Ordered(order, next) => [OrderItem(order)] + PreOrder(next)
    case Registered(role, next) => [RegisterItem(role)] + PreOrder(next)
  }

  /** KNOLL after one item: a call that reaches it is gated; any other, and a registration, leaves it alone. */
  function Step(c: RouterConfig, k: KnollState, i: Happening): KnollState {
    match i
    case OrderItem(order) => Overridden(c, k, order)
    case RegisterItem(_) => k
    case CallItem(call) =>
      if Reaches(c, k, call.request) then Gate(c.knoll, k, call.request.inbound, None, call.request.now).state else k
  }

  function Steps(c: RouterConfig, k: KnollState, items: seq<Happening>): KnollState {
    if items == [] then k else Step(c, Steps(c, k, items[..|items| - 1]), items[|items| - 1])
  }

  /** How a call may end, given what KNOLL was when it began. */
  ghost predicate Lawful(c: RouterConfig, call: Call) {
    && (call.reply.Refused? ==> !call.delivered)
    && (call.reply.Answered? ==> call.delivered && call.cost == CostOf(c, call.request))
    && (!call.reply.Answered? ==> call.cost == 0.0)
    && (call.reply.Refused? <==> !call.verdict.isAllowed)
    && (if Reaches(c, call.before, call.request)
        then call.verdict == Gate(c.knoll, call.before, call.request.inbound, None, call.request.now).verdict
        else !call.verdict.isAllowed && (call.request.inbound.Packet? ==> call.verdict.constraints == [SYSTEM_FREEZE]))
  }

  /** The items come one at a time: each call begins with the KNOLL the items before it left. */
  ghost predicate OneAtATime(c: RouterConfig, k: KnollState, items: seq<Happening>) {
    forall i | 0 <= i < |items| && items[i].CallItem? ::
      items[i].call.before == Steps(c, k, items[..i]) && Lawful(c, items[i].call)
  }

  lemma {:induction false} StepsConcat(c: RouterConfig, k: KnollState, a: seq<Happening>, b: seq<Happening>)
    ensures Steps(c, k, a + b) == Steps(c, Steps(c, k, a), b)
  {
    if b == [] {
      assert a + b == a;
    } else {
      assert (a + b)[..|a + b| - 1] == a + b[..|b| - 1];
      StepsConcat(c, k, a, b[..|b| - 1]);
    }
  }

  lemma {:induction false} OneAtATimeConcat(c: RouterConfig, k: KnollState, a: seq<Happening>, b: seq<Happening>)
    requires OneAtATime(c, k, a) && OneAtATime(c, Steps(c, k, a), b)
    ensures OneAtATime(c, k, a + b)
  {
    forall i | 0 <= i < |a + b| && (a + b)[i].CallItem?
      ensures (a + b)[i].call.before == Steps(c, k, (a + b)[..i]) && Lawful(c, (a + b)[i].call)
    {
      if i < |a| {
        assert (a + b)[..i] == a[..i] && (a + b)[i] == a[i];
      } else {
        assert (a + b)[..i] == a + b[..i - |a|] && (a + b)[i] == b[i - |a|];
        StepsConcat(c, k, a, b[..i - |a|]);
      }
    }
  }

  /** The KNOLL half of a run: from one state to another, one item at a time. */
  ghost predicate Threads(c: RouterConfig, k: KnollState, items: seq<Happening>, k': KnollState) {
    OneAtATime(c, k, items) && Steps(c, k, items) == k'
  }

  lemma {:induction false} ThreadsCompose(c: RouterConfig, k: KnollState, a: seq<Happening>, k': KnollState,
                                          b: seq<Happening>, k'': KnollState)
    requires Threads(c, k, a, k') && Threads(c, k', b, k'')
    ensures Threads(c, k, a + b, k'')
  {
    OneAtATimeConcat(c, k, a, b);
    StepsConcat(c, k, a, b);
  }

  lemma {:induction false} ThreadsOne(c: RouterConfig, k: KnollState, i: Happening)
    requires i.CallItem? ==> i.call.before == k && Lawful(c, i.call)
    ensures Threads(c, k, [i], Step(c, k, i))
  {
    assert [i][..0] == [];
    assert Steps(c, k, []) == k;
  }

  lemma {:induction false} CallLawful(c: RouterConfig, s: RouterState, r: Request, body: Script)
    ensures var call := CallOf(c, s, r, body);
            Lawful(c, call) && call.before == s.knoll && Admit(c, s, r).knoll == Step(c, s.knoll, CallItem(call))
  {
    AdmissionIsGate(c, s, r);
  }

  lemma {:induction false} AdmissionIsGate(c: RouterConfig, s: RouterState, r: Request)
    ensures var a := Admit(c, s, r);
            && (a.status.BLOCKED? <==> !a.verdict.isAllowed)
            && (if Reaches(c, s.knoll, r)
                then Gated(a.knoll, a.verdict) == Gate(c.knoll, s.knoll, r.inbound, None, r.now)
                else a.knoll == s.knoll && a.status.BLOCKED?
                     && (r.inbound.Packet? ==> a.verdict.constraints == [SYSTEM_FREEZE]))
  {
  }

  /**
   For every run, KNOLL sees the calls in pre-order of the call tree, one at a time: each begins with
   exactly the state the calls and overrides before it left, and its gate runs to the end before any call
   nested in it begins.
   */
  lemma {:induction false} KnollRunsInPreOrder(c: RouterConfig, s: RouterState, script: Script)
    ensures Threads(c, s.knoll, PreOrder(Trace(c, s, script)), Performed(c, s, script).state.knoll)
    decreases script, 0
  {
    match script
    case Return(_) =>
    case Throw(_) =>
    case Send(r, body, _, _, _) =>
      var d := Routed(c, s, r, body);
      var next, rest := d.state, Then(script, d.result.reply);
      DispatchThreads(c, s, r, body);
      KnollRunsInPreOrder(c, next, rest);
      ThreadsCompose(c, s.knoll, [CallItem(CallOf(c, s, r, body))] + PreOrder(Nested(c, s, r, body)), next.knoll,
                     PreOrder(Trace(c, next, rest)), Performed(c, next, rest).state.knoll);
    case Govern(order, rest) =>
      ThreadsOne(c, s.knoll, OrderItem(order));
      KnollRunsInPreOrder(c, Ordering(c, s, order), rest);
      ThreadsCompose(c, s.knoll, [OrderItem(order)], Overridden(c, s.knoll, order),
                     PreOrder(Trace(c, Ordering(c, s, order), rest)), Performed(c, s, script).state.knoll);
    case Register(role, rest) =>
      var t := s.(handlers := s.handlers + {role});
      ThreadsOne(c, s.knoll, RegisterItem(role));
      KnollRunsInPreOrder(c, t, rest);
      ThreadsCompose(c, s.knoll, [RegisterItem(role)], s.knoll, PreOrder(Trace(c, t, rest)),
                     Performed(c, s, script).state.knoll);
  }

  lemma {:induction false} DispatchThreads(c: RouterConfig, s: RouterState, r: Request, body: Script)
    ensures Threads(c, s.knoll, [CallItem(CallOf(c, s, r, body))] + PreOrder(Nested(c, s, r, body)),
                    Routed(c, s, r, body).state.knoll)
    decreases body, 1
  {
    var call := CallOf(c, s, r, body);
    var s1 := Admitted(c, s, r);
    CallLawful(c, s, r, body);
    ThreadsOne(c, s.knoll, CallItem(call));
    if call.delivered {
      KnollRunsInPreOrder(c, s1, body);
      ThreadsCompose(c, s.knoll, [CallItem(call)], s1.knoll, PreOrder(Trace(c, s1, body)),
                     Performed(c, s1, body).state.knoll);
    } else {
      assert [CallItem(call)] + [] == [CallItem(call)];
    }
  }

  // ---------- the audit log is the pre-order of the gated calls ----------

  lemma {:induction false} OneAtATimePrefix(c: RouterConfig, k: KnollState, items: seq<Happening>, n: nat)
    requires OneAtATime(c, k, items) && n <= |items|
    ensures OneAtATime(c, k, items[..n])
  {
    forall j | 0 <= j < n && items[..n][j].CallItem?
      ensures items[..n][j].call.before == Steps(c, k, items[..n][..j]) && Lawful(c, items[..n][j].call)
    {
      assert items[..n][..j] == items[..j];
    }
  }

  /** The audit entries of the calls that reached KNOLL, in order. */
  function Audits(c: RouterConfig, items: seq<Happening>): seq<AuditEntry> {
    if items == [] then []
    else
      var i := items[|items| - 1];
      Audits(c, items[..|items| - 1]) + AuditsOf(c, i)
  }

  function AuditsOf(c: RouterConfig, i: Happening): seq<AuditEntry> {
    if i.CallItem? && Reaches(c, i.call.before, i.call.request) then [AuditOf(c, i.call)] else []
  }

  /** A call's audit entry: who, the outcome its caller was told, why, and when. */
  function AuditOf(c: RouterConfig, call: Call): AuditEntry {
    var outcome := if call.verdict.isAllowed then ALLOWED else BLOCKED_BY_KNOLL;
    AuditEntry(c.knoll.newId(|call.before.audit|), PacketIdOf(call.request.inbound), outcome,
               Some(call.verdict.reasoning), call.request.now.audit)
  }

  lemma {:induction false} StepAudit(c: RouterConfig, k: KnollState, i: Happening)
    requires i.CallItem? ==> i.call.before == k && Lawful(c, i.call)
    ensures Step(c, k, i).audit == k.audit + AuditsOf(c, i)
  {
    if i.CallItem? && Reaches(c, k, i.call.request) {
      GateAudits(c.knoll, k, i.call.request.inbound, None, i.call.request.now);
    } else {
      assert k.audit + [] == k.audit;
    }
  }

  lemma {:induction false} StepsAudit(c: RouterConfig, k: KnollState, items: seq<Happening>)
    requires OneAtATime(c, k, items)
    ensures Steps(c, k, items).audit == k.audit + Audits(c, items)
  {
    if items == [] {
      assert k.audit + [] == k.audit;
    } else {
      var n := |items| - 1;
      OneAtATimePrefix(c, k, items, n);
      StepsAudit(c, k, items[..n]);
      StepAudit(c, Steps(c, k, items[..n]), items[n]);
      Reassociate(k.audit, Audits(c, items[..n]), AuditsOf(c, items[n]));
    }
  }

  /**
   For every run, the audit log grows by exactly one entry per call that reached KNOLL, in pre-order of
   the call tree, each saying what that call's caller was told.
   */
  lemma {:induction false} AuditIsPreOrder(c: RouterConfig, s: RouterState, script: Script)
    ensures Performed(c, s, script).state.knoll.audit == s.knoll.audit + Audits(c, PreOrder(Trace(c, s, script)))
  {
    KnollRunsInPreOrder(c, s, script);
    StepsAudit(c, s.knoll, PreOrder(Trace(c, s, script)));
  }
}
