/** Exactly which calls of a run are delivered, and what each of them leaves in the ledger, field by field. */
module RouterDelivery {
  import opened Text
  import opened Money
  import opened Schema
  import opened KnollGate
  import opened Ledger
  import opened Metering
  import opened Router
  import opened RouterRuns

  // ---------- what is nested in a call, and which row is its ---------

  /** What is nested in the `i`-th item of the pre-order. */
  function NestedAt(f: Forest, i: nat): Forest {
    match f
    case NoCalls => NoCalls
    case Node(_, nested, next) =>
      if i == 0 then nested else if i <= |PreOrder(nested)| then NestedAt(nested, i - 1)
      else NestedAt(next, i - 1 - |PreOrder(nested)|)
    case Ordered(_, next) => if i == 0 then NoCalls else NestedAt(next, i - 1)
    case Registered(_, next) => if i == 0 then NoCalls else NestedAt(next, i - 1)
  }

  /** The place in the post-order of the `i`-th item of the pre-order, if that is a call. */
  function RowAt(f: Forest, i: nat): nat {
    match f
    case NoCalls => 0
    case Node(_, nested, next) =>
      if i == 0 then |PostOrder(nested)| else if i <= |PreOrder(nested)| then RowAt(nested, i - 1)
      else |PostOrder(nested)| + 1 + RowAt(next, i - 1 - |PreOrder(nested)|)
    case Ordered(_, next) => if i == 0 then 0 else RowAt(next, i - 1)
    case Registered(_, next) => if i == 0 then 0 else RowAt(next, i - 1)
  }

  lemma {:induction false} RowAtIsCall(f: Forest, i: nat)
    requires i < |PreOrder(f)| && PreOrder(f)[i].CallItem?
    ensures RowAt(f, i) < |PostOrder(f)| && PostOrder(f)[RowAt(f, i)] == PreOrder(f)[i].call
  {
    match f
    case NoCalls =>
    case Node(_, nested, next) =>
      if 0 < i <= |PreOrder(nested)| {
        RowAtIsCall(nested, i - 1);
      } else if i > 0 {
        RowAtIsCall(next, i - 1 - |PreOrder(nested)|);
      }
    case Ordered(_, next) => RowAtIsCall(next, i - 1);
    case Registered(_, next) => RowAtIsCall(next, i - 1);
  }

  /** Every place in the post-order is that of some call. */
  lemma {:induction false} EveryRowIsACall(f: Forest, j: nat) returns (i: nat)
    requires j < |PostOrder(f)|
    ensures i < |PreOrder(f)| && PreOrder(f)[i].CallItem? && RowAt(f, i) == j
  {
    match f
    case NoCalls =>
    case Node(_, nested, next) =>
      if j < |PostOrder(nested)| {
        i := EveryRowIsACall(nested, j);
        i := i + 1;
      } else if j == |PostOrder(nested)| {
        i := 0;
      } else {
        i := EveryRowIsACall(next, j - 1 - |PostOrder(nested)|);
        i := i + 1 + |PreOrder(nested)|;
      }
    case Ordered(_, next) =>
      i := EveryRowIsACall(next, j);
      i := i + 1;
    case Registered(_, next) =>
      i := EveryRowIsACall(next, j);
      i := i + 1;
  }

  // ---------- who is delivered ----------

  /** Registered from the start, or by what happened before, at any depth. */
  predicate Known(start: set<AgentRole>, before: seq<Happening>, role: AgentRole) {
    role in start || RegisterItem(role) in before
  }

  /** Whether KNOLL is asked about a call, and lets its packet pass. */
  predicate LetThrough(c: RouterConfig, k: KnollState, r: Request) {
    && r.inbound.Packet? && (k.freeze.Running? || (r.token.Some? && c.knoll.accepts(r.token.value)))
    && Gate(c.knoll, k, r.inbound, None, r.now).verdict.isAllowed
  }

  /** How a call that found KNOLL in a state, after a number of items, went: delivered, unroutable or refused. */
  predicate Told(c: RouterConfig, start: set<AgentRole>, before: seq<Happening>, k: KnollState, call: Call,
                       nested: Forest)
  {
    var r := call.request;
    && (call.delivered <==>
          LetThrough(c, k, r) && Known(start, before, r.inbound.packet.header.destination))
    && (call.reply.Refused? <==> !LetThrough(c, k, r))
    && (LetThrough(c, k, r) && !call.delivered ==>
          call.reply == Erred(c.wording(NoHandler(r.inbound.packet.header.destination))))
    && (!call.delivered ==> nested.NoCalls?)
    && call.cost == (if !call.reply.Answered? then 0.0 else if r.cost.Some? then r.cost.value else c.defaultCost)
  }

  /** What can be said of a call, given the items before it and what is nested in it. */
  type Claim = (seq<Happening>, Call, Forest) -> bool

  /** That a call was told what it should have been, as a claim. */
  function Telling(c: RouterConfig, start: set<AgentRole>): Claim {
    (before: seq<Happening>, call: Call, nested: Forest) => Told(c, start, before, call.before, call, nested)
  }

  /** A claim holds of every call of a forest. */
  predicate AllCalls(claim: Claim, before: seq<Happening>, f: Forest)
    decreases f
  {
    match f
    case NoCalls => true
    case Node(call, nested, next) =>
      && claim(before, call, nested) && AllCalls(claim, before + [CallItem(call)], nested)
      && AllCalls(claim, before + ([CallItem(call)] + PreOrder(nested)), next)
    case Ordered(order, next) => AllCalls(claim, before + [OrderItem(order)], next)
    case Registered(role, next) => AllCalls(claim, before + [RegisterItem(role)], next)
  }

  /** Taking from the second part of three. */
  lemma {:induction false} TakeMiddle<T>(before: seq<T>, a: seq<T>, b: seq<T>, c: seq<T>, i: nat)
    requires |a| <= i <= |a| + |b|
    ensures before + (a + b + c)[..i] == before + a + b[..i - |a|]
  {
    assert (a + b + c)[..i] == a + b[..i - |a|];
  }

  /** Taking from the last part. */
  lemma {:induction false} TakeLast<T>(before: seq<T>, a: seq<T>, b: seq<T>, i: nat)
    requires |a| <= i <= |a| + |b|
    ensures before + (a + b)[..i] == before + a + b[..i - |a|]
  {
    assert (a + b)[..i] == a + b[..i - |a|];
  }

  lemma {:induction false} EveryCall(claim: Claim, before: seq<Happening>, f: Forest, i: nat)
    requires AllCalls(claim, before, f) && i < |PreOrder(f)| && PreOrder(f)[i].CallItem?
    ensures claim(before + PreOrder(f)[..i], PreOrder(f)[i].call, NestedAt(f, i))
    decreases f, 1
  {
    if i == 0 {
      assert before + PreOrder(f)[..0] == before;
    } else {
      match f
      case NoCalls =>
      case Node(call, nested, next) => EveryCallInNode(claim, before, f, i);
      case Ordered(order, next) =>
        EveryCall(claim, before + [OrderItem(order)], next, i - 1);
        TakeLast(before, [OrderItem(order)], PreOrder(next), i);
      case Registered(role, next) =>
        EveryCall(claim, before + [RegisterItem(role)], next, i - 1);
        TakeLast(before, [RegisterItem(role)], PreOrder(next), i);
    }
  }

  lemma {:induction false} EveryCallInNode(claim: Claim, before: seq<Happening>, f: Forest, i: nat)
    requires f.Node? && AllCalls(claim, before, f) && 0 < i < |PreOrder(f)| && PreOrder(f)[i].CallItem?
    ensures claim(before + PreOrder(f)[..i], PreOrder(f)[i].call, NestedAt(f, i))
    decreases f, 0
  {
    var first, nested, next := [CallItem(f.call)], PreOrder(f.nested), PreOrder(f.next);
    if i <= |nested| {
      EveryCall(claim, before + first, f.nested, i - 1);
      TakeMiddle(before, first, nested, next, i);
    } else {
      EveryCall(claim, before + (first + nested), f.next, i - 1 - |nested|);
      TakeLast(before, first + nested, next, i);
    }
  }

  /** The handlers a router has are those it started with and those registered since. */
  ghost predicate Handlers(start: set<AgentRole>, before: seq<Happening>, handlers: set<AgentRole>) {
    forall role: AgentRole :: role in handlers <==> Known(start, before, role)
  }

  lemma {:induction false} HandlersKept(start: set<AgentRole>, before: seq<Happening>, handlers: set<AgentRole>,
                                        i: Happening)
    requires Handlers(start, before, handlers)
    ensures Handlers(start, before + [i], if i.RegisterItem? then handlers + {i.role} else handlers)
  {
    forall role: AgentRole
      ensures role in (if i.RegisterItem? then handlers + {i.role} else handlers) <==> Known(start, before + [i], role)
    {
      assert role in handlers <==> Known(start, before, role);
    }
  }

  lemma {:induction false} CallTold(c: RouterConfig, start: set<AgentRole>, before: seq<Happening>, s: RouterState,
                                    r: Request, body: Script)
    requires Handlers(start, before, s.handlers)
    ensures Told(c, start, before, s.knoll, CallOf(c, s, r, body), Nested(c, s, r, body))
    ensures Telling(c, start)(before, CallOf(c, s, r, body), Nested(c, s, r, body))
  {
    if r.inbound.Packet? {
      var destination := r.inbound.packet.header.destination;
      assert destination in s.handlers <==> Known(start, before, destination);
    }
  }

  /** Over a whole run every call is told what the items before it make of it. */
  lemma {:induction false} RunTold(c: RouterConfig, start: set<AgentRole>, before: seq<Happening>, s: RouterState,
                                   script: Script)
    requires Handlers(start, before, s.handlers)
    ensures AllCalls(Telling(c, start), before, Trace(c, s, script))
    ensures Handlers(start, before + PreOrder(Trace(c, s, script)), Performed(c, s, script).state.handlers)
    decreases script, 0
  {
    match script
    case Return(_) => assert before + [] == before;
    case Throw(_) => assert before + [] == before;
    case Send(r, body, _, _, _) =>
      var d := Routed(c, s, r, body);
      var rest := Then(script, d.result.reply);
      var here := [CallItem(CallOf(c, s, r, body))] + PreOrder(Nested(c, s, r, body));
      CallTold(c, start, before, s, r, body);
      DispatchTold(c, start, before, s, r, body);
      RunTold(c, start, before + here, d.state, rest);
      assert before + here + PreOrder(Trace(c, d.state, rest)) == before + (here + PreOrder(Trace(c, d.state, rest)));
    case Govern(order, rest) =>
      var t := Ordering(c, s, order);
      HandlersKept(start, before, s.handlers, OrderItem(order));
      RunTold(c, start, before + [OrderItem(order)], t, rest);
      assert before + [OrderItem(order)] + PreOrder(Trace(c, t, rest))
          == before + ([OrderItem(order)] + PreOrder(Trace(c, t, rest)));
    case Register(role, rest) =>
      var t := s.(handlers := s.handlers + {role});
      HandlersKept(start, before, s.handlers, RegisterItem(role));
      RunTold(c, start, before + [RegisterItem(role)], t, rest);
      assert before + [RegisterItem(role)] + PreOrder(Trace(c, t, rest))
          == before + ([RegisterItem(role)] + PreOrder(Trace(c, t, rest)));
  }

  lemma {:induction false} DispatchTold(c: RouterConfig, start: set<AgentRole>, before: seq<Happening>,
                                        s: RouterState, r: Request, body: Script)
    requires Handlers(start, before, s.handlers)
    ensures var call, nested := CallOf(c, s, r, body), Nested(c, s, r, body);
            && AllCalls(Telling(c, start), before + [CallItem(call)], nested)
            && Handlers(start, before + ([CallItem(call)] + PreOrder(nested)), Routed(c, s, r, body).state.handlers)
    decreases body, 1
  {
    var call := CallOf(c, s, r, body);
    HandlersKept(start, before, s.handlers, CallItem(call));
    if call.delivered {
      var s1 := Admitted(c, s, r);
      RunTold(c, start, before + [CallItem(call)], s1, body);
      assert before + [CallItem(call)] + PreOrder(Trace(c, s1, body))
          == before + ([CallItem(call)] + PreOrder(Trace(c, s1, body)));
    } else {
      assert [CallItem(call)] + [] == [CallItem(call)];
    }
  }

  // ---------- what a call leaves in the ledger ----------

  /** A row says of a call who sent what to whom, when, how it ended, at what cost, and what KNOLL made of it. */
  ghost predicate RowTells(call: Call, row: LedgerRow, n: nat) {
    var r := call.request;
    && row.id == SerialId("led_", n) && row.timestamp == r.loggedAt
    && (match r.inbound
        case Packet(p) =>
          && row.packetId == p.header.packetId && row.source == p.header.source
          && row.destination == p.header.destination
          && row.signature == Signed(if |p.security.knollToken| <= 14 then p.security.knollToken
                                     else p.security.knollToken[..14], call.verdict.isAllowed, call.verdict.constraints)
        case Malformed(_) =>
          row.packetId == "unknown-packet" && row.source == row.destination == APEX && row.signature == NoToken)
    && (match call.reply
        case Answered(_) => row.status == SUCCESS && row.cost == Round(call.cost)
        case Refused => row.status == BLOCKED && row.cost == 0
        case Erred(_) => row.status == FAILED && row.cost == 0)
  }

  /** What the observer is told of a call agrees with its row, with the cost before rounding. */
  ghost predicate ReportTells(call: Call, row: LedgerRow, report: Report) {
    report == Report(DispatchEvent(row.packetId, row.source, row.destination, row.status, call.request.durationMs,
                                   call.cost, call.verdict), row.timestamp)
  }

  lemma {:induction false} FiledGrows(rows: seq<LedgerRow>, calls: seq<Call>, n: nat)
    requires n <= |calls|
    ensures Filed(rows, calls[..n]) <= Filed(rows, calls) && |Filed(rows, calls)| == |rows| + |calls|
  {
    if n < |calls| {
      var front := calls[..|calls| - 1];
      assert front[..n] == calls[..n];
      FiledGrows(rows, front, n);
    } else {
      assert calls[..n] == calls;
      if n > 0 {
        FiledGrows(rows, calls[..n - 1], n - 1);
      }
    }
  }

  lemma {:induction false} FiledLast(rows: seq<LedgerRow>, calls: seq<Call>, call: Call)
    ensures Filed(rows, calls + [call]) == Filed(rows, calls) + [RowFor(Filed(rows, calls), LogOfCall(call))]
  {
    assert (calls + [call])[..|calls|] == calls;
  }

  lemma {:induction false} FiledAt(rows: seq<LedgerRow>, calls: seq<Call>, j: nat)
    requires j < |calls|
    ensures |Filed(rows, calls)| == |rows| + |calls| && |Filed(rows, calls[..j])| == |rows| + j
    ensures Filed(rows, calls)[|rows| + j] == RowFor(Filed(rows, calls[..j]), LogOfCall(calls[j]))
  {
    FiledGrows(rows, calls[..j], j);
    FiledGrows(rows, calls, j + 1);
    assert calls[..j + 1] == calls[..j] + [calls[j]];
    FiledLast(rows, calls[..j], calls[j]);
  }

  lemma {:induction false} ReportedAt(calls: seq<Call>, j: nat)
    requires j < |calls|
    ensures ReportsOf(calls)[j] == ReportOfCall(calls[j])
  {
    if j < |calls| - 1 {
      ReportedAt(calls[..|calls| - 1], j);
    }
  }

  lemma {:induction false} RowOfCall(rows: seq<LedgerRow>, call: Call)
    requires !call.reply.Answered? ==> call.cost == 0.0
    ensures RowTells(call, RowFor(rows, LogOfCall(call)), |rows| + 1)
    ensures ReportTells(call, RowFor(rows, LogOfCall(call)), ReportOfCall(call))
  {
    RoundWhole(0);
  }

  /** The `n`-th row since `s`, and the `n`-th observation if there is an observer, tell of a call. */
  ghost predicate Entered(s: RouterState, t: RouterState, n: nat, call: Call) {
    && |s.rows| + n < |t.rows| && RowTells(call, t.rows[|s.rows| + n], |s.rows| + n + 1)
    && (s.reports.Some? ==>
          && t.reports.Some? && |s.reports.value| + n < |t.reports.value|
          && ReportTells(call, t.rows[|s.rows| + n], t.reports.value[|s.reports.value| + n]))
  }

  lemma {:induction false} FiledIsEntered(s: RouterState, calls: seq<Call>, t: RouterState, n: nat)
    requires Filings(s, calls, t) && n < |calls|
    requires !calls[n].reply.Answered? ==> calls[n].cost == 0.0
    ensures Entered(s, t, n, calls[n])
  {
    FiledAt(s.rows, calls, n);
    ReportedAt(calls, n);
    RowOfCall(Filed(s.rows, calls[..n]), calls[n]);
  }

  lemma {:induction false} ToldInRun(c: RouterConfig, s: RouterState, script: Script, i: nat)
    requires var items := PreOrder(Trace(c, s, script)); i < |items| && items[i].CallItem?
    ensures var f := Trace(c, s, script);
            var items := PreOrder(f);
            Told(c, s.handlers, items[..i], Steps(c, s.knoll, items[..i]), items[i].call, NestedAt(f, i))
  {
    var f := Trace(c, s, script);
    var items := PreOrder(f);
    assert Handlers(s.handlers, [], s.handlers);
    RunTold(c, s.handlers, [], s, script);
    EveryCall(Telling(c, s.handlers), [], f, i);
    assert [] + items[..i] == items[..i];
    KnollRunsInPreOrder(c, s, script);
  }

  /**
   Over every run, nested to any depth: a call is delivered if and only if KNOLL, in the state the items before it left,
   is asked and allows its packet, and its destination had a handler from the start or was registered by an earlier
   item. A packet KNOLL allows for a role nobody registered fails by that name; a call KNOLL is not asked about, or does
   not allow, is refused; in neither is anything nested, and neither costs anything. Each call has a row of its own, and
   an observation, that say so, in the place the post-order gives it.
   */
  lemma {:induction false} DeliveryIsExact(c: RouterConfig, s: RouterState, script: Script, i: nat)
    requires var items := PreOrder(Trace(c, s, script)); i < |items| && items[i].CallItem?
    ensures var f := Trace(c, s, script);
            var items := PreOrder(f);
            && Told(c, s.handlers, items[..i], Steps(c, s.knoll, items[..i]), items[i].call, NestedAt(f, i))
            && Entered(s, Performed(c, s, script).state, RowAt(f, i), items[i].call)
  {
    var f := Trace(c, s, script);
    ToldInRun(c, s, script, i);
    RowAtIsCall(f, i);
    LedgerIsPostOrder(c, s, script);
    FiledIsEntered(s, PostOrder(f), Performed(c, s, script).state, RowAt(f, i));
  }

  /** A dispatch tells its caller what it has just written down. */
  lemma {:induction false} ReplyMatchesRow(c: RouterConfig, s: RouterState, r: Request, body: Script)
    ensures var d := Routed(c, s, r, body);
            && d.state.rows != []
            && var row := d.state.rows[|d.state.rows| - 1];
            && d.result.packetId == row.packetId && Round(d.result.cost) == row.cost
            && (row.status == SUCCESS <==> d.result.reply.Answered?)
            && (row.status == BLOCKED <==> d.result.reply.Refused?)
            && (r.inbound.Packet? ==> row.signature.Signed? && row.signature.allowed == d.result.knoll.isAllowed
                                      && row.signature.constraints == d.result.knoll.constraints)
  {
  }
}
