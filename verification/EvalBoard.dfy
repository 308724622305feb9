/** The eval board: labelled cases sent through the live gate, and the quality gate over the results. */
module EvalBoard {
  import opened Text
  import opened Money
  import opened Order
  import opened Schema
  import opened KnollGate
  import opened Router

  /** A labelled packet, the time its dispatch took, and the recorded latency that replaces it when there is one. */
  datatype EvalCase = EvalCase(request: Request, expectBlocked: bool, measuredMs: real, observedMs: Option<real>)

  datatype CaseResult = CaseResult(expectBlocked: bool, status: Status, passed: bool, latencyMs: real)

  datatype Metrics = Metrics(totalCases: nat, routed: nat, blocked: nat, failed: nat, violationRate: real,
                             blockRate: real,
                             routingSuccessRate: real, falseBlockRate: real, p50: real, p95: real, accuracy: real)

  datatype BoardReport = BoardReport(results: seq<CaseResult>, metrics: Metrics, passed: bool)

  function ResultOf(c: EvalCase, status: Status): CaseResult {
    CaseResult(c.expectBlocked, status, status == (if c.expectBlocked then BLOCKED else SUCCESS),
               Round3(if c.observedMs.Some? then c.observedMs.value else c.measuredMs))
  }

  /** What `filter` picks out of the results. */
  datatype Filter =
    | All | Legal | Illegal | Delivered | Blocked | Failed | Escaped | LegalRouted | LegalBlocked | Correct

  predicate Picks(f: Filter, r: CaseResult) {
    match f
    case All => true
    case Legal => !r.expectBlocked
    case Illegal => r.expectBlocked
    case Delivered => r.status.SUCCESS?
    case Blocked => r.status.BLOCKED?
    case Failed => r.status.FAILED?
    case Escaped => r.expectBlocked && !r.status.BLOCKED?
    case LegalRouted => !r.expectBlocked && r.status.SUCCESS?
    case LegalBlocked => !r.expectBlocked && r.status.BLOCKED?
    case Correct => r.passed
  }

  function HowMany(rs: seq<CaseResult>, f: Filter): nat {
    if rs == [] then 0 else HowMany(rs[..|rs| - 1], f) + if Picks(f, rs[|rs| - 1]) then 1 else 0
  }

  function Latencies(rs: seq<CaseResult>): (ls: seq<real>)
    ensures |ls| == |rs| && forall i | 0 <= i < |rs| :: ls[i] == rs[i].latencyMs
  {
    if rs == [] then [] else Latencies(rs[..|rs| - 1]) + [rs[|rs| - 1].latencyMs]
  }

  function Rate(n: nat, d: nat): real { if d == 0 then 0.0 else Round6(n as real / d as real) }

  function ComputeMetrics(rs: seq<CaseResult>): Metrics {
    var legal := HowMany(rs, Legal);
    Metrics(|rs|, HowMany(rs, Delivered), HowMany(rs, Blocked), HowMany(rs, Failed),
            Rate(HowMany(rs, Escaped), |rs|), Rate(HowMany(rs, Blocked), |rs|),
            if legal == 0 then 1.0 else Rate(HowMany(rs, LegalRouted), legal),
            if legal == 0 then 0.0 else Rate(HowMany(rs, LegalBlocked), legal),
            Percentile(Latencies(rs), 50.0), Percentile(Latencies(rs), 95.0), Rate(HowMany(rs, Correct), |rs|))
  }

  predicate BoardPasses(m: Metrics) { m.violationRate == 0.0 && m.falseBlockRate == 0.0 && m.failed == 0 }

  // ---------- running the board ----------

  const EVERY_ROLE: set<AgentRole> := {HOPE, DREAM, VISION, KNOLL, APEX}

  /** What every handler does: `() => ({ ok: true })`. */
  const HANDLED := Script.Return("ok")

  /** A fresh router with a handler that returns at once for every role. */
  function BoardStart(k: KnollState): RouterState { RouterState(k, [], EVERY_ROLE, None) }

  function BoardAfter(c: RouterConfig, s: RouterState, cases: seq<EvalCase>): RouterState {
    if cases == [] then s
    else Routed(c, BoardAfter(c, s, cases[..|cases| - 1]), cases[|cases| - 1].request, HANDLED).state
  }

  /** What each case comes to, in the state the cases before it left behind. */
  function ResultsOf(c: RouterConfig, s: RouterState, cases: seq<EvalCase>): (rs: seq<CaseResult>)
    ensures |rs| == |cases|
  {
    if cases == [] then []
    else
      var n := |cases| - 1;
      ResultsOf(c, s, cases[..n])
      + [ResultOf(cases[n], StatusOf(Routed(c, BoardAfter(c, s, cases[..n]), cases[n].request, HANDLED).result.reply))]
  }

  /** What the board asks of a case before it dispatches it: `asRole` on both ends, and an intent to mint with. */
  predicate Mintable(x: EvalCase) {
    x.request.inbound.Packet?
    && var p := x.request.inbound.packet;
    IsRole(p.header.source) && IsRole(p.header.destination) && p.payload.intent != ""
  }

  predicate AllMintable(cases: seq<EvalCase>) { forall i | 0 <= i < |cases| :: Mintable(cases[i]) }

  lemma {:induction false} NextMintable(cases: seq<EvalCase>, n: nat)
    requires n < |cases|
    ensures AllMintable(cases[..n + 1]) <==> AllMintable(cases[..n]) && Mintable(cases[n])
    ensures !Mintable(cases[n]) ==> !AllMintable(cases)
  {
    assert cases[..n + 1] == cases[..n] + [cases[n]];
  }

  lemma {:induction false} NextCase(c: RouterConfig, s: RouterState, cases: seq<EvalCase>, n: nat)
    requires n < |cases|
    ensures var d := Routed(c, BoardAfter(c, s, cases[..n]), cases[n].request, HANDLED);
            && BoardAfter(c, s, cases[..n + 1]) == d.state
            && ResultsOf(c, s, cases[..n + 1]) == ResultsOf(c, s, cases[..n])
                + [ResultOf(cases[n], StatusOf(d.result.reply))]
  {
    assert cases[..n + 1][..n] == cases[..n];
  }

  /** One case through the live router, when it stands where the cases before this one left it. */
  method RunCase(router: ApexRouter, cases: seq<EvalCase>, i: nat, ghost start: RouterState) returns (r: CaseResult)
    requires i < |cases| && router.Valid()
    requires router.State() == BoardAfter(router.config, start, cases[..i])
    modifies router.Footprint()
    ensures router.Valid() && router.State() == BoardAfter(router.config, start, cases[..i + 1])
    ensures ResultsOf(router.config, start, cases[..i + 1]) == ResultsOf(router.config, start, cases[..i]) + [r]
  {
    var dispatch := router.Dispatch(cases[i].request, HANDLED);
    NextCase(router.config, start, cases, i);
    r := ResultOf(cases[i], StatusOf(dispatch.reply));
  }

  /** The loop over the cases; it stops at the first that cannot be minted. */
  method RunCases(router: ApexRouter, cases: seq<EvalCase>, ghost start: RouterState)
    returns (results: Option<seq<CaseResult>>)
    requires router.Valid() && router.State() == start
    modifies router.Footprint()
    ensures router.Valid()
    ensures results.Some? <==> AllMintable(cases)
    ensures results.Some? ==> results.value == ResultsOf(router.config, start, cases)
  {
    var rs: seq<CaseResult> := [];
    var i := 0;
    while i < |cases|
      invariant 0 <= i <= |cases|
      invariant router.Valid() && router.State() == BoardAfter(router.config, start, cases[..i])
      invariant rs == ResultsOf(router.config, start, cases[..i])
      invariant AllMintable(cases[..i])
    {
      NextMintable(cases, i);
      if !Mintable(cases[i]) {
        return None;
      }
      var r := RunCase(router, cases, i, start);
      rs := rs + [r];
      i := i + 1;
    }
    TakeAll(cases, i);
    results := Some(rs);
  }

  /** `runBoard`: `None` for the error thrown at a case with an unknown role or an empty intent. */
  method RunBoard(config: RouterConfig, knoll: Knoll, cases: seq<EvalCase>) returns (report: Option<BoardReport>)
    requires knoll.Valid() && knoll.config == config.knoll
    modifies knoll, knoll.audit, knoll.scorer, knoll.learnedScorer, knoll.freeze
    ensures knoll.Valid()
    ensures report.Some? <==> AllMintable(cases)
    ensures report.Some? ==>
              var rs := ResultsOf(config, BoardStart(old(knoll.State())), cases);
              report.value == BoardReport(rs, ComputeMetrics(rs), BoardPasses(ComputeMetrics(rs)))
  {
    var router := new ApexRouter(config, knoll, null);
    ghost var start := BoardStart(knoll.State());
    var _ := router.Play(Register(HOPE, Register(DREAM, Register(VISION, Register(KNOLL, Register(APEX, HANDLED))))));
    var results := RunCases(router, cases, start);
    if results.None? {
      return None;
    }
    var metrics := ComputeMetrics(results.value);
    report := Some(BoardReport(results.value, metrics, BoardPasses(metrics)));
  }

  // ---------- the quality gate ----------

  /** A rounded rate is zero when the count is, or when the list is too long for one case to show. */
  lemma {:induction false} RateZero(n: nat, d: nat)
    ensures Rate(n, d) == 0.0 <==> d == 0 || 2000000 * n < d
  {
    if d > 0 {
      var x := n as real / d as real;
      assert x * d as real == n as real;
      ScaledBelow(x, d as real, n as real);
      assert x >= 0.0;
    }
  }

  lemma ScaledBelow(x: real, d: real, n: real)
    requires d > 0.0 && x * d == n
    ensures x * 1000000.0 < 0.5 <==> 2000000.0 * n < d
  {
    var y := 2000000.0 * x;
    assert y * d == 2000000.0 * n;
    if y < 1.0 {
      assert y * d < 1.0 * d;
    } else {
      assert y * d >= 1.0 * d;
    }
  }

  predicate AllMatch(rs: seq<CaseResult>) { forall i | 0 <= i < |rs| :: rs[i].passed }

  /** Each result's flag says whether its status is the expected one. */
  predicate Labelled(rs: seq<CaseResult>) {
    forall i | 0 <= i < |rs| :: rs[i].passed == (rs[i].status == if rs[i].expectBlocked then BLOCKED else SUCCESS)
  }

  lemma {:induction false} CountZero(rs: seq<CaseResult>, f: Filter)
    ensures HowMany(rs, f) == 0 <==> forall i | 0 <= i < |rs| :: !Picks(f, rs[i])
  {
    if rs != [] {
      var n := |rs| - 1;
      CountZero(rs[..n], f);
      if forall i | 0 <= i < n :: !Picks(f, rs[..n][i]) {
        assert forall i | 0 <= i < n :: !Picks(f, rs[i]);
      } else {
        var i :| 0 <= i < n && Picks(f, rs[..n][i]);
        assert Picks(f, rs[i]);
      }
    }
  }

  lemma {:induction false} CountAtMost(rs: seq<CaseResult>, f: Filter)
    ensures HowMany(rs, f) <= |rs|
  {
    if rs != [] {
      CountAtMost(rs[..|rs| - 1], f);
    }
  }

  lemma {:induction false} MatchMeansNoFault(rs: seq<CaseResult>)
    requires Labelled(rs)
    ensures AllMatch(rs) <==> HowMany(rs, Escaped) == 0 && HowMany(rs, LegalBlocked) == 0 && HowMany(rs, Failed) == 0
  {
    CountZero(rs, Escaped);
    CountZero(rs, LegalBlocked);
    CountZero(rs, Failed);
    if AllMatch(rs) {
      forall i | 0 <= i < |rs| ensures !Picks(Escaped, rs[i]) && !Picks(LegalBlocked, rs[i]) && !Picks(Failed, rs[i]) {
        assert rs[i].passed;
      }
    } else {
      var i :| 0 <= i < |rs| && !rs[i].passed;
      assert Picks(Escaped, rs[i]) || Picks(LegalBlocked, rs[i]) || Picks(Failed, rs[i]);
    }
  }

  /** Exactly when the board passes: nothing failed, and what went wrong is too rare to survive rounding. */
  lemma {:induction false} PassesIff(rs: seq<CaseResult>)
    ensures BoardPasses(ComputeMetrics(rs)) <==>
            && HowMany(rs, Failed) == 0 && (rs == [] || 2000000 * HowMany(rs, Escaped) < |rs|)
            && (HowMany(rs, Legal) == 0 || 2000000 * HowMany(rs, LegalBlocked) < HowMany(rs, Legal))
  {
    RateZero(HowMany(rs, Escaped), |rs|);
    RateZero(HowMany(rs, LegalBlocked), HowMany(rs, Legal));
  }

  lemma {:induction false} LegalBlockedAreLegal(rs: seq<CaseResult>)
    ensures HowMany(rs, LegalBlocked) <= HowMany(rs, Legal)
  {
    if rs != [] {
      LegalBlockedAreLegal(rs[..|rs| - 1]);
    }
  }

  /** The gate agrees with the ground truth exactly when there is no fault, or one that rounding cannot hide. */
  lemma {:induction false} GateIsExactIff(rs: seq<CaseResult>)
    requires Labelled(rs)
    ensures (BoardPasses(ComputeMetrics(rs)) <==> AllMatch(rs)) <==>
            || HowMany(rs, Escaped) + HowMany(rs, LegalBlocked) == 0 || HowMany(rs, Failed) > 0
            || 2000000 * HowMany(rs, Escaped) >= |rs|
            || (HowMany(rs, Legal) > 0 && 2000000 * HowMany(rs, LegalBlocked) >= HowMany(rs, Legal))
  {
    PassesIff(rs);
    MatchMeansNoFault(rs);
    LegalBlockedAreLegal(rs);
  }

  /** For up to two million cases the rounded rates miss nothing: the board passes exactly when every case matches. */
  lemma {:induction false} GateIsExact(rs: seq<CaseResult>)
    requires Labelled(rs) && |rs| <= 2000000
    ensures BoardPasses(ComputeMetrics(rs)) <==> AllMatch(rs)
  {
    CountAtMost(rs, Legal);
    LegalBlockedAreLegal(rs);
    TwoMillionFold(HowMany(rs, Escaped), |rs|);
    TwoMillionFold(HowMany(rs, LegalBlocked), HowMany(rs, Legal));
    GateIsExactIff(rs);
  }

  lemma TwoMillionFold(n: nat, d: nat)
    requires d <= 2000000
    ensures n == 0 || 2000000 * n >= d
  {
  }

  /** One more case and it no longer is: an escaped violation passes unseen after two million that match. */
  lemma {:induction false} GateMissesOneInTwoMillion(rs: seq<CaseResult>, escaped: CaseResult)
    requires Labelled(rs) && AllMatch(rs) && |rs| >= 2000000
    requires escaped.expectBlocked && escaped.status.SUCCESS? && !escaped.passed
    ensures BoardPasses(ComputeMetrics(rs + [escaped])) && !AllMatch(rs + [escaped])
  {
    var more := rs + [escaped];
    MatchMeansNoFault(rs);
    PassesIff(more);
    assert more[..|rs|] == rs;
    assert HowMany(more, Escaped) == 1 && HowMany(more, LegalBlocked) == 0 && HowMany(more, Failed) == 0;
    assert !more[|rs|].passed;
  }

  // ---------- what the board measures ----------

  /** What decides each case on its own: whether the gate lets it through, in the state it finds. */
  function Admissions(c: RouterConfig, s: RouterState, cases: seq<EvalCase>): (admitted: seq<bool>)
    ensures |admitted| == |cases|
  {
    if cases == [] then []
    else
      var n := |cases| - 1;
      Admissions(c, s, cases[..n]) + [Admit(c, BoardAfter(c, s, cases[..n]), cases[n].request).verdict.isAllowed]
  }

  lemma {:induction false} HandlersStay(c: RouterConfig, s: RouterState, cases: seq<EvalCase>)
    ensures BoardAfter(c, s, cases).handlers == s.handlers
  {
    if cases != [] {
      HandlersStay(c, s, cases[..|cases| - 1]);
    }
  }

  lemma {:induction false} CaseStatus(c: RouterConfig, s: RouterState, x: EvalCase)
    requires s.handlers == EVERY_ROLE && Mintable(x)
    ensures StatusOf(Routed(c, s, x.request, HANDLED).result.reply)
         == if Admit(c, s, x.request).verdict.isAllowed then SUCCESS else BLOCKED
  {
    var destination := x.request.inbound.packet.header.destination;
    assert destination in EVERY_ROLE;
  }

  /** Results that follow the gate's decisions and nothing else. */
  predicate Follows(rs: seq<CaseResult>, cases: seq<EvalCase>, admitted: seq<bool>) {
    |rs| == |cases| == |admitted|
    && forall i | 0 <= i < |rs| :: rs[i] == ResultOf(cases[i], if admitted[i] then SUCCESS else BLOCKED)
  }

  lemma {:induction false} ResultsFollow(c: RouterConfig, s: RouterState, cases: seq<EvalCase>)
    requires s.handlers == EVERY_ROLE && AllMintable(cases)
    ensures Follows(ResultsOf(c, s, cases), cases, Admissions(c, s, cases))
  {
    if cases != [] {
      var n := |cases| - 1;
      NextMintable(cases, n);
      TakeAll(cases, |cases|);
      ResultsFollow(c, s, cases[..n]);
      HandlersStay(c, s, cases[..n]);
      CaseStatus(c, BoardAfter(c, s, cases[..n]), cases[n]);
      var admitted := Admit(c, BoardAfter(c, s, cases[..n]), cases[n].request).verdict.isAllowed;
      FollowsNext(ResultsOf(c, s, cases[..n]), cases, Admissions(c, s, cases[..n]), admitted);
    }
  }

  lemma {:induction false} FollowsNext(rs: seq<CaseResult>, cases: seq<EvalCase>, admitted: seq<bool>, last: bool)
    requires cases != [] && Follows(rs, cases[..|cases| - 1], admitted)
    ensures Follows(rs + [ResultOf(cases[|cases| - 1], if last then SUCCESS else BLOCKED)], cases, admitted + [last])
  {
    assert forall i | 0 <= i < |rs| :: cases[i] == cases[..|cases| - 1][i];
  }

  lemma {:induction false} FollowersNeverFail(rs: seq<CaseResult>, cases: seq<EvalCase>, admitted: seq<bool>)
    requires Follows(rs, cases, admitted)
    ensures Labelled(rs) && HowMany(rs, Failed) == 0
    ensures AllMatch(rs) <==> forall i | 0 <= i < |cases| :: admitted[i] == !cases[i].expectBlocked
  {
    CountZero(rs, Failed);
    if AllMatch(rs) {
      forall i | 0 <= i < |cases| ensures admitted[i] == !cases[i].expectBlocked {
        assert rs[i].passed;
      }
    }
  }

  /**
   With every role registered only the gate can stop a case, so a board of up to two million cases passes exactly
   when the gate let through the legal cases and none of the others.
   */
  lemma {:induction false} BoardTestsTheGate(c: RouterConfig, k: KnollState, cases: seq<EvalCase>)
    requires |cases| <= 2000000 && AllMintable(cases)
    ensures var rs, admitted := ResultsOf(c, BoardStart(k), cases), Admissions(c, BoardStart(k), cases);
            && HowMany(rs, Failed) == 0
            && (BoardPasses(ComputeMetrics(rs))
                <==> forall i | 0 <= i < |cases| :: admitted[i] == !cases[i].expectBlocked)
  {
    var rs, admitted := ResultsOf(c, BoardStart(k), cases), Admissions(c, BoardStart(k), cases);
    ResultsFollow(c, BoardStart(k), cases);
    FollowersNeverFail(rs, cases, admitted);
    GateIsExact(rs);
  }

  // ---------- percentiles ----------

  function Below(): (real, real) -> bool { (a, b) => a < b }

  function Ascending(values: seq<real>): (s: seq<real>)
    ensures |s| == |values|
  {
    SortPermutes(Below(), values);
    Sort(Below(), values)
  }

  /** The value at a fractional rank, interpolated between its neighbours. */
  function AtRank(sorted: seq<real>, rank: real): real
    requires 0.0 <= rank <= (|sorted| - 1) as real
  {
    var lo := rank.Floor;
    if lo as real == rank then sorted[lo]
    else
      var frac := rank - lo as real;
      sorted[lo] * (1.0 - frac) + sorted[lo + 1] * frac
  }

  function Rank(n: nat, p: real): (rank: real)
    requires n > 0 && 0.0 <= p <= 100.0
    ensures 0.0 <= rank <= (n - 1) as real
  {
    RankInRange(n, p);
    p / 100.0 * (n - 1) as real
  }

  lemma RankInRange(n: nat, p: real)
    requires n > 0 && 0.0 <= p <= 100.0
    ensures 0.0 <= p / 100.0 * (n - 1) as real <= (n - 1) as real
  {
    var q, m := p / 100.0, (n - 1) as real;
    assert 0.0 <= q <= 1.0 && m >= 0.0;
    assert 0.0 <= q * m;
    assert (1.0 - q) * m >= 0.0;
  }

  function Percentile(values: seq<real>, p: real): real
    requires 0.0 <= p <= 100.0
  {
    if values == [] then 0.0 else Round3(AtRank(Ascending(values), Rank(|values|, p)))
  }

  predicate Rising(s: seq<real>) { forall i, j | 0 <= i <= j < |s| :: s[i] <= s[j] }

  lemma {:induction false} AscendingRises(values: seq<real>)
    ensures Rising(Ascending(values)) && multiset(Ascending(values)) == multiset(values)
  {
    SortPermutes(Below(), values);
    SortSorts(Below(), (set v | v in values), values);
    var s := Ascending(values);
    forall i, j | 0 <= i <= j < |s| ensures s[i] <= s[j] {
      assert i < j ==> !Below()(s[j], s[i]);
    }
  }

  lemma {:induction false} Blend(a: real, b: real, t: real)
    requires a <= b && 0.0 <= t <= 1.0
    ensures a <= a * (1.0 - t) + b * t <= b
  {
    var d := b - a;
    assert d * t >= 0.0 && d * (1.0 - t) >= 0.0;
    assert a * (1.0 - t) + b * t == a + d * t == b - d * (1.0 - t);
  }

  lemma {:induction false} BlendRises(a: real, b: real, t: real, u: real)
    requires a <= b && t <= u
    ensures a * (1.0 - t) + b * t <= a * (1.0 - u) + b * u
  {
    NonNegativeProduct(b - a, u - t);
    assert (a * (1.0 - u) + b * u) - (a * (1.0 - t) + b * t) == (b - a) * (u - t);
  }

  /** An interpolated value lies between the two it is interpolated from. */
  lemma {:induction false} RankBracket(s: seq<real>, rank: real)
    requires Rising(s) && 0.0 <= rank <= (|s| - 1) as real
    ensures s[rank.Floor] <= AtRank(s, rank)
    ensures rank.Floor as real != rank ==> AtRank(s, rank) <= s[rank.Floor + 1]
  {
    var lo := rank.Floor;
    if lo as real != rank {
      Blend(s[lo], s[lo + 1], rank - lo as real);
    }
  }

  lemma {:induction false} RankRises(s: seq<real>, r: real, q: real)
    requires Rising(s) && 0.0 <= r <= q <= (|s| - 1) as real
    ensures AtRank(s, r) <= AtRank(s, q)
  {
    RankBracket(s, r);
    RankBracket(s, q);
    var lo := r.Floor;
    if lo == q.Floor {
      if lo as real != r {
        BlendRises(s[lo], s[lo + 1], r - lo as real, q - lo as real);
      }
    } else if lo as real == r {
      assert s[lo] <= s[q.Floor];
    } else {
      assert s[lo + 1] <= s[q.Floor];
    }
  }

  lemma {:induction false} Round3Rises(x: real, y: real)
    requires x <= y
    ensures Round3(x) <= Round3(y)
  {
    RoundMonotone(x * 1000.0, y * 1000.0);
  }

  /** Percentiles rise with p, and stay between the least and the greatest value, each rounded to three places. */
  lemma {:induction false} PercentilesRise(values: seq<real>, p: real, q: real, v: real)
    requires 0.0 <= p <= q <= 100.0 && v in values
    ensures Percentile(values, 0.0) <= Percentile(values, p) <= Percentile(values, q) <= Percentile(values, 100.0)
    ensures Percentile(values, 0.0) <= Round3(v) <= Percentile(values, 100.0)
  {
    AscendingRises(values);
    var s, n := Ascending(values), |values|;
    RanksRise(n, 0.0, p);
    RanksRise(n, p, q);
    RanksRise(n, q, 100.0);
    RankRises(s, Rank(n, 0.0), Rank(n, p));
    RankRises(s, Rank(n, p), Rank(n, q));
    RankRises(s, Rank(n, q), Rank(n, 100.0));
    Round3Rises(AtRank(s, Rank(n, 0.0)), AtRank(s, Rank(n, p)));
    Round3Rises(AtRank(s, Rank(n, p)), AtRank(s, Rank(n, q)));
    Round3Rises(AtRank(s, Rank(n, q)), AtRank(s, Rank(n, 100.0)));
    SameMembers(s, values, v);
    Extremes(values);
    Round3Rises(s[0], v);
    Round3Rises(v, s[n - 1]);
  }

  lemma {:induction false} RanksRise(n: nat, p: real, q: real)
    requires n > 0 && 0.0 <= p <= q <= 100.0
    ensures Rank(n, p) <= Rank(n, q)
  {
    var m := (n - 1) as real;
    NonNegativeProduct(q / 100.0 - p / 100.0, m);
    assert (q / 100.0 - p / 100.0) * m == q / 100.0 * m - p / 100.0 * m;
  }

  /** The 0th and 100th percentiles are the least and the greatest value, rounded. */
  lemma {:induction false} Extremes(values: seq<real>)
    requires values != []
    ensures var s := Ascending(values);
            Percentile(values, 0.0) == Round3(s[0]) && Percentile(values, 100.0) == Round3(s[|s| - 1])
            && s[0] in values && s[|s| - 1] in values
  {
    AscendingRises(values);
    var s := Ascending(values);
    SameMembers(s, values, s[0]);
    SameMembers(s, values, s[|s| - 1]);
    var m := (|values| - 1) as real;
    assert Rank(|values|, 0.0) == 0.0 * m == 0.0;
    assert Rank(|values|, 100.0) == 1.0 * m == m;
  }

  lemma {:induction false} Round3Twice(x: real)
    ensures Round3(Round3(x)) == Round3(x)
  {
    assert Round3(x) * 1000.0 == Round(x * 1000.0) as real;
    RoundWhole(Round(x * 1000.0));
  }

  lemma {:induction false} LatenciesAreRounded(c: RouterConfig, s: RouterState, cases: seq<EvalCase>)
    ensures forall v | v in Latencies(ResultsOf(c, s, cases)) :: Round3(v) == v
  {
    if cases != [] {
      var last := cases[|cases| - 1];
      LatenciesAreRounded(c, s, cases[..|cases| - 1]);
      Round3Twice(if last.observedMs.Some? then last.observedMs.value else last.measuredMs);
    }
  }

  /** Board latencies are already rounded, so p50 and p95 lie exactly between those of the fastest and slowest case. */
  lemma {:induction false} BoardPercentiles(c: RouterConfig, s: RouterState, cases: seq<EvalCase>)
    returns (fastest: real, slowest: real)
    requires cases != []
    ensures var rs := ResultsOf(c, s, cases);
            var ls, m := Latencies(rs), ComputeMetrics(rs);
            && fastest in ls && slowest in ls && (forall v | v in ls :: fastest <= v <= slowest)
            && fastest <= m.p50 <= m.p95 <= slowest
  {
    var ls := Latencies(ResultsOf(c, s, cases));
    LatenciesAreRounded(c, s, cases);
    Extremes(ls);
    var sorted := Ascending(ls);
    fastest, slowest := sorted[0], sorted[|sorted| - 1];
    forall v | v in ls ensures fastest <= v <= slowest {
      PercentilesRise(ls, 50.0, 95.0, v);
    }
    PercentilesRise(ls, 50.0, 95.0, fastest);
  }
}
