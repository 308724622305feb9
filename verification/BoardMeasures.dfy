/** What the numbers of a board report say: counts, rates and percentiles. */
module BoardMeasures {
  import opened Text
  import opened Money
  import opened Order
  import opened Schema
  import opened Router
  import opened Orchestrator
  import opened EvalBoard

  predicate WasRouted(r: CaseResult) { r.status == SUCCESS }

  predicate WasBlocked(r: CaseResult) { r.status == BLOCKED }

  predicate HasFailed(r: CaseResult) { r.status == FAILED }

  predicate IsLegal(r: CaseResult) { !r.expectBlocked }

  predicate GotAway(r: CaseResult) { r.expectBlocked && r.status != BLOCKED }

  predicate LegalWasRouted(r: CaseResult) { !r.expectBlocked && r.status == SUCCESS }

  predicate LegalWasBlocked(r: CaseResult) { !r.expectBlocked && r.status == BLOCKED }

  predicate AsExpected(r: CaseResult) { r.passed }

  /** The cases with a property, by number. */
  ghost function Cases(rs: seq<CaseResult>, has: CaseResult -> bool): set<int> {
    set i | 0 <= i < |rs| && has(rs[i])
  }

  lemma {:induction false} CasesNext(rs: seq<CaseResult>, has: CaseResult -> bool)
    requires rs != []
    ensures |Cases(rs, has)| == |Cases(rs[..|rs| - 1], has)| + if has(rs[|rs| - 1]) then 1 else 0
  {
    var n := |rs| - 1;
    var before := Cases(rs[..n], has);
    assert Cases(rs, has) == if has(rs[n]) then before + {n} else before;
  }

  lemma {:induction false} HowManyCases(rs: seq<CaseResult>, f: Filter, has: CaseResult -> bool)
    requires forall r :: Picks(f, r) <==> has(r)
    ensures HowMany(rs, f) == |Cases(rs, has)|
  {
    if rs != [] {
      HowManyCases(rs[..|rs| - 1], f, has);
      CasesNext(rs, has);
    }
  }

  /** A rate kept to six places; a rate of nothing is zero. */
  predicate KeptRate(x: real, n: nat, d: nat) {
    if d == 0 then x == 0.0 else Kept(x, n as real / d as real, 0.000001)
  }

  lemma {:induction false} RateKeeps(n: nat, d: nat)
    ensures KeptRate(Rate(n, d), n, d)
  {
    if d > 0 {
      Round6Keeps(n as real / d as real);
    }
  }

  /** Every count of a report is the number of the cases it counts, and every rate their share, to six places. */
  lemma {:induction false} MetricsTell(rs: seq<CaseResult>)
    ensures var m, legal := ComputeMetrics(rs), |Cases(rs, IsLegal)|;
            && m.totalCases == |rs| && m.routed == |Cases(rs, WasRouted)| && m.blocked == |Cases(rs, WasBlocked)|
            && m.failed == |Cases(rs, HasFailed)|
            && KeptRate(m.violationRate, |Cases(rs, GotAway)|, |rs|)
            && KeptRate(m.blockRate, |Cases(rs, WasBlocked)|, |rs|)
            && KeptRate(m.accuracy, |Cases(rs, AsExpected)|, |rs|)
            && (if legal == 0 then m.routingSuccessRate == 1.0
                else KeptRate(m.routingSuccessRate, |Cases(rs, LegalWasRouted)|, legal))
            && KeptRate(m.falseBlockRate, |Cases(rs, LegalWasBlocked)|, legal)
  {
    HowManyCases(rs, Delivered, WasRouted);
    HowManyCases(rs, Blocked, WasBlocked);
    HowManyCases(rs, Failed, HasFailed);
    HowManyCases(rs, Legal, IsLegal);
    HowManyCases(rs, Escaped, GotAway);
    HowManyCases(rs, LegalRouted, LegalWasRouted);
    HowManyCases(rs, LegalBlocked, LegalWasBlocked);
    HowManyCases(rs, Correct, AsExpected);
    RateKeeps(HowMany(rs, Escaped), |rs|);
    RateKeeps(HowMany(rs, Blocked), |rs|);
    RateKeeps(HowMany(rs, Correct), |rs|);
    RateKeeps(HowMany(rs, LegalRouted), HowMany(rs, Legal));
    RateKeeps(HowMany(rs, LegalBlocked), HowMany(rs, Legal));
  }

  /** What a result tells of a case and the reply it got. */
  predicate TellsOf(r: CaseResult, x: EvalCase, reply: Reply) {
    && r.expectBlocked == x.expectBlocked
    && (match reply
        case Answered(_) => r.status == SUCCESS
        case Refused => r.status == BLOCKED
        case Erred(_) => r.status == FAILED)
    && (r.passed <==> if x.expectBlocked then reply.Refused? else reply.Answered?)
    && Kept(r.latencyMs, if x.observedMs.Some? then x.observedMs.value else x.measuredMs, 0.001)
  }

  lemma {:induction false} ResultOfTells(x: EvalCase, reply: Reply)
    ensures TellsOf(ResultOf(x, StatusOf(reply)), x, reply)
  {
    Round3Keeps(if x.observedMs.Some? then x.observedMs.value else x.measuredMs);
  }

  lemma {:induction false} ResultsGrow(c: RouterConfig, s: RouterState, cases: seq<EvalCase>, n: nat)
    requires n <= |cases|
    ensures ResultsOf(c, s, cases[..n]) <= ResultsOf(c, s, cases)
  {
    if n < |cases| {
      var front := cases[..|cases| - 1];
      assert front[..n] == cases[..n];
      ResultsGrow(c, s, front, n);
    } else {
      assert cases[..n] == cases;
    }
  }

  /** Each result tells of its own case, sent to a handler that answers "ok", after the cases before it. */
  lemma {:induction false} ResultTells(c: RouterConfig, s: RouterState, cases: seq<EvalCase>, i: nat)
    requires i < |cases|
    ensures var d := Routed(c, BoardAfter(c, s, cases[..i]), cases[i].request, Script.Return("ok"));
            TellsOf(ResultsOf(c, s, cases)[i], cases[i], d.result.reply)
  {
    NextCase(c, s, cases, i);
    ResultsGrow(c, s, cases, i + 1);
    ResultOfTells(cases[i], Routed(c, BoardAfter(c, s, cases[..i]), cases[i].request, HANDLED).result.reply);
  }

  /** The board aborts on exactly the cases whose packet could not be minted. */
  lemma {:induction false} MintableMeansMinted(hash: string -> string, x: EvalCase, m: Minting)
    requires x.request.inbound.Packet?
    ensures var p := x.request.inbound.packet;
            Mintable(x) <==> CreatePacket(hash, Draft(p.header.source, p.header.destination, p.payload.intent,
                                                      p.payload.data, Some(p.header.priority), None, None, None),
                                          m).Some?
  {
  }

  /** Part of the way from one number to another. */
  function Along(a: real, b: real, t: real): real { a + (b - a) * t }

  lemma {:induction false} BlendIsAlong(a: real, b: real, t: real)
    ensures a * (1.0 - t) + b * t == Along(a, b, t)
  {
    assert (b - a) * t == b * t - a * t;
    assert a * (1.0 - t) == a - a * t;
  }

  lemma {:induction false} AscendingIsUnique(values: seq<real>, sorted: seq<real>)
    requires Rising(sorted) && multiset(sorted) == multiset(values)
    ensures sorted == Ascending(values)
  {
    var all := set v | v in sorted;
    AscendingRises(values);
    SortUnique(Below(), all, sorted, Ascending(values));
  }

  /** A number stands p hundredths of the way along a list, to three places: at a value, or between it and the next. */
  ghost predicate StandsAt(x: real, sorted: seq<real>, p: real)
    requires sorted != []
  {
    var place := p / 100.0 * (|sorted| - 1) as real;
    var lo := place.Floor;
    && 0 <= lo < |sorted| && (lo == |sorted| - 1 ==> place == lo as real)
    && Kept(x, if place == lo as real then sorted[lo] else Along(sorted[lo], sorted[lo + 1], place - lo as real), 0.001)
  }

  lemma {:induction false} RankStandsAt(sorted: seq<real>, p: real)
    requires sorted != [] && 0.0 <= p <= 100.0
    ensures StandsAt(Round3(AtRank(sorted, Rank(|sorted|, p))), sorted, p)
  {
    var place := Rank(|sorted|, p);
    var lo := place.Floor;
    Round3Keeps(AtRank(sorted, place));
    if place != lo as real {
      BlendIsAlong(sorted[lo], sorted[lo + 1], place - lo as real);
    }
  }

  /** The p-th percentile of some values stands at its place in their sorted arrangement, however that was found. */
  lemma {:induction false} PercentileTells(values: seq<real>, p: real, sorted: seq<real>)
    requires values != [] && 0.0 <= p <= 100.0 && Rising(sorted) && multiset(sorted) == multiset(values)
    ensures sorted != [] && StandsAt(Percentile(values, p), sorted, p)
  {
    AscendingIsUnique(values, sorted);
    RankStandsAt(sorted, p);
  }

  /** A report's two percentiles stand at 50 and 95 hundredths of the latencies of its results. */
  lemma {:induction false} ReportPercentiles(rs: seq<CaseResult>, sorted: seq<real>)
    requires rs != [] && Rising(sorted) && multiset(sorted) == multiset(Latencies(rs))
    ensures sorted != []
    ensures StandsAt(ComputeMetrics(rs).p50, sorted, 50.0) && StandsAt(ComputeMetrics(rs).p95, sorted, 95.0)
  {
    PercentileTells(Latencies(rs), 50.0, sorted);
    PercentileTells(Latencies(rs), 95.0, sorted);
  }
}
