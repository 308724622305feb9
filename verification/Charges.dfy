/** What each consumption of a run is charged, from the settings and the spend before it, and each metered event. */
module Charges {
  import opened Text
  import opened Money
  import opened Schema
  import opened Ledger
  import opened Pricing
  import opened Allowance
  import opened Metering

  /** The tier after a run: that of the last change of tier. */
  function TierAfter(tier: PlanTier, ops: seq<Op>): PlanTier {
    if ops == [] then tier
    else
      var last := ops[|ops| - 1];
      if last.SetAllowance? && last.change.tier.Some? then last.change.tier.value else TierAfter(tier, ops[..|ops| - 1])
  }

  /** The cap asked for: that of the last setting that gives one, if no change of tier came after it. */
  function CapAsked(cap: CapSetting, ops: seq<Op>): CapSetting {
    if ops == [] then cap
    else
      var last := ops[|ops| - 1];
      if last.SetAllowance? && !last.change.hardCap.Unset? then last.change.hardCap
      else if last.SetAllowance? && last.change.tier.Some? then Unset
      else CapAsked(cap, ops[..|ops| - 1])
  }

  /** The included amount asked for, if no change of tier came after it. */
  function IncludedAsked(included: Option<real>, ops: seq<Op>): Option<real> {
    if ops == [] then included
    else
      var last := ops[|ops| - 1];
      if last.SetAllowance? && last.change.included.Some? then last.change.included
      else if last.SetAllowance? && last.change.tier.Some? then None
      else IncludedAsked(included, ops[..|ops| - 1])
  }

  /** The cap in force: one asked for, but not below zero, or else the tier's. */
  function CapInForce(p: TierPricing, asked: CapSetting): Option<real> {
    match asked
    case Unset => p.hardCap
    case Unlimited => None
    case Cap(amount) => Some(if amount < 0.0 then 0.0 else amount)
  }

  /** A trimmed label, or a default when nothing is given or left. */
  function Given(given: Option<string>, fallback: string): string {
    if given.None? || Trim(given.value) == "" then fallback else Trim(given.value)
  }

  /** What a consumption comes to on a tier, under a cap, after a spend. */
  ghost predicate ChargedAsDue(p: TierPricing, cap: Option<real>, spent: int, input: ConsumeInput,
                               rec: OccurrenceRecord)
  {
    && rec.at == input.at && rec.activeParamSeconds == Used(input.activeParams, input.durationSec)
    && rec.provider == Given(input.provider, "big5-matrix") && rec.model == Given(input.model, "unknown")
    && rec.kind == (if p.byokPassthrough then BYOK_PASSTHROUGH
                    else if input.kind.Some? then input.kind.value else DISPATCH)
    && (if p.byokPassthrough then rec.rate == ByokRate && rec.accepted && Near(rec.cost, p.passthroughFee)
        else if input.byokPassthrough then rec.rate == ByokRate && rec.accepted && rec.cost == 0
        else
          && (rec.accepted <==> cap.None? || (spent + rec.cost) as real <= cap.value + 0.001)
          && match input.costOverride
             case Some(amount) => rec.rate == Included && Near(rec.cost, if amount < 0.0 then 0.0 else amount)
             case None =>
               if (if spent < 0 then 0 else spent) as real < p.includedAllowance then
                 && rec.rate == Included
                 && PriceDue(p, p.pricePerMillion, input.activeParams, input.durationSec, rec.cost)
               else
                 && rec.rate == Overage
                 && PriceDue(p, p.overagePerMillion, input.activeParams, input.durationSec, rec.cost))
  }

  lemma {:induction false} PricedAsDue(book: PricingBook, a: Account, input: ConsumeInput)
    ensures ChargedAsDue(book(a.tier), HardCap(book, a), a.spent, input, Priced(book, a, input))
  {
    assert Trim("big5-matrix") == "big5-matrix" && Trim("unknown") == "unknown";
    PriceIsExact(book(a.tier), book(a.tier), input.activeParams, input.durationSec, a.spent);
    RoundBounds(book(a.tier).passthroughFee);
    if input.costOverride.Some? {
      RoundBounds(MaxReal(0.0, input.costOverride.value));
    }
  }

  /** What a run leaves of its settings. */
  ghost predicate SetAs(a: Account, ops: seq<Op>, b: Account) {
    && b.tier == TierAfter(a.tier, ops) && b.hardCapOverride == NormalCap(CapAsked(a.hardCapOverride, ops))
    && b.includedOverride == NormalIncluded(IncludedAsked(a.includedOverride, ops))
  }

  /** The settings of an account are never below zero. */
  predicate Opened(a: Account) {
    a.hardCapOverride == NormalCap(a.hardCapOverride) && a.includedOverride == NormalIncluded(a.includedOverride)
  }

  lemma {:induction false} SettingsAreHistory(book: PricingBook, a: Account, ops: seq<Op>)
    requires Opened(a)
    ensures SetAs(a, ops, Run(book, a, ops))
  {
    if ops != [] {
      SettingsAreHistory(book, a, ops[..|ops| - 1]);
    }
  }

  /**
   Over every run of consumptions and settings, each consumption leaves one record, charged as is due on the tier and
   under the cap the settings before it left, after the spend the records before it add up to. In particular the switch
   to the overage rate comes when that spend reaches the tier's own allowance; an included amount set on the account
   does not move it.
   */
  lemma {:induction false} EachIsChargedAsDue(book: PricingBook, a: Account, ops: seq<Op>, i: nat)
    returns (rec: OccurrenceRecord)
    requires |a.log| <= a.maxOccurrences && Opened(a)
    requires i < |ops| && ops[i].Consume?
    ensures var p := book(TierAfter(a.tier, ops[..i])); var cap := CapInForce(p, CapAsked(a.hardCapOverride, ops[..i]));
            && History(book, a, ops[..i + 1]) == History(book, a, ops[..i]) + [rec]
            && ChargedAsDue(p, cap, a.spent + AcceptedCost(History(book, a, ops[..i])), ops[i].input, rec)
  {
    var before := Run(book, a, ops[..i]);
    RunAccounts(book, a, ops[..i]);
    SettingsAreHistory(book, a, ops[..i]);
    assert ops[..i + 1][..i] == ops[..i];
    rec := Priced(book, before, ops[i].input);
    PricedAsDue(book, before, ops[i].input);
  }

  /**
   Over every run the balance shows what is left of the last included amount asked for since the last change of tier, or
   of the tier's own when there is none, never below zero, and of the cap in force.
   */
  lemma {:induction false} BalanceIsHistory(book: PricingBook, a: Account, ops: seq<Op>)
    requires |a.log| <= a.maxOccurrences && Opened(a)
    ensures var b := BalanceOf(book, Run(book, a, ops));
            var p, spent := book(TierAfter(a.tier, ops)), a.spent + AcceptedCost(History(book, a, ops));
            var asked := IncludedAsked(a.includedOverride, ops);
            var included := if asked.None? then p.includedAllowance
                else if asked.value < 0.0 then 0.0 else asked.value;
            var cap := CapInForce(p, CapAsked(a.hardCapOverride, ops));
            && b.spent == spent && Near(b.included, included)
            && (if spent as real <= included then b.overage == 0 && Near(b.includedRemaining, included - spent as real)
                else b.includedRemaining == 0 && Near(b.overage, spent as real - included))
            && (b.remaining.None? <==> cap.None?)
            && (cap.Some? ==> Near(b.remaining.value,
                                    if cap.value < spent as real then 0.0 else cap.value - spent as real))
  {
    RunAccounts(book, a, ops);
    SettingsAreHistory(book, a, ops);
    BalanceTells(book, Run(book, a, ops));
  }

  /** A new account is open, has spent nothing, and keeps a thousand records unless a positive number is given. */
  lemma {:induction false} OpensEmpty(tier: PlanTier, included: Option<real>, cap: CapSetting, max: Option<real>)
    ensures var a := NewAccount(tier, included, cap, max);
            && Opened(a) && a.tier == tier && a.spent == a.acceptedCount == a.rejectedCount == 0 && a.log == []
            && a.maxOccurrences == (if max.Some? && max.value > 0.0 then max.value.Floor else 1000)
            && a.includedOverride == NormalIncluded(included) && a.hardCapOverride == NormalCap(cap)
  {
  }

  /** The parameter-seconds of the accepted records of a history. */
  function AcceptedSeconds(records: seq<OccurrenceRecord>): real {
    if records == [] then 0.0
    else
      var r := records[|records| - 1];
      AcceptedSeconds(records[..|records| - 1]) + if r.accepted then r.activeParamSeconds else 0.0
  }

  /** Over every run the account has used the parameter-seconds of all it accepted, and keeps its latest records. */
  lemma {:induction false} KeptRecords(book: PricingBook, a: Account, ops: seq<Op>)
    requires |a.log| <= a.maxOccurrences
    ensures var b, all := Run(book, a, ops), a.log + History(book, a, ops);
            && b.totalActiveParamSeconds == a.totalActiveParamSeconds + AcceptedSeconds(History(book, a, ops))
            && |b.log| == (if |all| < a.maxOccurrences then |all| else a.maxOccurrences)
            && b.log == all[|all| - |b.log|..]
  {
    RunAccounts(book, a, ops);
    SecondsAddUp(book, a, ops);
    LastOnes(a.log + History(book, a, ops), a.maxOccurrences);
  }

  lemma {:induction false} LastOnes<T>(s: seq<T>, n: nat)
    ensures |LastN(s, n)| == (if |s| < n then |s| else n) && LastN(s, n) == s[|s| - |LastN(s, n)|..]
  {
  }

  lemma {:induction false} SecondsAddUp(book: PricingBook, a: Account, ops: seq<Op>)
    ensures Run(book, a, ops).totalActiveParamSeconds
         == a.totalActiveParamSeconds + AcceptedSeconds(History(book, a, ops))
  {
    if ops != [] {
      var front, last := ops[..|ops| - 1], ops[|ops| - 1];
      SecondsAddUp(book, a, front);
      if last.Consume? {
        var before := Run(book, a, front);
        SecondsOfOne(book, before, last.input);
        OneMoreRecord(History(book, a, front), Priced(book, before, last.input));
      }
    }
  }

  lemma {:induction false} SecondsOfOne(book: PricingBook, a: Account, input: ConsumeInput)
    ensures var rec := Priced(book, a, input);
            Consumed(book, a, input).totalActiveParamSeconds
            == a.totalActiveParamSeconds + if rec.accepted then rec.activeParamSeconds else 0.0
  {
  }

  lemma {:induction false} OneMoreRecord(h: seq<OccurrenceRecord>, rec: OccurrenceRecord)
    ensures AcceptedSeconds(h + [rec]) == AcceptedSeconds(h) + if rec.accepted then rec.activeParamSeconds else 0.0
  {
    assert (h + [rec])[..|h|] == h;
  }

  /** An included amount set on an account changes neither costs nor rates, nor what is refused. */
  lemma {:induction false} IncludedMovesNothing(book: PricingBook, a: Account, included: Option<real>,
                                                input: ConsumeInput)
    ensures var b := a.(includedOverride := NormalIncluded(included));
            && Priced(book, b, input) == Priced(book, a, input)
            && Consumed(book, b, input) == Consumed(book, a, input).(includedOverride := NormalIncluded(included))
  {
    PricedAlike(book, a, included, input);
  }

  lemma {:induction false} PricedAlike(book: PricingBook, a: Account, included: Option<real>, input: ConsumeInput)
    ensures Priced(book, a.(includedOverride := NormalIncluded(included)), input) == Priced(book, a, input)
  {
  }

  // ---------- metered events ----------

  /** The personas an event lit: what the estimator says, or else a fixed number for a success at DREAM or VISION. */
  function Lit(c: MeterConfig, e: DispatchEvent): real {
    if c.estimator.Some? then (if c.estimator.value(e).Some? then c.estimator.value(e).value else 0.0)
    else if e.status == SUCCESS && e.destination in {DREAM, VISION} then c.personasPerDispatch
    else 0.0
  }

  /** The kind an event is billed as. */
  const KIND_AT: map<AgentRole, OccurrenceKind> := map[DREAM := SIMULATION, VISION := EXECUTION]

  /** An event's record: by the footprint of the personas it lit, for as long as it took, or else at its own cost. */
  ghost predicate MeteredAsDue(c: MeterConfig, p: TierPricing, cap: Option<real>, spent: int, e: DispatchEvent,
                               rec: OccurrenceRecord)
  {
    var params := Round(Lit(c, e) * 7000000000.0) as real;
    var seconds := MaxReal(e.durationMs / 1000.0, c.minDurationSec);
    && rec.kind == (if p.byokPassthrough then BYOK_PASSTHROUGH
                    else if e.destination in KIND_AT then KIND_AT[e.destination] else DISPATCH)
    && rec.activeParamSeconds == (if Lit(c, e) > 0.0 then Used(params, seconds) else 0.0)
    && (if p.byokPassthrough then rec.rate == ByokRate && rec.accepted && Near(rec.cost, p.passthroughFee)
        else
          && (rec.accepted <==> cap.None? || (spent + rec.cost) as real <= cap.value + 0.001)
          && if Lit(c, e) <= 0.0 then rec.rate == Included && Near(rec.cost, if e.cost < 0.0 then 0.0 else e.cost)
             else if (if spent < 0 then 0 else spent) as real < p.includedAllowance then
               rec.rate == Included && PriceDue(p, p.pricePerMillion, params, seconds, rec.cost)
             else rec.rate == Overage && PriceDue(p, p.overagePerMillion, params, seconds, rec.cost))
  }

  /** What an event changes of the accounts: its tenant's, never its settings, and no other. */
  ghost predicate OnlyTenants(before: map<string, Account>, after: map<string, Account>, tenant: string,
                              account: Account)
  {
    && after.Keys == before.Keys + {tenant} && (forall id | id in before && id != tenant :: after[id] == before[id])
    && after[tenant].tier == account.tier && after[tenant].includedOverride == account.includedOverride
    && after[tenant].hardCapOverride == account.hardCapOverride
    && after[tenant].maxOccurrences == account.maxOccurrences
  }

  /** Whatever the meter does not skip is charged as is due on its tenant's account, opened if there is none. */
  lemma {:induction false} EventsAreMeteredAsDue(c: MeterConfig, m: MeterState, e: DispatchEvent, at: int)
    ensures var tenant := if Trim(c.tenantId) == "" then "demo" else Trim(c.tenantId);
            var account := if tenant in m.accounts then m.accounts[tenant]
                else NewAccount(c.store.defaultTier, None, Unset, c.store.maxOccurrences);
            && Billed(c, m, e, at).at == at
            && MeteredAsDue(c, c.store.book(account.tier), HardCap(c.store.book, account), account.spent, e,
                            Billed(c, m, e, at))
  {
    var account := AccountOf(c.store, m.accounts, NormalTenant(c.tenantId));
    var p, rec := c.store.book(account.tier), Billed(c, m, e, at);
    PricedAsDue(c.store.book, account, Occurrence(c, e, at));
    EventIsDue(c, p, HardCap(c.store.book, account), account.spent, e, at, rec);
  }

  lemma {:induction false} EventIsDue(c: MeterConfig, p: TierPricing, cap: Option<real>, spent: int, e: DispatchEvent,
                                      at: int, rec: OccurrenceRecord)
    requires ChargedAsDue(p, cap, spent, Occurrence(c, e, at), rec)
    ensures MeteredAsDue(c, p, cap, spent, e, rec)
  {
  }

  /** An event changes its tenant's account alone, and leaves its settings; one that is skipped changes none. */
  lemma {:induction false} EventsKeepOthers(c: MeterConfig, m: MeterState, e: DispatchEvent, at: int)
    ensures var tenant := if Trim(c.tenantId) == "" then "demo" else Trim(c.tenantId);
            var account := if tenant in m.accounts then m.accounts[tenant]
                else NewAccount(c.store.defaultTier, None, Unset, c.store.maxOccurrences);
            if c.onlySuccess && e.status != SUCCESS then Metered(c, m, e, at).accounts == m.accounts
            else OnlyTenants(m.accounts, Metered(c, m, e, at).accounts, tenant, account)
  {
    if !Skips(c, e) {
      var account := AccountOf(c.store, m.accounts, NormalTenant(c.tenantId));
      var input := Occurrence(c, e, at);
      SettingsStay(c.store.book, account, input);
      OneAccount(m.accounts, NormalTenant(c.tenantId), account, Consumed(c.store.book, account, input));
    }
  }

  lemma {:induction false} SettingsStay(book: PricingBook, a: Account, input: ConsumeInput)
    ensures var b := Consumed(book, a, input);
            && b.tier == a.tier && b.includedOverride == a.includedOverride && b.hardCapOverride == a.hardCapOverride
            && b.maxOccurrences == a.maxOccurrences
  {
  }

  lemma {:induction false} OneAccount(m: map<string, Account>, tenant: string, before: Account, after: Account)
    requires after.tier == before.tier && after.includedOverride == before.includedOverride
    requires after.hardCapOverride == before.hardCapOverride && after.maxOccurrences == before.maxOccurrences
    ensures OnlyTenants(m, m[tenant := after], tenant, before)
  {
  }

  /** The numbers of the events that are billed by footprint, or at their own cost. */
  function LitEvents(c: MeterConfig, reports: seq<Report>, lit: bool): set<int> {
    set i | 0 <= i < |reports| && (c.onlySuccess ==> reports[i].event.status == SUCCESS)
            && (lit <==> Lit(c, reports[i].event) > 0.0)
  }

  lemma {:induction false} OneMoreEvent(c: MeterConfig, reports: seq<Report>, lit: bool)
    requires reports != []
    ensures var n := |reports| - 1; var e := reports[n].event;
            |LitEvents(c, reports, lit)| == |LitEvents(c, reports[..n], lit)|
              + if (c.onlySuccess ==> e.status == SUCCESS) && (lit <==> Lit(c, e) > 0.0) then 1 else 0
  {
    var n := |reports| - 1;
    var before := LitEvents(c, reports[..n], lit);
    assert LitEvents(c, reports, lit)
        == if (c.onlySuccess ==> reports[n].event.status == SUCCESS) && (lit <==> Lit(c, reports[n].event) > 0.0)
           then before + {n} else before;
  }

  /** Over every run the meter counts the events it bills by footprint, and those it bills at their own cost. */
  lemma {:induction false} BothKindsAreCounted(c: MeterConfig, m: MeterState, reports: seq<Report>)
    ensures var n := MeterRun(c, m, reports);
            && n.estimated == m.estimated + |LitEvents(c, reports, true)|
            && n.fallback == m.fallback + |LitEvents(c, reports, false)|
  {
    if reports != [] {
      BothKindsAreCounted(c, m, reports[..|reports| - 1]);
      OneMoreEvent(c, reports, true);
      OneMoreEvent(c, reports, false);
    }
  }
}
