/** The meter: dispatch outcomes turned into occurrences on a tenant's allowance. */
module Metering {
  import opened Text
  import opened Money
  import opened Schema
  import opened Ledger
  import opened Pricing
  import opened Allowance

  const MODEL_PARAMS := 7000000000.0

  /** How unknown tenants get an account. */
  datatype StoreConfig = StoreConfig(book: PricingBook, defaultTier: PlanTier, maxOccurrences: Option<real>)

  /** `estimator` overrides the persona estimate; `None` is the default one. */
  datatype MeterConfig = MeterConfig(
    store: StoreConfig, tenantId: string, personasPerDispatch: real, estimator: Option<DispatchEvent -> Option<real>>,
    provider: string, model: string, minDurationSec: real, onlySuccess: bool)

  datatype MeterState = MeterState(accounts: map<string, Account>, metered: nat, skipped: nat, estimated: nat,
                                   fallback: nat, rejected: nat, attributed: int)

  /** `normalizeTenant`: trimmed, and "demo" when nothing is left. */
  function NormalTenant(id: string): string { TrimOr(id, "demo") }

  function AccountOf(c: StoreConfig, accounts: map<string, Account>, id: string): Account {
    if id in accounts then accounts[id] else NewAccount(c.defaultTier, None, Unset, c.maxOccurrences)
  }

  function KindFor(destination: AgentRole): OccurrenceKind {
    if destination.DREAM? then SIMULATION else if destination.VISION? then EXECUTION else DISPATCH
  }

  /** Personas a dispatch is taken to have lit up: the ephemeral agents, DREAM and VISION, light some. */
  function Personas(c: MeterConfig, e: DispatchEvent): real {
    match c.estimator
    case Some(f) => if f(e).Some? then f(e).value else 0.0
    case None => if e.status.SUCCESS? && (e.destination.DREAM? || e.destination.VISION?) then c.personasPerDispatch
        else 0.0
  }

  /** The occurrence an event is billed as: by footprint when personas are known, else at the dispatch's own cost. */
  function Occurrence(c: MeterConfig, e: DispatchEvent, at: int): ConsumeInput {
    var personas := Personas(c, e);
    if personas > 0.0 then
      ConsumeInput(at, Round(personas * MODEL_PARAMS) as real, MaxReal(e.durationMs / 1000.0, c.minDurationSec),
                   Some(KindFor(e.destination)), Some(c.provider), Some(c.model), false, None)
    else
      ConsumeInput(at, 0.0, 0.0, Some(KindFor(e.destination)), Some(c.provider), Some(c.model), false, Some(e.cost))
  }

  predicate Skips(c: MeterConfig, e: DispatchEvent) { c.onlySuccess && !e.status.SUCCESS? }

  /** The record an event leaves on the tenant's account, if it is metered. */
  function Billed(c: MeterConfig, m: MeterState, e: DispatchEvent, at: int): OccurrenceRecord {
    Priced(c.store.book, AccountOf(c.store, m.accounts, NormalTenant(c.tenantId)), Occurrence(c, e, at))
  }

  /** The counters after billing one occurrence, given the accounts after it. */
  function Tallied(m: MeterState, accounts: map<string, Account>, rec: OccurrenceRecord, byPersonas: bool): MeterState {
    MeterState(accounts, m.metered + 1, m.skipped,
               if byPersonas then m.estimated + 1 else m.estimated, if byPersonas then m.fallback else m.fallback + 1,
               if rec.accepted then m.rejected else m.rejected + 1,
               if rec.accepted then m.attributed + rec.cost else m.attributed)
  }

  /** The meter after putting one occurrence on a tenant's account. */
  function Charged(c: StoreConfig, m: MeterState, tenant: string, input: ConsumeInput, byPersonas: bool): MeterState {
    var account := AccountOf(c, m.accounts, NormalTenant(tenant));
    Tallied(m, m.accounts[NormalTenant(tenant) := Consumed(c.book, account, input)], Priced(c.book, account, input),
            byPersonas)
  }

  function Metered(c: MeterConfig, m: MeterState, e: DispatchEvent, at: int): MeterState {
    if Skips(c, e) then m.(skipped := m.skipped + 1)
    else Charged(c.store, m, c.tenantId, Occurrence(c, e, at), Personas(c, e) > 0.0)
  }

  lemma {:induction false} UpdatedOne<K, V>(m: map<K, V>, n: map<K, V>, k: K, v: V)
    requires n.Keys == m.Keys + {k} && n[k] == v && forall i | i in m && i != k :: n[i] == m[i]
    ensures n == m[k := v]
  {
  }

  lemma {:induction false} Overwritten<K, V>(m: map<K, V>, k: K, v: V, w: V)
    ensures m[k := v][k] == v && m[k := v][k := w] == m[k := w]
  {
  }

  class AllowanceStore {
    const config: StoreConfig
    var accounts: map<string, AllowanceAccount>

    /** Each tenant has an account object of its own, priced by the store's book. */
    ghost predicate Valid()
      reads this, accounts.Values
    {
      && (forall i, j | i in accounts && j in accounts && i != j :: accounts[i] != accounts[j])
      && (forall i | i in accounts ::
            accounts[i].book == config.book && |accounts[i].log| <= accounts[i].maxOccurrences)
    }

    ghost function State(): map<string, Account>
      reads this, accounts.Values
    {
      map i | i in accounts :: accounts[i].State()
    }

    constructor (config: StoreConfig)
      ensures Valid() && State() == map[] && accounts == map[] && this.config == config
    {
      this.config, accounts := config, map[];
    }

    /** The tenant's account, created on the default tier when there is none. */
    method AccountFor(id: string) returns (a: AllowanceAccount)
      requires Valid()
      modifies this
      ensures Valid() && NormalTenant(id) in accounts && a == accounts[NormalTenant(id)]
      ensures NormalTenant(id) in old(accounts) ==> accounts == old(accounts)
      ensures NormalTenant(id) !in old(accounts) ==> fresh(a) && accounts == old(accounts)[NormalTenant(id) := a]
      ensures State() == old(State())[NormalTenant(id) := AccountOf(config, old(State()), NormalTenant(id))]
    {
      var key := NormalTenant(id);
      if key in accounts {
        a := accounts[key];
      } else {
        a := new AllowanceAccount(config.defaultTier, config.book, None, Unset, config.maxOccurrences);
        accounts := accounts[key := a];
      }
    }

    method Charge(key: string, input: ConsumeInput) returns (rec: OccurrenceRecord)
      requires Valid() && key in accounts
      modifies accounts.Values
      ensures Valid() && accounts == old(accounts)
      ensures rec == Priced(config.book, old(State())[key], input)
      ensures State() == old(State())[key := Consumed(config.book, old(State())[key], input)]
    {
      var a := accounts[key];
      rec := a.Consume(input);
      UpdatedOne(old(State()), State(), key, a.State());
    }

    method Consume(tenant: string, input: ConsumeInput) returns (rec: OccurrenceRecord)
      requires Valid()
      modifies this, accounts.Values
      ensures Valid() && fresh(accounts.Values - old(accounts.Values))
      ensures var account := AccountOf(config, old(State()), NormalTenant(tenant));
              rec == Priced(config.book, account, input)
              && State() == old(State())[NormalTenant(tenant) := Consumed(config.book, account, input)]
    {
      var key := NormalTenant(tenant);
      ghost var account := AccountOf(config, State(), key);
      var a := AccountFor(tenant);
      assert State()[key] == account;
      rec := Charge(key, input);
      Overwritten(old(State()), key, account, Consumed(config.book, account, input));
    }
  }

  class MeterService {
    const config: MeterConfig
    const store: AllowanceStore
    var metered: nat
    var skipped: nat
    var estimated: nat
    var fallback: nat
    var rejected: nat
    var attributed: int

    ghost predicate Valid()
      reads this, store, store.accounts.Values
    {
      store.config == config.store && store.Valid()
    }

    ghost function State(): MeterState
      reads this, store, store.accounts.Values
    {
      MeterState(store.State(), metered, skipped, estimated, fallback, rejected, attributed)
    }

    constructor (config: MeterConfig, store: AllowanceStore)
      requires store.config == config.store && store.Valid()
      ensures Valid() && State() == MeterState(store.State(), 0, 0, 0, 0, 0, 0)
      ensures this.config == config && this.store == store
    {
      this.config, this.store := config, store;
      metered, skipped, estimated, fallback, rejected, attributed := 0, 0, 0, 0, 0, 0;
    }

    method Observe(e: DispatchEvent, at: int)
      requires Valid()
      modifies this, store, store.accounts.Values
      ensures Valid() && fresh(store.accounts.Values - old(store.accounts.Values))
      ensures State() == Metered(config, old(State()), e, at)
    {
      if config.onlySuccess && !e.status.SUCCESS? {
        skipped := skipped + 1;
        return;
      }
      var personas := Personas(config, e);
      Charge(Occurrence(config, e, at), personas > 0.0);
    }

    method Charge(input: ConsumeInput, byPersonas: bool)
      requires Valid()
      modifies this, store, store.accounts.Values
      ensures Valid() && fresh(store.accounts.Values - old(store.accounts.Values))
      ensures State() == Charged(config.store, old(State()), config.tenantId, input, byPersonas)
    {
      ghost var before := State();
      var rec := store.Consume(config.tenantId, input);
      assert State() == before.(accounts := store.State());
      assert Charged(config.store, before, config.tenantId, input, byPersonas)
          == Tallied(before, store.State(), rec, byPersonas);
      Tally(rec, byPersonas);
    }

    method Tally(rec: OccurrenceRecord, byPersonas: bool)
      requires Valid()
      modifies this
      ensures Valid() && State() == Tallied(old(State()), store.State(), rec, byPersonas)
    {
      if byPersonas {
        estimated := estimated + 1;
      } else {
        fallback := fallback + 1;
      }
      metered := metered + 1;
      if rec.accepted {
        attributed := attributed + rec.cost;
      } else {
        rejected := rejected + 1;
      }
    }
  }

  // ---------- conservation over a run of events ----------

  datatype Report = Report(event: DispatchEvent, at: int)

  function MeterRun(c: MeterConfig, m: MeterState, reports: seq<Report>): MeterState {
    if reports == [] then m
    else
      var last := reports[|reports| - 1];
      Metered(c, MeterRun(c, m, reports[..|reports| - 1]), last.event, last.at)
  }

  /** The records the run leaves on the tenant's account, oldest first. */
  function BilledRun(c: MeterConfig, m: MeterState, reports: seq<Report>): seq<OccurrenceRecord> {
    if reports == [] then []
    else
      var front, last := reports[..|reports| - 1], reports[|reports| - 1];
      BilledRun(c, m, front) + (if Skips(c, last.event) then []
                                else [Billed(c, MeterRun(c, m, front), last.event, last.at)])
  }

  function CountStatus(reports: seq<Report>, status: Status): nat {
    if reports == [] then 0
    else
      CountStatus(reports[..|reports| - 1], status)
      + if reports[|reports| - 1].event.status == status then 1 else 0
  }

  function Spend(c: MeterConfig, m: MeterState): int {
    AccountOf(c.store, m.accounts, NormalTenant(c.tenantId)).spent
  }

  /** What the counters of a meter add up to, relative to where they started. */
  ghost predicate CountersAddUp(c: MeterConfig, m: MeterState, reports: seq<Report>, n: MeterState,
                                billed: seq<OccurrenceRecord>) {
    && n.metered + n.skipped == m.metered + m.skipped + |reports|
    && (n.estimated + n.fallback) - (m.estimated + m.fallback) == n.metered - m.metered == |billed|
    && (c.onlySuccess ==> n.metered == m.metered + CountStatus(reports, SUCCESS))
    && n.rejected - m.rejected == |billed| - CountAccepted(billed, None)
    && n.attributed - m.attributed == AcceptedCost(billed)
    && Spend(c, n) - Spend(c, m) == AcceptedCost(billed)
  }

  /** One more event keeps the sums: skipped, or billed as one more record. */
  lemma {:induction false} MeteredStep(c: MeterConfig, m: MeterState, e: DispatchEvent, at: int)
    ensures var n := Metered(c, m, e, at); var rec := Billed(c, m, e, at);
            if Skips(c, e) then n == m.(skipped := m.skipped + 1)
            else
              && n.metered == m.metered + 1 && n.skipped == m.skipped
              && n.estimated + n.fallback == m.estimated + m.fallback + 1
              && n.rejected == m.rejected + (if rec.accepted then 0 else 1)
              && n.attributed == m.attributed + (if rec.accepted then rec.cost else 0)
              && Spend(c, n) == Spend(c, m) + (if rec.accepted then rec.cost else 0)
  {
  }

  /**
   Over every run of events: each is metered or skipped, once; with the default filter the metered ones
   are exactly the successes; every metered one is accepted or rejected, once; and what the meter
   attributes is what the tenant's spend grew by, on any tier.
   */
  lemma {:induction false} MeterConserves(c: MeterConfig, m: MeterState, reports: seq<Report>)
    ensures CountersAddUp(c, m, reports, MeterRun(c, m, reports), BilledRun(c, m, reports))
  {
    if reports != [] {
      var front, last := reports[..|reports| - 1], reports[|reports| - 1];
      MeterConserves(c, m, front);
      var before, billed := MeterRun(c, m, front), BilledRun(c, m, front);
      MeteredStep(c, before, last.event, last.at);
      if Skips(c, last.event) {
        assert billed + [] == billed;
      } else {
        HistoryStep(billed, Billed(c, before, last.event, last.at), None);
      }
    }
  }

  // ---------- the ledger's cost of what is billed ----------

  /** The ledger's cost of the events that are not skipped; with the default filter, of the successes. */
  function LedgerCost(c: MeterConfig, reports: seq<Report>): int {
    if reports == [] then 0
    else
      var e := reports[|reports| - 1].event;
      LedgerCost(c, reports[..|reports| - 1]) + if Skips(c, e) then 0 else Round(e.cost)
  }

  /** Whether an event is billed by its footprint; any other that is billed is billed at its own cost. */
  predicate ByFootprint(c: MeterConfig, e: DispatchEvent) { !Skips(c, e) && Personas(c, e) > 0.0 }

  predicate AtOwnCost(c: MeterConfig, e: DispatchEvent) { !Skips(c, e) && Personas(c, e) <= 0.0 }

  /** The ledger's cost of what is billed by footprint. */
  function FootprintCost(c: MeterConfig, reports: seq<Report>): int {
    if reports == [] then 0
    else
      var e := reports[|reports| - 1].event;
      FootprintCost(c, reports[..|reports| - 1]) + if ByFootprint(c, e) then Round(e.cost) else 0
  }

  /** The account's cost, accepted or rejected, of what is billed at its own cost. */
  function OwnCost(c: MeterConfig, m: MeterState, reports: seq<Report>): int {
    if reports == [] then 0
    else
      var front, last := reports[..|reports| - 1], reports[|reports| - 1];
      OwnCost(c, m, front)
      + if AtOwnCost(c, last.event) then Billed(c, MeterRun(c, m, front), last.event, last.at).cost else 0
  }

  /** The tenant is on a tier the platform bills. */
  predicate PlatformBilled(c: MeterConfig, m: MeterState) {
    !c.store.book(AccountOf(c.store, m.accounts, NormalTenant(c.tenantId)).tier).byokPassthrough
  }

  predicate NoNegativeOwnCost(c: MeterConfig, reports: seq<Report>) {
    forall i | 0 <= i < |reports| && AtOwnCost(c, reports[i].event) :: Round(reports[i].event.cost) >= 0
  }

  lemma {:induction false} TierStays(c: MeterConfig, m: MeterState, reports: seq<Report>)
    requires PlatformBilled(c, m)
    ensures PlatformBilled(c, MeterRun(c, m, reports))
  {
    if reports != [] {
      TierStays(c, m, reports[..|reports| - 1]);
    }
  }

  lemma {:induction false} FallbackRecordCost(c: MeterConfig, m: MeterState, e: DispatchEvent, at: int)
    requires PlatformBilled(c, m) && AtOwnCost(c, e)
    ensures var cost := Billed(c, m, e, at).cost;
            cost == (if Round(e.cost) >= 0 then Round(e.cost) else 0) && Round(e.cost) <= cost
  {
    RoundWhole(0);
    if e.cost >= 0.0 {
      RoundMonotone(0.0, e.cost);
    } else {
      RoundMonotone(e.cost, 0.0);
    }
  }

  /** How far the account's costs are above the ledger's: by nothing exactly when no cost was read as nothing. */
  lemma {:induction false} FloorGap(c: MeterConfig, m: MeterState, reports: seq<Report>)
    requires PlatformBilled(c, m)
    ensures LedgerCost(c, reports) <= OwnCost(c, m, reports) + FootprintCost(c, reports)
    ensures LedgerCost(c, reports) == OwnCost(c, m, reports) + FootprintCost(c, reports)
        <==> NoNegativeOwnCost(c, reports)
  {
    if reports != [] {
      var n := |reports| - 1;
      FloorGap(c, m, reports[..n]);
      TierStays(c, m, reports[..n]);
      if AtOwnCost(c, reports[n].event) {
        FallbackRecordCost(c, MeterRun(c, m, reports[..n]), reports[n].event, reports[n].at);
      }
      NoNegativeStep(c, reports);
    }
  }

  lemma {:induction false} NoNegativeStep(c: MeterConfig, reports: seq<Report>)
    requires reports != []
    ensures var n := |reports| - 1;
            NoNegativeOwnCost(c, reports) <==>
              NoNegativeOwnCost(c, reports[..n])
              && (AtOwnCost(c, reports[n].event) ==> Round(reports[n].event.cost) >= 0)
  {
    var n := |reports| - 1;
    assert forall i | 0 <= i < n :: reports[..n][i] == reports[i];
  }

  /**
   Where the ledger's cost goes: to what the account charged or rejected for the events billed at their own cost, and
   to the events billed by footprint instead. It adds up exactly when no event billed at its own cost has a negative
   one: the ledger keeps it and the account reads it as nothing.
   */
  lemma {:induction false} FallbackConserves(c: MeterConfig, m: MeterState, reports: seq<Report>)
    requires PlatformBilled(c, m)
    ensures LedgerCost(c, reports) == OwnCost(c, m, reports) + FootprintCost(c, reports)
        <==> NoNegativeOwnCost(c, reports)
  {
    FloorGap(c, m, reports);
  }

  predicate AllAtOwnCost(c: MeterConfig, reports: seq<Report>) {
    forall i | 0 <= i < |reports| :: !ByFootprint(c, reports[i].event)
  }

  /** In a run without ephemeral successes everything billed is billed at its own cost. */
  lemma {:induction false} AllFallback(c: MeterConfig, m: MeterState, reports: seq<Report>)
    requires AllAtOwnCost(c, reports)
    ensures FootprintCost(c, reports) == 0
    ensures OwnCost(c, m, reports)
         == MeterRun(c, m, reports).attributed - m.attributed + RejectedCost(BilledRun(c, m, reports))
  {
    MeterConserves(c, m, reports);
    OwnCostIsBilled(c, m, reports);
  }

  lemma {:induction false} OwnCostIsBilled(c: MeterConfig, m: MeterState, reports: seq<Report>)
    requires AllAtOwnCost(c, reports)
    ensures FootprintCost(c, reports) == 0
    ensures var billed := BilledRun(c, m, reports);
            OwnCost(c, m, reports) == AcceptedCost(billed) + RejectedCost(billed)
  {
    if reports != [] {
      var front, last := reports[..|reports| - 1], reports[|reports| - 1];
      assert forall i | 0 <= i < |front| :: front[i] == reports[i];
      OwnCostIsBilled(c, m, front);
      var billed := BilledRun(c, m, front);
      if Skips(c, last.event) {
        assert billed + [] == billed;
      } else {
        HistoryStep(billed, Billed(c, MeterRun(c, m, front), last.event, last.at), None);
      }
    }
  }

  /** One success dispatched at a cost of minus one micro-USD: the ledger keeps it, the account charges nothing. */
  lemma {:induction false} NegativeCostLeaks(c: MeterConfig, m: MeterState, e: DispatchEvent, at: int)
    requires PlatformBilled(c, m) && e.status.SUCCESS? && Personas(c, e) <= 0.0 && e.cost == -1.0
    ensures var reports := [Report(e, at)];
            LedgerCost(c, reports) == -1 && OwnCost(c, m, reports) == 0 && FootprintCost(c, reports) == 0
  {
    var reports := [Report(e, at)];
    assert reports[..0] == [];
    RoundWhole(-1);
    FallbackRecordCost(c, m, e, at);
    assert MeterRun(c, m, reports[..0]) == m;
  }
}
