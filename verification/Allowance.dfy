/** Per-tenant allowance accounts: pricing, the hard cap, the counters and the bounded occurrence log. */
module Allowance {
  import opened Text
  import opened Money
  import opened Pricing

  datatype OccurrenceKind = DISPATCH | SIMULATION | EXECUTION | ESTIMATE | MANUAL | BYOK_PASSTHROUGH

  datatype OccurrenceRecord = OccurrenceRecord(
    at: int, kind: OccurrenceKind, activeParams: int, durationSec: real, activeParamSeconds: real,
    cost: int, rate: RateApplied, provider: string, model: string, accepted: bool)

  datatype ConsumeInput = ConsumeInput(
    at: int, activeParams: real, durationSec: real, kind: Option<OccurrenceKind>, provider: Option<string>,
    model: Option<string>, byokPassthrough: bool, costOverride: Option<real>)

  /** A cap setting: not given, unlimited, or an amount. */
  datatype CapSetting = Unset | Unlimited | Cap(amount: real)

  datatype SetAllowanceInput = SetAllowanceInput(tier: Option<PlanTier>, included: Option<real>, hardCap: CapSetting)

  const DEFAULT_MAX_OCCURRENCES := 1000

  datatype Account = Account(
    tier: PlanTier, includedOverride: Option<real>, hardCapOverride: CapSetting, maxOccurrences: nat,
    spent: int, acceptedCount: nat, rejectedCount: nat, totalActiveParamSeconds: real,
    byKind: map<OccurrenceKind, nat>, log: seq<OccurrenceRecord>)

  /** `Math.max(0, amount)` on an explicit cap; "unlimited" and "not given" pass through. */
  function NormalCap(c: CapSetting): CapSetting {
    if c.Cap? then Cap(MaxReal(0.0, c.amount)) else c
  }

  function NormalIncluded(i: Option<real>): Option<real> {
    if i.Some? then Some(MaxReal(0.0, i.value)) else None
  }

  /** A new account; a size option that is missing or not positive falls back to the default. */
  function NewAccount(tier: PlanTier, included: Option<real>, hardCap: CapSetting,
                      maxOccurrences: Option<real>): Account {
    var max := if maxOccurrences.Some? && maxOccurrences.value > 0.0 then maxOccurrences.value.Floor
        else DEFAULT_MAX_OCCURRENCES;
    Account(tier, NormalIncluded(included), NormalCap(hardCap), max, 0, 0, 0, 0.0, map[], [])
  }

  function IncludedAllowance(book: PricingBook, a: Account): real {
    if a.includedOverride.Some? then a.includedOverride.value else book(a.tier).includedAllowance
  }

  function HardCap(book: PricingBook, a: Account): Option<real> {
    match a.hardCapOverride
    case Unset => book(a.tier).hardCap
    case Unlimited => None
    case Cap(amount) => Some(amount)
  }

  /** The tolerance `1e-9` USD, in micro-USD. */
  const TOLERANCE := 0.001

  predicate OverCap(cap: Option<real>, projected: int) {
    cap.Some? && projected as real > cap.value + TOLERANCE
  }

  function KindCount(m: map<OccurrenceKind, nat>, k: OccurrenceKind): nat {
    if k in m then m[k] else 0
  }

  /** The last `n` elements: what a push-then-shift ring buffer of size `n` retains. */
  function LastN<T>(s: seq<T>, n: nat): seq<T> {
    if |s| <= n then s else s[|s| - n..]
  }

  function Recorded(a: Account, rec: OccurrenceRecord): Account {
    var b := a.(log := LastN(a.log + [rec], a.maxOccurrences));
    if rec.accepted then
      b.(acceptedCount := a.acceptedCount + 1,
         totalActiveParamSeconds := a.totalActiveParamSeconds + rec.activeParamSeconds,
         byKind := a.byKind[rec.kind := KindCount(a.byKind, rec.kind) + 1])
    else b.(rejectedCount := a.rejectedCount + 1)
  }

  /** `(given ?? fallback).trim() || fallback`. */
  function Label(given: Option<string>, fallback: string): string {
    TrimOr(if given.Some? then given.value else fallback, fallback)
  }

  /** The record one `consume` produces; whether it is accepted is part of it. */
  function Priced(book: PricingBook, a: Account, input: ConsumeInput): OccurrenceRecord {
    var p := book(a.tier);
    var e := EstimateCost(p, input.activeParams, input.durationSec, a.spent);
    var kind := if input.kind.Some? then input.kind.value else DISPATCH;
    var provider := Label(input.provider, "big5-matrix");
    var model := Label(input.model, "unknown");
    var rec := OccurrenceRecord(input.at, kind, e.activeParams, e.durationSec, e.activeParamSeconds,
                                e.cost, e.rate, provider, model, true);
    if p.byokPassthrough then
      rec.(kind := BYOK_PASSTHROUGH, cost := Round(p.passthroughFee), rate := ByokRate)
    else if input.byokPassthrough then
      rec.(cost := 0, rate := ByokRate)
    else
      var cost := if input.costOverride.Some? then Round(MaxReal(0.0, input.costOverride.value)) else e.cost;
      rec.(cost := cost, rate := if input.costOverride.Some? then Included else e.rate,
           accepted := !OverCap(HardCap(book, a), a.spent + cost))
  }

  function Consumed(book: PricingBook, a: Account, input: ConsumeInput): Account {
    var rec := Priced(book, a, input);
    Recorded(a, rec).(spent := if rec.accepted then a.spent + rec.cost else a.spent)
  }

  function Adjusted(a: Account, input: SetAllowanceInput): Account {
    var b := if input.tier.Some? then a.(tier := input.tier.value, includedOverride := None, hardCapOverride := Unset)
        else a;
    var c := if input.included.Some? then b.(includedOverride := NormalIncluded(input.included)) else b;
    if input.hardCap.Unset? then c else c.(hardCapOverride := NormalCap(input.hardCap))
  }

  // ---------- the mutable account ----------

  class AllowanceAccount {
    const book: PricingBook
    const maxOccurrences: nat
    var tier: PlanTier
    var includedOverride: Option<real>
    var hardCapOverride: CapSetting
    var spent: int
    var acceptedCount: nat
    var rejectedCount: nat
    var totalActiveParamSeconds: real
    var byKind: map<OccurrenceKind, nat>
    var log: seq<OccurrenceRecord>

    ghost function State(): Account
      reads this
    {
      Account(tier, includedOverride, hardCapOverride, maxOccurrences, spent, acceptedCount, rejectedCount,
              totalActiveParamSeconds, byKind, log)
    }

    constructor (tier: PlanTier, book: PricingBook, included: Option<real>, hardCap: CapSetting,
                 maxOccurrences: Option<real>)
      ensures State() == NewAccount(tier, included, hardCap, maxOccurrences) && this.book == book
    {
      this.book := book;
      this.tier := tier;
      this.maxOccurrences :=
        if maxOccurrences.Some? && maxOccurrences.value > 0.0 then maxOccurrences.value.Floor
            else DEFAULT_MAX_OCCURRENCES;
      this.includedOverride := NormalIncluded(included);
      this.hardCapOverride := NormalCap(hardCap);
      spent, acceptedCount, rejectedCount, totalActiveParamSeconds := 0, 0, 0, 0.0;
      byKind, log := map[], [];
    }

    method SetAllowance(input: SetAllowanceInput)
      modifies this
      ensures State() == Adjusted(old(State()), input)
    {
      if input.tier.Some? {
        tier := input.tier.value;
        includedOverride := None;
        hardCapOverride := Unset;
      }
      if input.included.Some? {
        includedOverride := Some(MaxReal(0.0, input.included.value));
      }
      if !input.hardCap.Unset? {
        hardCapOverride := NormalCap(input.hardCap);
      }
    }

    /** Push, then drop the oldest record when the log is over its size; bump the counters. */
    method Record(rec: OccurrenceRecord)
      requires |log| <= maxOccurrences
      modifies this
      ensures |log| <= maxOccurrences && State() == Recorded(old(State()), rec)
    {
      log := log + [rec];
      if |log| > maxOccurrences {
        log := log[1..];
      }
      if rec.accepted {
        acceptedCount := acceptedCount + 1;
        totalActiveParamSeconds := totalActiveParamSeconds + rec.activeParamSeconds;
        byKind := byKind[rec.kind := (if rec.kind in byKind then byKind[rec.kind] else 0) + 1];
      } else {
        rejectedCount := rejectedCount + 1;
      }
    }

    method Consume(input: ConsumeInput) returns (rec: OccurrenceRecord)
      requires |log| <= maxOccurrences
      modifies this
      ensures |log| <= maxOccurrences
      ensures rec == Priced(book, old(State()), input)
      ensures State() == Consumed(book, old(State()), input)
    {
      var kind := if input.kind.Some? then input.kind.value else DISPATCH;
      var provider := Label(input.provider, "big5-matrix");
      var model := Label(input.model, "unknown");
      var pricing := book(tier);
      var byok := pricing.byokPassthrough || input.byokPassthrough;
      var e := EstimateCost(pricing, input.activeParams, input.durationSec, spent);
      if byok {
        var fee := if pricing.byokPassthrough then Round(pricing.passthroughFee) else 0;
        rec := OccurrenceRecord(input.at, if pricing.byokPassthrough then BYOK_PASSTHROUGH else kind,
                                e.activeParams, e.durationSec, e.activeParamSeconds, fee, ByokRate, provider, model,
                                true);
        Record(rec);
        spent := spent + fee;
        return;
      }
      var cost := if input.costOverride.Some? then Round(MaxReal(0.0, input.costOverride.value)) else e.cost;
      var rate := if input.costOverride.Some? then Included else e.rate;
      var cap := match hardCapOverride case Unset => pricing.hardCap case Unlimited => None case Cap(c) => Some(c);
      var projected := spent + cost;
      rec := OccurrenceRecord(input.at, kind, e.activeParams, e.durationSec, e.activeParamSeconds, cost, rate,
                              provider, model, true);
      if cap.Some? && projected as real > cap.value + TOLERANCE {
        rec := rec.(accepted := false);
        Record(rec);
        return;
      }
      Record(rec);
      spent := projected;
    }

    /** Newest first, at most `limit` of them when a positive limit is given. */
    method Occurrences(limit: Option<real>) returns (r: seq<OccurrenceRecord>)
      ensures |r| == if limit.Some? && limit.value > 0.0 && limit.value.Floor < |log| then limit.value.Floor else |log|
      ensures forall i | 0 <= i < |r| :: r[i] == log[|log| - 1 - i]
    {
      r := [];
      var i := |log|;
      while i > 0
        invariant 0 <= i <= |log| && |r| == |log| - i
        invariant forall j | 0 <= j < |r| :: r[j] == log[|log| - 1 - j]
      {
        i := i - 1;
        r := r + [log[i]];
      }
      if limit.Some? && limit.value > 0.0 && limit.value.Floor < |r| {
        r := r[..limit.value.Floor];
      }
    }
  }

  // ---------- runs ----------

  datatype Op = Consume(input: ConsumeInput) | SetAllowance(change: SetAllowanceInput)

  /** The account after a run of operations. */
  function Run(book: PricingBook, a: Account, ops: seq<Op>): Account {
    if ops == [] then a
    else
      var before := Run(book, a, ops[..|ops| - 1]);
      match ops[|ops| - 1]
      case Consume(input) => Consumed(book, before, input)
      case SetAllowance(change) => Adjusted(before, change)
  }

  /** Every record the run produced, accepted or not, oldest first: the full history. */
  function History(book: PricingBook, a: Account, ops: seq<Op>): seq<OccurrenceRecord> {
    if ops == [] then []
    else
      var front := ops[..|ops| - 1];
      match ops[|ops| - 1]
      case Consume(input) => History(book, a, front) + [Priced(book, Run(book, a, front), input)]
      case SetAllowance(_) => History(book, a, front)
  }

  function AcceptedCost(records: seq<OccurrenceRecord>): int {
    if records == [] then 0
    else
      var r := records[|records| - 1];
      AcceptedCost(records[..|records| - 1]) + (if r.accepted then r.cost else 0)
  }

  function RejectedCost(records: seq<OccurrenceRecord>): int {
    if records == [] then 0
    else
      var r := records[|records| - 1];
      RejectedCost(records[..|records| - 1]) + (if r.accepted then 0 else r.cost)
  }

  /** How many accepted records there are, of one kind or of any. */
  function CountAccepted(records: seq<OccurrenceRecord>, kind: Option<OccurrenceKind>): nat {
    if records == [] then 0
    else
      var r := records[|records| - 1];
      CountAccepted(records[..|records| - 1], kind)
      + if r.accepted && (kind.None? || kind.value == r.kind) then 1 else 0
  }

  function SumKinds(m: map<OccurrenceKind, nat>): nat {
    KindCount(m, DISPATCH) + KindCount(m, SIMULATION) + KindCount(m, EXECUTION)
    + KindCount(m, ESTIMATE) + KindCount(m, MANUAL) + KindCount(m, BYOK_PASSTHROUGH)
  }

  lemma {:induction false} LastNAppend<T>(s: seq<T>, x: T, n: nat)
    ensures LastN(LastN(s, n) + [x], n) == LastN(s + [x], n)
  {
  }

  lemma {:induction false} SumKindsBump(m: map<OccurrenceKind, nat>, k: OccurrenceKind)
    ensures SumKinds(m[k := KindCount(m, k) + 1]) == SumKinds(m) + 1
  {
  }

  /** What one more record does to the sums over a history. */
  lemma {:induction false} HistoryStep(h: seq<OccurrenceRecord>, rec: OccurrenceRecord, kind: Option<OccurrenceKind>)
    ensures AcceptedCost(h + [rec]) == AcceptedCost(h) + (if rec.accepted then rec.cost else 0)
    ensures RejectedCost(h + [rec]) == RejectedCost(h) + (if rec.accepted then 0 else rec.cost)
    ensures CountAccepted(h + [rec], kind)
         == CountAccepted(h, kind) + (if rec.accepted && (kind.None? || kind.value == rec.kind) then 1 else 0)
  {
    assert (h + [rec])[..|h|] == h;
  }

  /** The account facts every run keeps, for a history that starts from account `a`. */
  ghost predicate Balanced(a: Account, h: seq<OccurrenceRecord>, b: Account) {
    && b.spent == a.spent + AcceptedCost(h)
    && b.acceptedCount + b.rejectedCount == a.acceptedCount + a.rejectedCount + |h|
    && b.acceptedCount == a.acceptedCount + CountAccepted(h, None)
    && SumKinds(b.byKind) == SumKinds(a.byKind) + CountAccepted(h, None)
    && b.maxOccurrences == a.maxOccurrences
    && b.log == LastN(a.log + h, a.maxOccurrences)
  }

  lemma {:induction false} ConsumeKeepsBalance(book: PricingBook, a: Account, h: seq<OccurrenceRecord>, b: Account,
                                               input: ConsumeInput)
    requires Balanced(a, h, b)
    ensures Balanced(a, h + [Priced(book, b, input)], Consumed(book, b, input))
  {
    var rec := Priced(book, b, input);
    HistoryStep(h, rec, None);
    SumKindsBump(b.byKind, rec.kind);
    LastNAppend(a.log + h, rec, a.maxOccurrences);
    AppendAssociative(a.log, h, rec);
  }

  lemma {:induction false} AppendAssociative<T>(a: seq<T>, b: seq<T>, x: T)
    ensures a + b + [x] == a + (b + [x])
  {
  }

  /**
   Over every run of `consume` and `setAllowance`: spend is the sum of the accepted costs, every call
   is counted once as accepted or rejected, the per-kind counts add up to the accepted count, and the
   log is exactly the most recent records of the full history.
   */
  lemma {:induction false} RunAccounts(book: PricingBook, a: Account, ops: seq<Op>)
    requires |a.log| <= a.maxOccurrences
    ensures Balanced(a, History(book, a, ops), Run(book, a, ops))
  {
    if ops == [] {
      assert a.log + [] == a.log;
    } else {
      var front := ops[..|ops| - 1];
      RunAccounts(book, a, front);
      match ops[|ops| - 1]
      case SetAllowance(_) =>
      case Consume(input) => ConsumeKeepsBalance(book, a, History(book, a, front), Run(book, a, front), input);
    }
  }

  ghost predicate KindCounted(a: Account, h: seq<OccurrenceRecord>, b: Account, kind: OccurrenceKind) {
    KindCount(b.byKind, kind) == KindCount(a.byKind, kind) + CountAccepted(h, Some(kind))
  }

  lemma {:induction false} ConsumeKeepsKinds(book: PricingBook, a: Account, h: seq<OccurrenceRecord>, b: Account,
                                             input: ConsumeInput, kind: OccurrenceKind)
    requires KindCounted(a, h, b, kind)
    ensures KindCounted(a, h + [Priced(book, b, input)], Consumed(book, b, input), kind)
  {
    HistoryStep(h, Priced(book, b, input), Some(kind));
  }

  /** Each kind's count is the number of accepted records of that kind. */
  lemma {:induction false} RunCountsKinds(book: PricingBook, a: Account, ops: seq<Op>, kind: OccurrenceKind)
    ensures KindCounted(a, History(book, a, ops), Run(book, a, ops), kind)
  {
    if ops != [] {
      var front := ops[..|ops| - 1];
      RunCountsKinds(book, a, front, kind);
      match ops[|ops| - 1]
      case SetAllowance(_) =>
      case Consume(input) => ConsumeKeepsKinds(book, a, History(book, a, front), Run(book, a, front), input, kind);
    }
  }

  /** The largest whole spend an amount admits. */
  function CapFloor(cap: real): int { (cap + TOLERANCE).Floor }

  /**
   The hard cap holds over every run: on a tier that is not pass-through, spend never ends above both
   where it started and the cap.
   */
  lemma {:induction false} CapHolds(book: PricingBook, a: Account, inputs: seq<ConsumeInput>)
    requires !book(a.tier).byokPassthrough && HardCap(book, a).Some?
    ensures var b := ConsumeAll(book, a, inputs); var cap := CapFloor(HardCap(book, a).value);
            && b.tier == a.tier && HardCap(book, b) == HardCap(book, a)
            && a.spent <= b.spent <= (if a.spent < cap then cap else a.spent)
  {
    if inputs != [] {
      var last := inputs[|inputs| - 1];
      CapHolds(book, a, inputs[..|inputs| - 1]);
      CostNotNegative(book, ConsumeAll(book, a, inputs[..|inputs| - 1]), last);
    }
  }

  function ConsumeAll(book: PricingBook, a: Account, inputs: seq<ConsumeInput>): Account {
    if inputs == [] then a else Consumed(book, ConsumeAll(book, a, inputs[..|inputs| - 1]), inputs[|inputs| - 1])
  }

  lemma {:induction false} CostNotNegative(book: PricingBook, a: Account, input: ConsumeInput)
    ensures 0 <= Priced(book, a, input).cost
  {
    EstimateMonotone(book(a.tier), input.activeParams, input.activeParams, input.durationSec, input.durationSec,
                     a.spent);
  }

  lemma {:induction false} UnderCap(cap: real, spend: int)
    ensures !OverCap(Some(cap), spend) <==> spend <= CapFloor(cap)
  {
  }

  /** A run of consumption that ends above neither where it started nor the cap itself. */
  ghost predicate CapKept(book: PricingBook, a: Account, cap: real, inputs: seq<ConsumeInput>) {
    ConsumeAll(book, a, inputs).spent as real <= MaxReal(a.spent as real, cap)
  }

  /**
   Exactly when spend never passes the larger of its start and the cap: the tolerance must not reach the next whole
   micro-USD, unless spend is there already.
   */
  lemma {:induction false} CapExactness(book: PricingBook, a: Account, cap: real)
    requires !book(a.tier).byokPassthrough && HardCap(book, a) == Some(cap)
    ensures (forall inputs :: CapKept(book, a, cap, inputs))
            <==> CapFloor(cap) as real <= cap || a.spent >= CapFloor(cap)
  {
    var floor := CapFloor(cap);
    if floor as real <= cap || a.spent >= floor {
      forall inputs ensures CapKept(book, a, cap, inputs) {
        CapHolds(book, a, inputs);
      }
    } else {
      SlackIsSpent(book, a, cap, ConsumeInput(0, 0.0, 0.0, None, None, None, false, Some((floor - a.spent) as real)));
    }
  }

  lemma {:induction false} SlackIsSpent(book: PricingBook, a: Account, cap: real, input: ConsumeInput)
    requires !book(a.tier).byokPassthrough && HardCap(book, a) == Some(cap) && !input.byokPassthrough
    requires a.spent < CapFloor(cap) && cap < CapFloor(cap) as real
    requires input.costOverride == Some((CapFloor(cap) - a.spent) as real)
    ensures !CapKept(book, a, cap, [input])
  {
    RoundWhole(CapFloor(cap) - a.spent);
    UnderCap(cap, CapFloor(cap));
    assert Priced(book, a, input).accepted && Priced(book, a, input).cost == CapFloor(cap) - a.spent;
    assert [input][..0] == [];
    assert ConsumeAll(book, a, [input]) == Consumed(book, ConsumeAll(book, a, []), input);
  }

  /** A spend that is above the cap and yet not over it. */
  predicate Slips(cap: real, spend: int) {
    !OverCap(Some(cap), spend) && spend as real > cap
  }

  /** A cap of 0.9999 micro-USD lets one whole micro-USD through. */
  lemma {:induction false} CapSlack()
    ensures Slips(0.9999, 1) && !Slips(0.9989, 1)
  {
  }

  // ---------- balance ----------

  datatype Balance = Balance(included: int, spent: int, remaining: Option<int>, includedRemaining: int, overage: int,
                             occurrenceCount: nat)

  /** The amounts of `balance()`, each rounded as shown to the tenant. */
  function BalanceOf(book: PricingBook, a: Account): Balance {
    var included, cap, spent := IncludedAllowance(book, a), HardCap(book, a), a.spent as real;
    Balance(Round(included), a.spent,
            if cap.Some? then Some(Round(MaxReal(0.0, cap.value - spent))) else None,
            Round(MaxReal(0.0, included - spent)), Round(MaxReal(0.0, spent - included)), |a.log|)
  }

  lemma {:induction false} RoundNegate(x: real)
    ensures Round(x) + Round(-x) == if HalfWay(x) then 1 else 0
  {
    var n := x.Floor;
    RoundShift(x - n as real, n);
    RoundShift(n as real - x, -n);
    assert x == (x - n as real) + n as real && -x == (n as real - x) + (-n) as real;
  }

  predicate HalfWay(x: real) { x - x.Floor as real == 0.5 }

  /**
   What is left of the included allowance plus spend equals the allowance plus the overage, except when
   the account is over an allowance that sits exactly half way between two micro-USD (both sides round up).
   */
  lemma {:induction false} BalanceAddsUp(book: PricingBook, a: Account)
    ensures var b := BalanceOf(book, a); var included := IncludedAllowance(book, a);
            b.includedRemaining + b.spent == b.included + b.overage
            <==> !(a.spent as real > included && HalfWay(included))
  {
    var included := IncludedAllowance(book, a);
    if a.spent as real <= included {
      RoundShift(included, -a.spent);
      assert included + (-a.spent) as real == included - a.spent as real;
    } else {
      RoundShift(-included, a.spent);
      RoundNegate(included);
      assert -included + a.spent as real == a.spent as real - included;
    }
  }

  /**
   The balance shows the allowance, the spend, what is left of the cap when there is one, what is left of the allowance,
   what was spent beyond it, and how many records are kept: to the nearest micro-USD, and nothing below zero.
   */
  lemma {:induction false} BalanceTells(book: PricingBook, a: Account)
    ensures var b, included, cap := BalanceOf(book, a), IncludedAllowance(book, a), HardCap(book, a);
            && Near(b.included, included) && b.spent == a.spent && b.occurrenceCount == |a.log|
            && (if cap.None? then b.remaining.None?
                else
                  && b.remaining.Some?
                  && Near(b.remaining.value, if cap.value < a.spent as real then 0.0 else cap.value - a.spent as real))
            && (if a.spent as real <= included
                then b.overage == 0 && Near(b.includedRemaining, included - a.spent as real)
                else b.includedRemaining == 0 && Near(b.overage, a.spent as real - included))
  {
    var included, cap := IncludedAllowance(book, a), HardCap(book, a);
    RoundBounds(included);
    RoundBounds(included - a.spent as real);
    RoundBounds(a.spent as real - included);
    RoundBounds(0.0);
    if cap.Some? {
      RoundBounds(cap.value - a.spent as real);
    }
  }

  /** An allowance of half a micro-USD and one whole micro-USD spent: 0 + 1 is shown against 1 + 1. */
  lemma {:induction false} BalanceOffByOne(book: PricingBook, tier: PlanTier, input: ConsumeInput)
    requires !book(tier).byokPassthrough && !input.byokPassthrough && input.costOverride == Some(1.0)
    ensures var setting := SetAllowanceInput(None, Some(0.5), Unlimited);
            var b := BalanceOf(book, Run(book, NewAccount(tier, None, Unset, None),
                                         [SetAllowance(setting), Consume(input)]));
            b.includedRemaining == 0 && b.spent == 1 && b.included == 1 && b.overage == 1
  {
    var first := SetAllowance(SetAllowanceInput(None, Some(0.5), Unlimited));
    var start := NewAccount(tier, None, Unset, None);
    var adjusted := Adjusted(start, first.change);
    assert [first, Consume(input)][..1] == [first] && [first][..0] == [];
    assert Run(book, start, [first]) == adjusted;
    RoundWhole(1);
    RoundWhole(0);
    assert Round(0.5) == 1;
  }
}
