/** The pricing book: an active-parameter footprint turned into a cost in micro-USD. */
module Pricing {
  import opened Text
  import opened Money

  datatype PlanTier = FREE | STARTER | PRO | ENTERPRISE | BYOK

  datatype TierRow = TierRow(pricePerRequest: real, pricePerMillion: real, overagePerMillion: real,
                             includedAllowance: real, hardCap: Option<real>,
                             byokPassthrough: bool, passthroughFee: real)

  /** A normalised row: no amount is negative, and no cap (`None`) means unlimited. */
  type TierPricing = r: TierRow |
      && 0.0 <= r.pricePerRequest && 0.0 <= r.pricePerMillion && 0.0 <= r.overagePerMillion
      && 0.0 <= r.includedAllowance && 0.0 <= r.passthroughFee
      && (r.hardCap.Some? ==> 0.0 <= r.hardCap.value)
    witness TierRow(0.0, 0.0, 0.0, 0.0, None, false, 0.0)

  /** A loaded book prices every tier. */
  type PricingBook = PlanTier -> TierPricing

  datatype RateApplied = Included | Overage | ByokRate

  datatype Estimate = Estimate(activeParams: int, durationSec: real, activeParamSeconds: real,
                               rate: RateApplied, cost: int)

  function NonNegative(x: real): real { if x <= 0.0 then 0.0 else x }

  function ParamSeconds(params: int, duration: real): real { params as real * duration }

  /** What a footprint costs at a price per million parameter-seconds. */
  function FootprintPrice(paramSeconds: real, rate: real): int { Round(paramSeconds / 1000000.0 * rate) }

  /** `PricingBook.estimate`, prices and prior spend in micro-USD. */
  function EstimateCost(p: TierPricing, activeParams: real, durationSec: real, priorSpend: int): Estimate {
    var params := NonNegative(activeParams).Floor;
    var duration := NonNegative(durationSec);
    var paramSeconds := ParamSeconds(params, duration);
    if p.byokPassthrough then
      Estimate(params, duration, paramSeconds, ByokRate, Round(p.passthroughFee))
    else
      var within := NonNegative(priorSpend as real) < p.includedAllowance;
      var rate := if within then p.pricePerMillion else p.overagePerMillion;
      Estimate(params, duration, paramSeconds, if within then Included else Overage,
               Round(p.pricePerRequest) + FootprintPrice(paramSeconds, rate))
  }

  /** A price never falls when the footprint or the running time grows, and is never negative. */
  lemma EstimateMonotone(p: TierPricing, a: real, b: real, d: real, e: real, prior: int)
    requires a <= b && d <= e
    ensures 0 <= EstimateCost(p, a, d, prior).cost <= EstimateCost(p, b, e, prior).cost
  {
    var m, n := NonNegative(a).Floor, NonNegative(b).Floor;
    var u, v := NonNegative(d), NonNegative(e);
    var rate := if NonNegative(prior as real) < p.includedAllowance then p.pricePerMillion else p.overagePerMillion;
    NotBelowZero(p.pricePerRequest);
    NotBelowZero(p.passthroughFee);
    LongerIsMore(m, n, u, v);
    MoreCostsMore(ParamSeconds(m, u), ParamSeconds(n, v), rate);
  }

  /** A whole amount is an exact one rounded half up. */
  predicate Near(n: int, exact: real) { Kept(n as real, exact, 1.0) }

  /** Parameter-seconds: whole parameters times seconds, with nothing below zero. */
  function Used(activeParams: real, durationSec: real): real {
    (if activeParams <= 0.0 then 0 else activeParams.Floor) as real * (if durationSec <= 0.0 then 0.0 else durationSec)
  }

  /** The exact price of some parameter-seconds at a rate per million. */
  function AtRate(paramSeconds: real, rate: real): real { paramSeconds / 1000000.0 * rate }

  /** What is due at a rate per million parameter-seconds, on top of the price of a request. */
  predicate PriceDue(p: TierPricing, rate: real, activeParams: real, durationSec: real, cost: int) {
    Near(cost - Round(p.pricePerRequest), AtRate(Used(activeParams, durationSec), rate))
  }

  lemma FootprintIsNear(paramSeconds: real, rate: real)
    ensures Near(FootprintPrice(paramSeconds, rate), AtRate(paramSeconds, rate))
  {
    RoundBounds(paramSeconds / 1000000.0 * rate);
  }

  lemma UsedIsParamSeconds(activeParams: real, durationSec: real)
    ensures Used(activeParams, durationSec) == ParamSeconds(NonNegative(activeParams).Floor, NonNegative(durationSec))
  {
  }

  /**
   Which rate is charged, and how much. On a pass-through tier the fee alone; elsewhere, while the spend so far is below
   the tier's allowance, the request price and the footprint at the included rate, and from there on at the overage
   rate, to the nearest micro-USD. The rate that does not apply does not matter.
   */
  lemma {:induction false} PriceIsExact(p: TierPricing, q: TierPricing, a: real, d: real, prior: int)
    ensures var e := EstimateCost(p, a, d, prior); var spent := if prior < 0 then 0 else prior;
            && e.activeParamSeconds == Used(a, d)
            && (if p.byokPassthrough then e.rate == ByokRate && Near(e.cost, p.passthroughFee)
                else if spent as real < p.includedAllowance then
                  && e.rate == Included && PriceDue(p, p.pricePerMillion, a, d, e.cost)
                  && (q == p.(overagePerMillion := q.overagePerMillion) ==> EstimateCost(q, a, d, prior) == e)
                else
                  && e.rate == Overage && PriceDue(p, p.overagePerMillion, a, d, e.cost)
                  && (q == p.(pricePerMillion := q.pricePerMillion) ==> EstimateCost(q, a, d, prior) == e))
  {
    RoundBounds(p.passthroughFee);
    UsedIsParamSeconds(a, d);
    FootprintIsNear(Used(a, d), p.pricePerMillion);
    FootprintIsNear(Used(a, d), p.overagePerMillion);
  }

  lemma NotBelowZero(x: real)
    requires x >= 0.0
    ensures Round(x) >= 0
  {
  }

  lemma LongerIsMore(m: int, n: int, u: real, v: real)
    requires 0 <= m <= n && 0.0 <= u <= v
    ensures 0.0 <= ParamSeconds(m, u) <= ParamSeconds(n, v)
  {
    ProductMonotone(m as real, n as real, u, v);
  }

  lemma MoreCostsMore(x: real, y: real, rate: real)
    requires 0.0 <= x <= y && rate >= 0.0
    ensures 0 <= FootprintPrice(x, rate) <= FootprintPrice(y, rate)
  {
    ProductMonotone(x / 1000000.0, y / 1000000.0, rate, rate);
    NotBelowZero(x / 1000000.0 * rate);
    RoundMonotone(x / 1000000.0 * rate, y / 1000000.0 * rate);
  }
}
