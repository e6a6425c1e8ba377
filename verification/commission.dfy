/** The commission strategies (`backend/partner_stores/services/commission_strategy.py`):
    a flat rate for regular stores, volume tiers for premium stores, a cap for enterprise
    stores, and the dispatch on the store type. Amounts are exact decimals. */
module Commission {
  import opened PartnerStores

  /** The enterprise cap, in reais. */
  const MonthlyCap: real := 5000.0

  /** `RegularCommissionStrategy`: the sale times the store's rate. */
  function Regular(amount: real, rate: real): (c: real)
    ensures amount >= 0.0 && rate >= 0.0 ==> c >= 0.0
    ensures amount == 0.0 || rate == 0.0 ==> c == 0.0
  {
    amount * rate
  }

  /** The premium rate for a sale: 80% of the base rate above 10000, 90% above 5000 up
      to 10000, the base rate up to 5000. */
  function PremiumRate(amount: real, rate: real): real {
    if amount > 10000.0 then rate * 0.8
    else if amount > 5000.0 then rate * 0.9
    else rate
  }

  /** `PremiumCommissionStrategy`: the regular commission up to 5000, 90% of it above
      5000 up to 10000, and 80% of it above 10000, whatever the rate. */
  function Premium(amount: real, rate: real): (c: real)
    ensures amount <= 5000.0 ==> c == Regular(amount, rate)
    ensures 5000.0 < amount <= 10000.0 ==> c == 0.9 * Regular(amount, rate)
    ensures amount > 10000.0 ==> c == 0.8 * Regular(amount, rate)
  {
    amount * PremiumRate(amount, rate)
  }

  /** `EnterpriseCommissionStrategy`: the regular commission, capped at 5000. */
  function Enterprise(amount: real, rate: real): (c: real)
    ensures c <= MonthlyCap
    ensures c <= Regular(amount, rate)
    ensures c == Regular(amount, rate) || c == MonthlyCap
  {
    var commission := amount * rate;
    if commission <= MonthlyCap then commission else MonthlyCap
  }

  datatype Strategy = RegularStrategy | PremiumStrategy | EnterpriseStrategy

  /** `CommissionContext.get_strategy`: 'premium' and 'enterprise' select their strategy;
      every other type, unknown ones included, is charged as regular. */
  function StrategyFor(storeType: string): (s: Strategy)
    ensures s == PremiumStrategy <==> storeType == "premium"
    ensures s == EnterpriseStrategy <==> storeType == "enterprise"
  {
    if storeType == "premium" then PremiumStrategy
    else if storeType == "enterprise" then EnterpriseStrategy
    else RegularStrategy
  }

  /** `CommissionContext.calculate_commission`: the strategy of the store's type applied
      to the sale and the store's own rate. */
  function CommissionFor(store: PartnerStore, amount: real): (c: real)
    ensures store.storeType == "premium" ==> c == Premium(amount, store.commissionRate)
    ensures store.storeType == "enterprise" ==> c == Enterprise(amount, store.commissionRate)
    ensures store.storeType != "premium" && store.storeType != "enterprise" ==>
      c == Regular(amount, store.commissionRate)
  {
    match StrategyFor(store.storeType)
    case RegularStrategy => Regular(amount, store.commissionRate)
    case PremiumStrategy => Premium(amount, store.commissionRate)
    case EnterpriseStrategy => Enterprise(amount, store.commissionRate)
  }

  /** For a non-negative sale and rate the premium commission is never negative and never
      more than the regular one. */
  lemma PremiumBetweenZeroAndRegular(amount: real, rate: real)
    requires amount >= 0.0 && rate >= 0.0
    ensures 0.0 <= Premium(amount, rate) <= Regular(amount, rate)
  {
    var base := amount * rate;
    assert base >= 0.0;
    if amount > 10000.0 {
      assert Premium(amount, rate) == 0.8 * base;
    } else if amount > 5000.0 {
      assert Premium(amount, rate) == 0.9 * base;
    }
  }

  /** The tier limits belong to the lower tier: exactly 5000 is charged the full rate and
      exactly 10000 the 90% rate. */
  lemma TierLimitsFallBelow(rate: real)
    ensures Premium(5000.0, rate) == 5000.0 * rate
    ensures Premium(10000.0, rate) == 9000.0 * rate
  {
  }

  /** The premium commission is not monotone in the sale: for any positive rate it drops
      just above 5000 and just above 10000. */
  lemma PremiumNotMonotone(rate: real)
    requires rate > 0.0
    ensures Premium(5000.01, rate) < Premium(5000.0, rate)
    ensures Premium(10000.01, rate) < Premium(10000.0, rate)
  {
    assert Premium(5000.01, rate) == 4500.009 * rate;
    assert Premium(10000.01, rate) == 8000.008 * rate;
  }

  /** An unknown store type is charged exactly the regular commission. */
  lemma UnknownTypeChargedAsRegular(store: PartnerStore, amount: real)
    requires !ValidType(store.storeType)
    ensures CommissionFor(store, amount) == Regular(amount, store.commissionRate)
  {
  }
}
