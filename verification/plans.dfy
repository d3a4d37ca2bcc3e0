/** `PLAN_CONFIG` (`src/lib/plans.ts`): credits per tier, including the two
    annual tiers. The annual discount 0.6 is kept as the integer percentage 60. */
module PlanConfig {

  import opened Common

  datatype Tier = Free | Premium | Business | AnnualPremium | AnnualBusiness

  datatype TierConfig = TierConfig(name: string, credits: nat, discountPercent: Option<nat>)

  function Config(t: Tier): (c: TierConfig)
    ensures c.credits >= 30
    ensures c.discountPercent.Some? <==> t in {AnnualPremium, AnnualBusiness}
  {
    match t
    case Free => TierConfig("Free", 30, None)
    case Premium => TierConfig("Premium", 300, None)
    case Business => TierConfig("Business", 1000, None)
    case AnnualPremium => TierConfig("Premium Anual", 1000, Some(60))
    case AnnualBusiness => TierConfig("Business Anual", 3000, Some(60))
  }

  /** The monthly tier an annual tier is the yearly form of. */
  function MonthlyCounterpart(t: Tier): Tier
    requires t in {AnnualPremium, AnnualBusiness}
  {
    if t == AnnualPremium then Premium else Business
  }

  /** Each annual tier grants more credits than its monthly counterpart, and
      both annual tiers carry the same discount. */
  lemma AnnualTiersGrantMore(t: Tier)
    requires t in {AnnualPremium, AnnualBusiness}
    ensures Config(t).credits > Config(MonthlyCounterpart(t)).credits
    ensures Config(t).discountPercent == Config(AnnualPremium).discountPercent == Some(60)
  {
  }
}
