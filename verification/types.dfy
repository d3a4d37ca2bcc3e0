/** The plan tiers, their catalog entries and the per-action credit costs
    (`src/lib/types.ts`). Prices are integer centavos (R$ 29,90 is 2990). */
module Types {

  datatype Plan = Free | Premium | Business

  /** The plan's identifier as stored in the database (`'free'`, ...). */
  function PlanName(p: Plan): string {
    match p
    case Free => "free"
    case Premium => "premium"
    case Business => "business"
  }

  datatype PlanDetails = PlanDetails(name: string, credits: nat, priceCents: nat)

  /** `PLANS`: the catalog entry of each tier; the feature lists are display text. */
  function Plans(p: Plan): (d: PlanDetails)
    ensures d.credits > 0
    ensures p == Free <==> d.priceCents == 0
  {
    match p
    case Free => PlanDetails("Free", 30, 0)
    case Premium => PlanDetails("Premium", 300, 2990)
    case Business => PlanDetails("Business", 1000, 7990)
  }

  /** Position of a tier in the order free < premium < business. */
  function Rank(p: Plan): nat {
    match p
    case Free => 0
    case Premium => 1
    case Business => 2
  }

  /** A higher tier gives strictly more credits for a strictly higher price. */
  lemma PlansStrictlyIncreasing(p: Plan, q: Plan)
    requires Rank(p) < Rank(q)
    ensures Plans(p).credits < Plans(q).credits
    ensures Plans(p).priceCents < Plans(q).priceCents
  {
  }

  /** `CreditAction`: the billable actions. */
  datatype CreditAction = Upload | Transcription | SummaryBasic | SummaryAdvanced | Export

  /** `CREDIT_COSTS`: the credits each action costs; every cost is positive. */
  function CreditCosts(a: CreditAction): (c: nat)
    ensures c > 0
  {
    match a
    case Upload => 10
    case Transcription => 20
    case SummaryBasic => 15
    case SummaryAdvanced => 25
    case Export => 2
  }

  /** The advanced summary costs more than the basic one. */
  lemma SummaryAdvancedCostsMore()
    ensures CreditCosts(SummaryAdvanced) > CreditCosts(SummaryBasic)
  {
  }
}
