/** The rows of the `subscriptions` and `payments` tables that the renewal
    route, the hard cancellation and the PIX checkout read and write. Times
    are milliseconds since the Unix epoch; money is integer centavos. */
module Schema {

  import opened Common
  import opened Types

  datatype BillingType = Monthly | Annual

  /** The `type` column's text, also the plan-type text of the checkout. */
  function BillingName(b: BillingType): string {
    match b
    case Monthly => "monthly"
    case Annual => "annual"
  }

  /** A status text other than the two the code tests for. */
  type OtherStatusName = s: string | s != "active" && s != "inactive" witness ""

  /** The `status` column: `active`, `inactive`, or any other text, so each
      text has exactly one representation. */
  datatype Status = Active | Inactive | OtherStatus(name: OtherStatusName)

  /** A `subscriptions` row; `id` is the primary key and a null
      `credits_remaining` is `None`. */
  datatype Subscription = Subscription(
    id: string,
    userId: string,
    plan: Plan,
    billing: BillingType,
    status: Status,
    renewAt: Option<nat>,
    creditsRemaining: Option<int>,
    updatedAt: nat)

  /** A `payments` row; `plan` is the composite text `"<name> - <type>"`,
      `status` is `pending`, `approved`, ... */
  datatype Payment = Payment(
    id: string,
    userId: string,
    plan: string,
    amount: int,
    status: string,
    pixCode: string,
    createdAt: nat)
}
