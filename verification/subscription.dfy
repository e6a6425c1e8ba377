/** The `Subscription` and `SubscriptionPlan` records of the back end
    (`backend/subscription_plans/models/`). Dates are day numbers and money is exact. */
module Subscriptions {
  import opened Wrappers

  /** `STATUS_CHOICES` */
  datatype Status = Active | Cancelled | Expired | Pending

  /** The stored value of a status. */
  function Code(s: Status): (c: string)
    ensures 0 < |c| <= 10
  {
    match s
    case Active => "active"
    case Cancelled => "cancelled"
    case Expired => "expired"
    case Pending => "pending"
  }

  /** The status a stored value names, if it is one of the choices. */
  function ParseStatus(c: string): (r: Option<Status>)
    ensures r.Some? ==> Code(r.value) == c
  {
    if c == "active" then Some(Active)
    else if c == "cancelled" then Some(Cancelled)
    else if c == "expired" then Some(Expired)
    else if c == "pending" then Some(Pending)
    else None
  }

  /** Every status is stored as a distinct value that reads back as itself. */
  lemma StatusCodesRoundTrip(s: Status)
    ensures ParseStatus(Code(s)) == Some(s)
  {
  }

  /** A plan, as far as subscriptions use it. */
  datatype Plan = Plan(id: int, price: real, supplementsPerMonth: nat)

  /** A subscription row; `remaining` is a `PositiveIntegerField`, so never negative. */
  datatype Subscription = Subscription(
    id: int,
    user: int,
    plan: Plan,
    status: Status,
    startDate: int,
    endDate: int,
    remaining: nat,
    renewalEnabled: bool,
    pricePaid: real,
    createdAt: int)

  /** The field defaults: status pending, automatic renewal on. */
  const DefaultStatus := Pending
  const DefaultRenewal := true
}
