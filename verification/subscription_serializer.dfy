/** `SubscriptionSerializer` (`backend/subscription_plans/serializers/subscription_plans_serializers.py`):
    the date-order check of `validate`, the defaulting of `create`, and the model defaults
    applied when the row is written. */
module SubscriptionSerializer {
  import opened Wrappers
  import opened Subscriptions

  /** Validated input: the fields a client may send, each possibly absent. */
  datatype SubscriptionData = SubscriptionData(
    user: int,
    plan: Plan,
    status: Option<Status>,
    startDate: Option<int>,
    endDate: Option<int>,
    remaining: Option<nat>,
    renewalEnabled: Option<bool>,
    pricePaid: Option<real>)

  /** A validation error, keyed by field. */
  datatype FieldError = FieldError(field: string, message: string)

  const EndBeforeStart := FieldError("end_date", "A data de término deve ser posterior à data de início.")

  /** `validate`: when both dates are given, the end must come strictly after the start;
      accepted input is returned unchanged. */
  function Validate(attrs: SubscriptionData): (r: Result<SubscriptionData, FieldError>)
    ensures r.Failure? <==> attrs.startDate.Some? && attrs.endDate.Some? && attrs.endDate.value <= attrs.startDate.value
    ensures r.Failure? ==> r.error == EndBeforeStart
    ensures r.Success? ==> r.value == attrs
  {
    if attrs.endDate.Some? && attrs.startDate.Some? && attrs.endDate.value <= attrs.startDate.value then
      Failure(EndBeforeStart)
    else
      Success(attrs)
  }

  /** The defaulting in `create`: the remaining supplements and the price paid come from
      the plan when the client sent none; values the client sent are kept. */
  function FillFromPlan(data: SubscriptionData): (r: SubscriptionData)
    ensures r.remaining.Some? && r.pricePaid.Some?
    ensures data.remaining.Some? ==> r.remaining == data.remaining
    ensures data.remaining.None? ==> r.remaining == Some(data.plan.supplementsPerMonth)
    ensures data.pricePaid.Some? ==> r.pricePaid == data.pricePaid
    ensures data.pricePaid.None? ==> r.pricePaid == Some(data.plan.price)
    ensures r.(remaining := data.remaining, pricePaid := data.pricePaid) == data
  {
    data.(remaining := Some(data.remaining.GetOr(data.plan.supplementsPerMonth)),
          pricePaid := Some(data.pricePaid.GetOr(data.plan.price)))
  }

  /** Filling twice is filling once. */
  lemma FillFromPlanIdempotent(data: SubscriptionData)
    ensures FillFromPlan(FillFromPlan(data)) == FillFromPlan(data)
  {
  }

  /** Writing the row: an absent status or renewal flag takes the model default; a missing
      date, count or price cannot be written (the columns are not nullable). */
  function Instantiate(data: SubscriptionData, id: int, now: int): (r: Result<Subscription, string>)
    ensures r.Success? <==> data.startDate.Some? && data.endDate.Some? && data.remaining.Some? && data.pricePaid.Some?
    ensures r.Success? ==> r.value.status == data.status.GetOr(DefaultStatus)
    ensures r.Success? ==> r.value.renewalEnabled == data.renewalEnabled.GetOr(DefaultRenewal)
    ensures r.Success? ==> r.value.user == data.user && r.value.plan == data.plan
  {
    if data.startDate.None? || data.endDate.None? || data.remaining.None? || data.pricePaid.None? then
      Failure("IntegrityError")
    else
      Success(Subscription(id, data.user, data.plan, data.status.GetOr(DefaultStatus),
                           data.startDate.value, data.endDate.value, data.remaining.value,
                           data.renewalEnabled.GetOr(DefaultRenewal), data.pricePaid.value, now))
  }

  /** `create`: fill from the plan, then write. With both dates given it always succeeds;
      a subscription created without a status is pending with renewal on. */
  function Create(data: SubscriptionData, id: int, now: int): (r: Result<Subscription, string>)
    ensures r.Success? <==> data.startDate.Some? && data.endDate.Some?
    ensures r.Success? ==> r.value.remaining == data.remaining.GetOr(data.plan.supplementsPerMonth)
    ensures r.Success? ==> r.value.pricePaid == data.pricePaid.GetOr(data.plan.price)
    ensures r.Success? && data.status.None? && data.renewalEnabled.None? ==> r.value.status == Pending && r.value.renewalEnabled
  {
    Instantiate(FillFromPlan(data), id, now)
  }

  /** Input that passed `validate` and was created holds a period that ends after it
      starts. */
  lemma ValidatedPeriodIsProper(data: SubscriptionData, id: int, now: int)
    requires Validate(data).Success? && Create(data, id, now).Success?
    ensures Create(data, id, now).value.endDate > Create(data, id, now).value.startDate
  {
  }
}
