/** `SubscriptionService` (`backend/subscription_plans/services/subscription_service.py`):
    cancel, renew, use a supplement, the expiry sweep and the active-subscription lookups,
    over a subscription table held in memory. `today` is a parameter. */
module SubscriptionService {
  import opened Wrappers
  import opened Seqs
  import opened Subscriptions

  /** The length of a renewed period, in days. */
  const RenewalDays := 30

  /** The look-ahead of the expiry warning, in days. */
  const WarningDays := 7

  const RenewalDisabled := "Esta assinatura não está habilitada para renovação automática."
  const NoSupplementsLeft := "Não há suplementos disponíveis na assinatura."

  /** `cancel_subscription`: the subscription is cancelled and will not renew; no other
      field changes. */
  function Cancel(s: Subscription): (r: Subscription)
    ensures r.status == Cancelled && !r.renewalEnabled
    ensures r.(status := s.status, renewalEnabled := s.renewalEnabled) == s
  {
    s.(status := Cancelled, renewalEnabled := false)
  }

  /** Cancelling twice is cancelling once. */
  lemma CancelIdempotent(s: Subscription)
    ensures Cancel(Cancel(s)) == Cancel(s)
  {
  }

  /** `renew_subscription`: refused when automatic renewal is off. Otherwise a new active
      subscription of the same user and plan, starting at the later of the old end and
      today and lasting 30 days, with the plan's monthly supplements and price and renewal
      on. */
  function Renew(s: Subscription, today: int, newId: int, now: int): (r: Result<Subscription, string>)
    ensures r.Failure? <==> !s.renewalEnabled
    ensures r.Failure? ==> r.error == RenewalDisabled
    ensures r.Success? ==>
      var n := r.value;
      && n.startDate >= s.endDate && n.startDate >= today
      && (n.startDate == s.endDate || n.startDate == today)
      && n.endDate == n.startDate + RenewalDays && n.endDate > n.startDate
      && n.user == s.user && n.plan == s.plan
      && n.status == Active && n.renewalEnabled
      && n.remaining == s.plan.supplementsPerMonth && n.pricePaid == s.plan.price
      && n.id == newId && n.createdAt == now
  {
    if !s.renewalEnabled then Failure(RenewalDisabled)
    else
      var start := if s.endDate >= today then s.endDate else today;
      Success(Subscription(newId, s.user, s.plan, Active, start, start + RenewalDays,
                           s.plan.supplementsPerMonth, true, s.plan.price, now))
  }

  /** Renewal inserts the new row at the end of the table and leaves every existing row,
      the renewed one included, as it was; a refused renewal inserts nothing. */
  function RenewIn(table: seq<Subscription>, i: nat, today: int, newId: int, now: int): (r: Result<seq<Subscription>, string>)
    requires i < |table|
    ensures r.Failure? <==> !table[i].renewalEnabled
    ensures r.Success? ==> |r.value| == |table| + 1 && r.value[..|table|] == table
    ensures r.Success? ==> Renew(table[i], today, newId, now) == Success(r.value[|table|])
  {
    match Renew(table[i], today, newId, now)
    case Failure(e) => Failure(e)
    case Success(n) => Success(table + [n])
  }

  /** A cancelled subscription can no longer be renewed. */
  lemma CancelledCannotRenew(s: Subscription, today: int, newId: int, now: int)
    ensures Renew(Cancel(s), today, newId, now).Failure?
  {
  }

  /** Renewing a renewal before its period is over continues it without gap or overlap. */
  lemma RenewalsAreContiguous(s: Subscription, today: int, later: int, id1: int, id2: int, t1: int, t2: int)
    requires Renew(s, today, id1, t1).Success?
    requires later <= Renew(s, today, id1, t1).value.endDate
    ensures var first := Renew(s, today, id1, t1).value;
      Renew(first, later, id2, t2).Success? && Renew(first, later, id2, t2).value.startDate == first.endDate
  {
  }

  /** `use_supplement`: refused when nothing is left; otherwise exactly one fewer remains
      and nothing else changes. The status is not consulted. */
  function UseSupplement(s: Subscription): (r: Result<Subscription, string>)
    ensures r.Failure? <==> s.remaining == 0
    ensures r.Failure? ==> r.error == NoSupplementsLeft
    ensures r.Success? ==> r.value.remaining + 1 == s.remaining && r.value.(remaining := s.remaining) == s
  {
    if s.remaining <= 0 then Failure(NoSupplementsLeft) else Success(s.(remaining := s.remaining - 1))
  }

  /** `k` uses in a row, stopping at the first refusal. */
  function UseMany(s: Subscription, k: nat): Result<Subscription, string>
    decreases k
  {
    if k == 0 then Success(s)
    else match UseSupplement(s)
      case Failure(e) => Failure(e)
      case Success(t) => UseMany(t, k - 1)
  }

  /** Exactly as many uses succeed as there were supplements left: `k` uses in a row
      succeed precisely when `k` does not exceed what remains, and leave the difference. */
  lemma {:induction false} UsesAreBoundedByRemaining(s: Subscription, k: nat)
    ensures UseMany(s, k).Success? <==> k <= s.remaining
    ensures UseMany(s, k).Success? ==> UseMany(s, k).value.remaining == s.remaining - k
    decreases k
  {
    if k > 0 && s.remaining > 0 {
      UsesAreBoundedByRemaining(s.(remaining := s.remaining - 1), k - 1);
    }
  }

  /** An active subscription whose period ended before `today`. */
  predicate Overdue(s: Subscription, today: int) {
    s.status == Active && s.endDate < today
  }

  /** An active subscription ending within the next seven days, not today or earlier. */
  predicate EndingSoon(s: Subscription, today: int) {
    s.status == Active && today < s.endDate <= today + WarningDays
  }

  function ExpireIfOverdue(s: Subscription, today: int): Subscription {
    if Overdue(s, today) then s.(status := Expired) else s
  }

  /** The first half of `check_subscriptions_to_expire`: every overdue subscription becomes
      expired, and every other row is left as it was. */
  function ExpireOverdue(table: seq<Subscription>, today: int): (r: seq<Subscription>)
    ensures |r| == |table|
    ensures forall i :: 0 <= i < |table| && Overdue(table[i], today) ==> r[i] == table[i].(status := Expired)
    ensures forall i :: 0 <= i < |table| && !Overdue(table[i], today) ==> r[i] == table[i]
  {
    MapAll(table, s => ExpireIfOverdue(s, today))
  }

  /** `check_subscriptions_to_expire`: expire the overdue subscriptions, then return those
      ending within a week. The warning list holds exactly the rows of the updated table
      that end soon, and none of the rows just expired. */
  function CheckSubscriptionsToExpire(table: seq<Subscription>, today: int): (r: (seq<Subscription>, seq<Subscription>))
    ensures r.0 == ExpireOverdue(table, today)
    ensures forall s :: s in r.1 <==> s in r.0 && EndingSoon(s, today)
    ensures forall i :: 0 <= i < |table| && Overdue(table[i], today) ==> r.0[i] !in r.1
  {
    var updated := ExpireOverdue(table, today);
    (updated, Filter(updated, s => EndingSoon(s, today)))
  }

  /** The sweep leaves no overdue subscription behind, and running it again changes
      nothing. */
  lemma SweepIsIdempotent(table: seq<Subscription>, today: int)
    ensures var updated := ExpireOverdue(table, today);
      (forall i :: 0 <= i < |updated| ==> !Overdue(updated[i], today))
      && ExpireOverdue(updated, today) == updated
  {
  }

  /** `get_active_subscriptions` */
  function ActiveSubscriptions(table: seq<Subscription>): (r: seq<Subscription>)
    ensures forall s :: s in r <==> s in table && s.status == Active
  {
    Filter(table, (s: Subscription) => s.status == Active)
  }

  /** A subscription `get_user_active_subscription` may return for `user` on `today`. */
  predicate CurrentFor(s: Subscription, user: int, today: int) {
    s.user == user && s.status == Active && s.endDate >= today
  }

  /** `get_user_active_subscription`: the most recently created active subscription of the
      user that has not ended before today, or none when there is no such subscription.
      Among rows created at the same instant the first in table order is returned. */
  method UserActiveSubscription(table: seq<Subscription>, user: int, today: int) returns (r: Option<Subscription>)
    ensures r.None? <==> forall s :: s in table ==> !CurrentFor(s, user, today)
    ensures r.Some? ==> r.value in table && CurrentFor(r.value, user, today)
    ensures r.Some? ==> forall s :: s in table && CurrentFor(s, user, today) ==> s.createdAt <= r.value.createdAt
  {
    r := None;
    var i := 0;
    while i < |table|
      invariant 0 <= i <= |table|
      invariant r.None? <==> forall j :: 0 <= j < i ==> !CurrentFor(table[j], user, today)
      invariant r.Some? ==> r.value in table[..i] && CurrentFor(r.value, user, today)
      invariant r.Some? ==> forall j :: 0 <= j < i && CurrentFor(table[j], user, today) ==> table[j].createdAt <= r.value.createdAt
    {
      var s := table[i];
      if CurrentFor(s, user, today) && (r.None? || s.createdAt > r.value.createdAt) {
        r := Some(s);
      }
      i := i + 1;
    }
  }
}
