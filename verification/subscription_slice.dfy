/** The subscription slice of the front end
    (`frontend/src/features/subscription/subscriptionSlice.ts`): the plan lists, the user's
    subscriptions, and how the five request thunks and `clearError` move them. */
module SubscriptionSlice {
  import opened Wrappers

  /** A plan or a subscription as the server sends it; only the id and the status take
      part in the transitions, the rest is carried along. */
  datatype Plan = Plan(id: int, details: string)
  datatype Row = Row(id: int, status: string, details: string)

  datatype State = State(
    plans: seq<Plan>,
    activePlans: seq<Plan>,
    userSubscriptions: seq<Row>,
    loading: bool,
    error: Option<string>)

  const InitialState := State([], [], [], false, None)

  /** The thunks of the slice. */
  datatype Request = GetPlans | GetActivePlans | GetUserSubscriptions | CreateSubscription | CancelSubscription

  datatype Action =
    | Pending(request: Request)
    | PlansFetched(plans: seq<Plan>)
    | ActivePlansFetched(plans: seq<Plan>)
    | SubscriptionsFetched(rows: seq<Row>)
    | Created(row: Row)
    | Cancelled(id: int)
    | Rejected(request: Request, reason: string)
    | ClearError

  const CancelledStatus := "cancelled"

  /** The row with the given id marked cancelled, and every other row as it was. */
  function MarkCancelled(rows: seq<Row>, id: int): (r: seq<Row>)
    ensures |r| == |rows|
    ensures forall i :: 0 <= i < |rows| && rows[i].id == id ==> r[i] == rows[i].(status := CancelledStatus)
    ensures forall i :: 0 <= i < |rows| && rows[i].id != id ==> r[i] == rows[i]
  {
    if rows == [] then []
    else
      var first := if rows[0].id == id then rows[0].(status := CancelledStatus) else rows[0];
      [first] + MarkCancelled(rows[1..], id)
  }

  /** The three lists, everything but `loading` and `error`. */
  predicate SameLists(s: State, t: State) {
    s.plans == t.plans && s.activePlans == t.activePlans && s.userSubscriptions == t.userSubscriptions
  }

  /** The answers of the five thunks. */
  predicate Fulfilment(a: Action) {
    a.PlansFetched? || a.ActivePlansFetched? || a.SubscriptionsFetched? || a.Created? || a.Cancelled?
  }

  /** The slice reducer. A request's start or failure never touches the lists; each answer
      rewrites only the list its request owns, ends the load and clears the error;
      `clearError` clears the error alone. */
  function Reduce(s: State, a: Action): (r: State)
    ensures a.Pending? ==> SameLists(r, s) && r.loading && r.error == s.error
    ensures a.Rejected? ==> SameLists(r, s) && !r.loading && r.error == Some(a.reason)
    ensures a.ClearError? ==> SameLists(r, s) && r.loading == s.loading && r.error.None?
    ensures Fulfilment(a) ==> !r.loading && r.error.None?
    ensures a.PlansFetched? ==>
      r.plans == a.plans && r.activePlans == s.activePlans && r.userSubscriptions == s.userSubscriptions
    ensures a.ActivePlansFetched? ==>
      r.activePlans == a.plans && r.plans == s.plans && r.userSubscriptions == s.userSubscriptions
    ensures a.SubscriptionsFetched? ==>
      r.userSubscriptions == a.rows && r.plans == s.plans && r.activePlans == s.activePlans
    ensures a.Created? || a.Cancelled? ==>
      r.plans == s.plans && r.activePlans == s.activePlans
    ensures a.Cancelled? ==> |r.userSubscriptions| == |s.userSubscriptions|
  {
    match a
    case Pending(_) => s.(loading := true)
    case PlansFetched(plans) => s.(loading := false, plans := plans, error := None)
    case ActivePlansFetched(plans) => s.(loading := false, activePlans := plans, error := None)
    case SubscriptionsFetched(rows) => s.(loading := false, userSubscriptions := rows, error := None)
    case Created(row) => s.(loading := false, userSubscriptions := s.userSubscriptions + [row], error := None)
    case Cancelled(id) => s.(loading := false, userSubscriptions := MarkCancelled(s.userSubscriptions, id), error := None)
    case Rejected(_, reason) => s.(loading := false, error := Some(reason))
    case ClearError => s.(error := None)
  }

  /** Unlike the supplements slice, a new request does not clear an earlier error: it
      stays on screen while the request runs. */
  lemma PendingKeepsStaleError(s: State, request: Request)
    ensures Reduce(s, Pending(request)).error == s.error
    ensures Reduce(s, Pending(request)).loading
  {
  }

  /** A fulfilled creation keeps the earlier subscriptions in order and puts the new one
      last. */
  lemma CreatedGoesLast(s: State, row: Row)
    ensures var r := Reduce(s, Created(row)).userSubscriptions;
      |r| == |s.userSubscriptions| + 1 && r[|r| - 1] == row
      && forall i :: 0 <= i < |s.userSubscriptions| ==> r[i] == s.userSubscriptions[i]
  {
  }

  /** Cancelling marks exactly the rows with the id, leaves every field but their status
      alone, and cancelling again changes nothing more. */
  lemma CancelMarksOnlyItsRows(s: State, id: int)
    ensures var r := Reduce(s, Cancelled(id)).userSubscriptions;
      && (forall i :: 0 <= i < |r| ==> (r[i].status == CancelledStatus || r[i] == s.userSubscriptions[i]))
      && (forall i :: 0 <= i < |r| ==> r[i].id == s.userSubscriptions[i].id && r[i].details == s.userSubscriptions[i].details)
      && (forall i :: 0 <= i < |r| && r[i].id == id ==> r[i].status == CancelledStatus)
    ensures Reduce(Reduce(s, Cancelled(id)), Cancelled(id)) == Reduce(s, Cancelled(id))
  {
    var r := MarkCancelled(s.userSubscriptions, id);
    assert MarkCancelled(r, id) == r;
  }

  /** A rejection leaves every list as it was. */
  lemma RejectionKeepsData(s: State, request: Request, reason: string)
    ensures var r := Reduce(s, Rejected(request, reason));
      r.plans == s.plans && r.activePlans == s.activePlans
      && r.userSubscriptions == s.userSubscriptions && r.error == Some(reason) && !r.loading
  {
  }
}
