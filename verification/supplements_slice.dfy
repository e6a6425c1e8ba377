/** The supplements slice of the front end
    (`frontend/src/features/supplements/supplementsSlice.ts`) as a standalone reducer,
    and the filter-change handler of the catalogue page that drives it
    (`frontend/src/pages/supplements/SupplementsPage.tsx`). */
module SupplementsSlice {
  import opened Wrappers

  /** A supplement or a category as the server sends it. */
  datatype Supplement = Supplement(id: int, details: string)
  datatype Category = Category(id: int, name: string)

  datatype State = State(
    supplements: seq<Supplement>,
    supplement: Option<Supplement>,
    categories: seq<Category>,
    loading: bool,
    error: Option<string>,
    totalCount: int,
    currentPage: int)

  const InitialState := State([], None, [], false, None, 0, 1)

  /** The slice starts empty, idle and error-free, on page 1. */
  lemma InitialStateIsEmpty()
    ensures InitialState.supplements == [] && InitialState.supplement.None? && InitialState.categories == []
    ensures !InitialState.loading && InitialState.error.None?
    ensures InitialState.totalCount == 0 && InitialState.currentPage == 1
  {
  }

  datatype Request = FetchSupplements | FetchSupplement | FetchCategories

  datatype Action =
    | Pending(request: Request)
    | ListFetched(results: seq<Supplement>, count: int)
    | OneFetched(item: Supplement)
    | CategoriesFetched(categories: seq<Category>)
    | Rejected(request: Request, reason: string)
    | ClearSupplement
    | SetCurrentPage(page: int)

  /** The data fields, everything but `loading` and `error`. */
  predicate SameData(s: State, t: State) {
    s.supplements == t.supplements && s.supplement == t.supplement && s.categories == t.categories
    && s.totalCount == t.totalCount && s.currentPage == t.currentPage
  }

  /** The answers that fill the slice: the list page, one supplement, the categories. */
  predicate Fulfilment(a: Action) {
    a.ListFetched? || a.OneFetched? || a.CategoriesFetched?
  }

  /** The slice reducer. A request's start or failure never touches the data; each answer
      fills only the fields its request owns, ends the load and leaves the error as it
      was; the two plain reducers each change one field. */
  function Reduce(s: State, a: Action): (r: State)
    ensures a.Pending? ==> SameData(r, s) && r.loading && r.error.None?
    ensures a.Rejected? ==> SameData(r, s) && !r.loading && r.error == Some(a.reason)
    ensures Fulfilment(a) ==> !r.loading && r.error == s.error && r.currentPage == s.currentPage
    ensures a.ListFetched? ==>
      && r.supplements == a.results && r.totalCount == a.count
      && r.supplement == s.supplement && r.categories == s.categories
    ensures a.OneFetched? ==>
      && r.supplement == Some(a.item)
      && r.supplements == s.supplements && r.totalCount == s.totalCount && r.categories == s.categories
    ensures a.CategoriesFetched? ==>
      && r.categories == a.categories
      && r.supplements == s.supplements && r.totalCount == s.totalCount && r.supplement == s.supplement
    ensures a.ClearSupplement? ==> r.supplement.None? && r.(supplement := s.supplement) == s
    ensures a.SetCurrentPage? ==> r.currentPage == a.page && r.(currentPage := s.currentPage) == s
  {
    match a
    case Pending(_) => s.(loading := true, error := None)
    case ListFetched(results, count) => s.(loading := false, supplements := results, totalCount := count)
    case OneFetched(item) => s.(loading := false, supplement := Some(item))
    case CategoriesFetched(categories) => s.(loading := false, categories := categories)
    case Rejected(_, reason) => s.(loading := false, error := Some(reason))
    case ClearSupplement => s.(supplement := None)
    case SetCurrentPage(page) => s.(currentPage := page)
  }

  /** Every action in order, from `s`. */
  function ReduceAll(s: State, actions: seq<Action>): State
    decreases |actions|
  {
    if actions == [] then s else ReduceAll(Reduce(s, actions[0]), actions[1..])
  }

  /** `handleFilterChange`: the fetch starts (its pending action comes first) and the page
      is reset to 1. */
  function FilterChange(s: State): (r: State)
    ensures r.currentPage == 1 && r.loading && r.error.None?
    ensures r.supplements == s.supplements && r.totalCount == s.totalCount
  {
    Reduce(Reduce(s, Pending(FetchSupplements)), SetCurrentPage(1))
  }

  /** No server answer moves the page: after a filter change the page stays 1 through any
      sequence of fulfilments and rejections, until the user picks another page. */
  lemma {:induction false} AnswersKeepPage(s: State, actions: seq<Action>)
    requires forall i :: 0 <= i < |actions| ==> !actions[i].SetCurrentPage?
    ensures ReduceAll(s, actions).currentPage == s.currentPage
    decreases |actions|
  {
    if actions != [] {
      assert !actions[0].SetCurrentPage?;
      AnswersKeepPage(Reduce(s, actions[0]), actions[1..]);
    }
  }

  /** After a filter change whose list arrives, the page is 1 and the list and count are
      the new ones. */
  lemma FilterChangeThenList(s: State, results: seq<Supplement>, count: int)
    ensures var r := Reduce(FilterChange(s), ListFetched(results, count));
      r.currentPage == 1 && r.supplements == results && r.totalCount == count
      && !r.loading && r.error.None?
  {
  }

  /** A fulfilment does not clear the error; it is the pending action before it that does,
      so a fulfilment without its pending action leaves a stale error in place. */
  lemma FulfilmentKeepsError(s: State, results: seq<Supplement>, count: int)
    ensures Reduce(s, ListFetched(results, count)).error == s.error
    ensures Reduce(Reduce(s, Pending(FetchSupplements)), ListFetched(results, count)).error.None?
  {
  }
}
