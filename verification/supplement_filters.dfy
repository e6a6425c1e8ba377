/** The filter form of the catalogue
    (`frontend/src/components/supplements/SupplementFilters.tsx`): the filter record, the
    one-key update, the reset, and how the two selects turn their text into filter values
    and back. */
module SupplementFilters {
  import opened Wrappers
  import opened Text

  /** Every key may be absent (`undefined`). */
  datatype Filters = Filters(
    category: Option<nat>,
    supplementType: Option<string>,
    brand: Option<string>,
    available: Option<bool>,
    search: Option<string>)

  const InitialFilters := Filters(None, None, Some(""), Some(true), Some(""))

  datatype Key = CategoryKey | TypeKey | BrandKey | AvailableKey | SearchKey

  /** `handleFilterChange(name, value)`, one constructor per key. */
  datatype Change =
    | SetCategory(category: Option<nat>)
    | SetType(supplementType: Option<string>)
    | SetBrand(brand: Option<string>)
    | SetAvailable(available: Option<bool>)
    | SetSearch(search: Option<string>)

  function KeyOf(c: Change): Key {
    match c
    case SetCategory(_) => CategoryKey
    case SetType(_) => TypeKey
    case SetBrand(_) => BrandKey
    case SetAvailable(_) => AvailableKey
    case SetSearch(_) => SearchKey
  }

  /** `f` and `g` hold the same value under `k`. */
  predicate Agree(f: Filters, g: Filters, k: Key) {
    match k
    case CategoryKey => f.category == g.category
    case TypeKey => f.supplementType == g.supplementType
    case BrandKey => f.brand == g.brand
    case AvailableKey => f.available == g.available
    case SearchKey => f.search == g.search
  }

  /** `f` holds the value `c` sets. */
  predicate Holds(f: Filters, c: Change) {
    match c
    case SetCategory(v) => f.category == v
    case SetType(v) => f.supplementType == v
    case SetBrand(v) => f.brand == v
    case SetAvailable(v) => f.available == v
    case SetSearch(v) => f.search == v
  }

  /** The update `{ ...prev, [name]: value }`: the named key takes the value, every other
      key keeps its own. */
  function Apply(f: Filters, c: Change): (r: Filters)
    ensures Holds(r, c)
    ensures forall k :: k != KeyOf(c) ==> Agree(f, r, k)
  {
    match c
    case SetCategory(v) => f.(category := v)
    case SetType(v) => f.(supplementType := v)
    case SetBrand(v) => f.(brand := v)
    case SetAvailable(v) => f.(available := v)
    case SetSearch(v) => f.(search := v)
  }

  /** Two filters agreeing on every key are the same filters. */
  lemma AgreeEverywhere(f: Filters, g: Filters)
    requires forall k :: Agree(f, g, k)
    ensures f == g
  {
    assert Agree(f, g, CategoryKey) && Agree(f, g, TypeKey) && Agree(f, g, BrandKey);
    assert Agree(f, g, AvailableKey) && Agree(f, g, SearchKey);
  }

  /** A later change of the same key overrides an earlier one, and changes of different
      keys commute. */
  lemma ChangesCompose(f: Filters, c: Change, d: Change)
    ensures KeyOf(c) == KeyOf(d) ==> Apply(Apply(f, c), d) == Apply(f, d)
    ensures KeyOf(c) != KeyOf(d) ==> Apply(Apply(f, c), d) == Apply(Apply(f, d), c)
  {
    if KeyOf(c) == KeyOf(d) {
      forall k ensures Agree(Apply(Apply(f, c), d), Apply(f, d), k) {}
      AgreeEverywhere(Apply(Apply(f, c), d), Apply(f, d));
    } else {
      forall k ensures Agree(Apply(Apply(f, c), d), Apply(Apply(f, d), c), k) {}
      AgreeEverywhere(Apply(Apply(f, c), d), Apply(Apply(f, d), c));
    }
  }

  /** All changes in order. */
  function ApplyAll(f: Filters, changes: seq<Change>): Filters
    decreases |changes|
  {
    if changes == [] then f else ApplyAll(Apply(f, changes[0]), changes[1..])
  }

  /** A key no change names keeps its value through any sequence of changes. */
  lemma {:induction false} UntouchedKeyKeepsValue(f: Filters, changes: seq<Change>, k: Key)
    requires forall i :: 0 <= i < |changes| ==> KeyOf(changes[i]) != k
    ensures Agree(ApplyAll(f, changes), f, k)
    decreases |changes|
  {
    if changes != [] {
      UntouchedKeyKeepsValue(Apply(f, changes[0]), changes[1..], k);
      assert Agree(Apply(f, changes[0]), f, k);
    }
  }

  /** `handleReset`: the literal it writes, whatever came before. */
  function Reset(f: Filters): (r: Filters)
    ensures r.category.None? && r.supplementType.None?
    ensures r.brand == Some("") && r.search == Some("") && r.available == Some(true)
  {
    Filters(category := None, supplementType := None, brand := Some(""), available := Some(true), search := Some(""))
  }

  /** Resetting after any changes gives back the filters the form started with, and a
      second reset changes nothing. */
  lemma ResetRestoresInitial(changes: seq<Change>)
    ensures Reset(ApplyAll(InitialFilters, changes)) == InitialFilters
    ensures Reset(Reset(ApplyAll(InitialFilters, changes))) == Reset(ApplyAll(InitialFilters, changes))
  {
  }

  /** The category select: '' is no category, anything else `Number(value)`. The options
      are '' and the category ids. */
  function ParseCategory(value: string): (c: Option<nat>)
    requires AllDigits(value)
    ensures c.None? <==> value == ""
  {
    if value == "" then None else Some(DigitsValue(value))
  }

  /** The select's shown value, `filters.category || ''`. */
  function CategoryValue(c: Option<nat>): (v: string)
    ensures AllDigits(v)
  {
    match c
    case Some(n) => if n == 0 then "" else Show(n)
    case None => ""
  }

  /** Picking a category and reading the select back agree for every category id but 0,
      which falls back to 'all categories' because 0 is falsy. */
  lemma CategoryRoundTrip(n: nat)
    ensures n > 0 ==> ParseCategory(CategoryValue(Some(n))) == Some(n)
    ensures ParseCategory(CategoryValue(Some(0))) == None
    ensures ParseCategory(CategoryValue(None)) == None
  {
    if n > 0 {
      ShowRoundTrip(n);
    }
  }

  /** The type select: `value || undefined`. */
  function ParseType(value: string): (t: Option<string>)
    ensures t.None? <==> value == ""
    ensures t.Some? ==> t.value == value
  {
    if value == "" then None else Some(value)
  }

  /** The select's shown value, `filters.type || ''`. */
  function TypeValue(t: Option<string>): string {
    match t
    case Some(s) => s
    case None => ""
  }

  /** The type select and its parse are inverse: reading back a picked option gives it,
      and parsing the shown value gives back every type but the empty one. */
  lemma TypeRoundTrip(value: string, t: Option<string>)
    ensures TypeValue(ParseType(value)) == value
    ensures t != Some("") ==> ParseType(TypeValue(t)) == t
  {
  }

  /** The availability switch shows `!!filters.available` and writes the checked state. */
  predicate SwitchOn(f: Filters) {
    f.available == Some(true)
  }

  lemma SwitchRoundTrip(f: Filters, checked: bool)
    ensures SwitchOn(Apply(f, SetAvailable(Some(checked)))) == checked
    ensures SwitchOn(InitialFilters)
  {
  }
}
