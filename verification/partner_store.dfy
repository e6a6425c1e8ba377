/** The `PartnerStore` record of the back end (`backend/partner_stores/models.py`): its
    choices, field bounds and defaults. Status and type are kept as the stored strings,
    because nothing but the choices list constrains what gets written. */
module PartnerStores {

  /** `STORE_STATUS_CHOICES` */
  const StatusChoices: seq<string> := ["pending", "approved", "rejected", "suspended"]

  /** `STORE_TYPE_CHOICES` */
  const TypeChoices: seq<string> := ["regular", "premium", "enterprise"]

  predicate ValidStatus(s: string) {
    s in StatusChoices
  }

  predicate ValidType(t: string) {
    t in TypeChoices
  }

  datatype PartnerStore = PartnerStore(
    id: int,
    name: string,
    cnpj: string,
    owner: int,
    address: string,
    phone: string,
    email: string,
    status: string,
    description: string,
    createdAt: int,
    updatedAt: int,
    storeType: string,
    commissionRate: real,
    featured: bool,
    prioritySupport: bool)

  /** The field defaults. */
  const DefaultStatus := "pending"
  const DefaultType := "regular"
  const DefaultRate: real := 0.05
  const DefaultFeatured := false
  const DefaultPrioritySupport := false

  /** `cnpj`: `max_length=18` together with `MinLengthValidator(18)`. */
  predicate CnpjFitsModel(cnpj: string) {
    |cnpj| == 18
  }

  /** `name`: `MinLengthValidator(3)` and `max_length=200`. */
  predicate NameFitsModel(name: string) {
    3 <= |name| <= 200
  }

  /** A decimal with at most `digits` digits, `places` of them after the point. */
  predicate FitsDecimal(x: real, digits: nat, places: nat)
    requires places <= digits
  {
    var scaled := x * Pow10(places) as real;
    var bound := Pow10(digits) as int;
    scaled.Floor as real == scaled && -bound < scaled.Floor < bound
  }

  function Pow10(n: nat): (p: nat)
    ensures p >= 1
  {
    if n == 0 then 1 else 10 * Pow10(n - 1)
  }

  /** Every choice fits its column (`max_length=20`), 'active' is not a store status, and
      the defaults are among the choices. */
  lemma ChoicesFitColumns()
    ensures forall c :: c in StatusChoices ==> |c| <= 20
    ensures forall c :: c in TypeChoices ==> |c| <= 20
    ensures !ValidStatus("active") && !ValidStatus("inactive")
    ensures ValidStatus(DefaultStatus) && ValidType(DefaultType)
    ensures FitsDecimal(DefaultRate, 5, 4)
  {
    assert DefaultRate * Pow10(4) as real == 500.0;
  }
}
