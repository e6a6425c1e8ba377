/** The store factory (`backend/partner_stores/services/store_factory.py`): one creator
    per store type, each writing a new pending store with the perks of its tier. The
    request data is a map from field names to the submitted text. */
module StoreFactory {
  import opened Wrappers
  import opened PartnerStores
  import Commission

  type StoreData = map<string, string>

  datatype FactoryError =
    | UnknownType(message: string) // ValueError
    | KeyError(key: string)        // a required key missing from the data
    | IntegrityError(column: string) // the database refused a value a unique column holds

  /** The keys every creator reads with `data[...]`, in the order it reads them. */
  const RequiredKeys: seq<string> := ["name", "cnpj", "address", "phone", "email"]

  function UnknownTypeMessage(storeType: string): string {
    "Tipo de loja desconhecido: " + storeType
  }

  /** The first required key missing from `data`, if any. */
  function FirstMissing(keys: seq<string>, data: StoreData): (m: Option<string>)
    ensures m.None? <==> forall k :: k in keys ==> k in data
    ensures m.Some? ==> m.value in keys && m.value !in data
  {
    if keys == [] then None
    else if keys[0] !in data then Some(keys[0])
    else FirstMissing(keys[1..], data)
  }

  /** What a tier grants: its commission rate, the featured flag and priority support. */
  datatype Tier = Tier(rate: real, featured: bool, prioritySupport: bool)

  function TierOf(storeType: string): Tier
    requires ValidType(storeType)
  {
    if storeType == "regular" then Tier(0.05, DefaultFeatured, DefaultPrioritySupport)
    else if storeType == "premium" then Tier(0.03, true, DefaultPrioritySupport)
    else Tier(0.02, true, true)
  }

  /** `StoreCreator.create_store`: an unknown type fails before the data is read; a known
      type with a required key missing fails on the first such key; otherwise a pending
      store of that type, owned by `owner`, with the submitted contact data, the
      description when given (empty otherwise) and its tier's rate and perks. */
  function CreateStore(storeType: string, data: StoreData, owner: int, id: int, now: int)
    : (r: Result<PartnerStore, FactoryError>)
    ensures r.Failure? && r.error.UnknownType? <==> !ValidType(storeType)
    ensures r.Failure? && r.error.UnknownType? ==> r.error.message == UnknownTypeMessage(storeType)
    ensures r.Failure? && r.error.KeyError? ==> r.error.key in RequiredKeys && r.error.key !in data
    ensures r.Failure? ==> !r.error.IntegrityError?
    ensures r.Success? <==> ValidType(storeType) && forall k :: k in RequiredKeys ==> k in data
    ensures r.Success? ==>
      && r.value.id == id && r.value.owner == owner
      && r.value.name == data["name"] && r.value.cnpj == data["cnpj"]
      && r.value.address == data["address"] && r.value.phone == data["phone"]
      && r.value.email == data["email"]
      && r.value.description == (if "description" in data then data["description"] else "")
      && r.value.status == "pending" && r.value.storeType == storeType
      && r.value.createdAt == now && r.value.updatedAt == now
    ensures r.Success? && storeType == "regular" ==>
      r.value.commissionRate == 0.05 && !r.value.featured && !r.value.prioritySupport
    ensures r.Success? && storeType == "premium" ==>
      r.value.commissionRate == 0.03 && r.value.featured && !r.value.prioritySupport
    ensures r.Success? && storeType == "enterprise" ==>
      r.value.commissionRate == 0.02 && r.value.featured && r.value.prioritySupport
  {
    if !ValidType(storeType) then Failure(UnknownType(UnknownTypeMessage(storeType)))
    else
      match FirstMissing(RequiredKeys, data)
      case Some(k) => Failure(KeyError(k))
      case None =>
        var tier := TierOf(storeType);
        Success(PartnerStore(
          id, data["name"], data["cnpj"], owner, data["address"], data["phone"],
          data["email"], "pending",
          if "description" in data then data["description"] else "",
          now, now, storeType, tier.rate, tier.featured, tier.prioritySupport))
  }

  /** Every store the factory creates has a status and a type among the choices and a rate
      that fits its column. */
  lemma CreatedStoresAreWellFormed(storeType: string, data: StoreData, owner: int, id: int, now: int)
    requires CreateStore(storeType, data, owner, id, now).Success?
    ensures var s := CreateStore(storeType, data, owner, id, now).value;
      ValidStatus(s.status) && ValidType(s.storeType) && FitsDecimal(s.commissionRate, 5, 4)
  {
    var rate := CreateStore(storeType, data, owner, id, now).value.commissionRate;
    if storeType == "regular" {
      assert rate * 10000.0 == 500.0;
    } else if storeType == "premium" {
      assert rate * 10000.0 == 300.0;
    } else {
      assert rate * 10000.0 == 200.0;
    }
  }

  /** A new store's commission on a sale: 5% for a regular store; for a premium store 3%,
      2.7% above 5000 and 2.4% above 10000; for an enterprise store 2% up to the cap. */
  lemma CreatedStoreCommission(storeType: string, data: StoreData, owner: int, id: int, now: int, amount: real)
    requires CreateStore(storeType, data, owner, id, now).Success?
    ensures var s := CreateStore(storeType, data, owner, id, now).value;
      var c := Commission.CommissionFor(s, amount);
      && (storeType == "regular" ==> c == amount * 0.05)
      && (storeType == "premium" && amount <= 5000.0 ==> c == amount * 0.03)
      && (storeType == "premium" && 5000.0 < amount <= 10000.0 ==> c == amount * 0.027)
      && (storeType == "premium" && amount > 10000.0 ==> c == amount * 0.024)
      && (storeType == "enterprise" ==> c == if amount * 0.02 <= 5000.0 then amount * 0.02 else 5000.0)
  {
  }
}
