/** The partner store service (`backend/partner_stores/services/store_service.py`) over a
    table of stores held as a sequence: creation through the factory, the field-by-field
    update, the status change, the owner and text queries, and the commission of a sale.
    `now` stands for the clock read by the `auto_now` column on every save. */
module StoreService {
  import opened Wrappers
  import opened Seqs
  import opened Text
  import opened PartnerStores
  import opened StoreFactory
  import Commission

  /** `PartnerStoreService.create_store`: the type comes from the data's 'store_type' key,
      'regular' when absent. */
  function CreateFromData(data: StoreData, owner: int, id: int, now: int)
    : (r: Result<PartnerStore, FactoryError>)
    ensures "store_type" !in data ==>
      (r.Success? <==> forall k :: k in RequiredKeys ==> k in data)
    ensures r.Success? ==>
      r.value.storeType == (if "store_type" in data then data["store_type"] else DefaultType)
    ensures r.Success? ==> r.value.owner == owner && r.value.status == DefaultStatus
  {
    var storeType := if "store_type" in data then data["store_type"] else DefaultType;
    CreateStore(storeType, data, owner, id, now)
  }

  /** Data without a 'store_type' key creates a regular store: rate 5%, neither featured
      nor with priority support. */
  lemma UntypedDataCreatesRegular(data: StoreData, owner: int, id: int, now: int)
    requires "store_type" !in data
    requires CreateFromData(data, owner, id, now).Success?
    ensures var s := CreateFromData(data, owner, id, now).value;
      s.storeType == "regular" && s.status == "pending"
      && s.commissionRate == 0.05 && !s.featured && !s.prioritySupport
  {
  }

  /** No two rows share an id: the primary key. */
  predicate IdsUnique(table: seq<PartnerStore>) {
    forall i, j :: 0 <= i < j < |table| ==> table[i].id != table[j].id
  }

  /** No two rows share a CNPJ: the column is declared unique. */
  predicate CnpjsUnique(table: seq<PartnerStore>) {
    forall i, j :: 0 <= i < j < |table| ==> table[i].cnpj != table[j].cnpj
  }

  /** Some row other than row `i` holds `cnpj`. */
  predicate CnpjHeldElsewhere(table: seq<PartnerStore>, i: int, cnpj: string) {
    exists j :: 0 <= j < |table| && j != i && table[j].cnpj == cnpj
  }

  /** The result of a service call that may save a row: the saved store, if any, and the
      table afterwards. */
  datatype Saved = Saved(store: Option<PartnerStore>, table: seq<PartnerStore>)

  /** `PartnerStoreService.create_store` against the table: the factory's failures pass
      through; a store whose CNPJ some row already holds is refused by the database with an
      IntegrityError on 'cnpj', which nothing catches; otherwise the new store is appended.
      `id` is the fresh key the database assigns. */
  function CreateInto(table: seq<PartnerStore>, data: StoreData, owner: int, id: int, now: int)
    : (r: Result<Saved, FactoryError>)
    requires IdsUnique(table) && CnpjsUnique(table)
    requires forall i :: 0 <= i < |table| ==> table[i].id != id
    ensures r.Failure? && !r.error.IntegrityError? <==> CreateFromData(data, owner, id, now).Failure?
    ensures r.Failure? && !r.error.IntegrityError? ==> r.error == CreateFromData(data, owner, id, now).error
    ensures r.Failure? && r.error.IntegrityError? <==>
      CreateFromData(data, owner, id, now).Success? && "cnpj" in data &&
      exists j :: 0 <= j < |table| && table[j].cnpj == data["cnpj"]
    ensures r.Failure? && r.error.IntegrityError? ==> r.error.column == "cnpj"
    ensures r.Success? ==>
      r.value.store == Some(CreateFromData(data, owner, id, now).value) &&
      r.value.table == table + [r.value.store.value]
    ensures r.Success? ==> IdsUnique(r.value.table) && CnpjsUnique(r.value.table)
  {
    match CreateFromData(data, owner, id, now)
    case Failure(e) => Failure(e)
    case Success(s) =>
      if CnpjHeldElsewhere(table, |table|, s.cnpj) then Failure(IntegrityError("cnpj"))
      else Success(Saved(Some(s), table + [s]))
  }

  /** Creating a second store from the same data is refused: the first holds its CNPJ. */
  lemma SameCnpjTwiceIsRefused(table: seq<PartnerStore>, data: StoreData, owner: int,
                               first: int, second: int, now: int)
    requires IdsUnique(table) && CnpjsUnique(table)
    requires forall i :: 0 <= i < |table| ==> table[i].id != first && table[i].id != second
    requires first != second
    requires CreateInto(table, data, owner, first, now).Success?
    ensures var after := CreateInto(table, data, owner, first, now).value.table;
      CreateInto(after, data, owner, second, now) == Failure(IntegrityError("cnpj"))
  {
    var after := CreateInto(table, data, owner, first, now).value.table;
    assert after[|table|].cnpj == data["cnpj"];
  }

  /** `PartnerStore.objects.get(id=...)`: the row with that id. */
  function IndexOf(table: seq<PartnerStore>, id: int): (r: Option<nat>)
    ensures r.None? <==> forall i :: 0 <= i < |table| ==> table[i].id != id
    ensures r.Some? ==> r.value < |table| && table[r.value].id == id
  {
    if table == [] then None
    else if table[0].id == id then Some(0)
    else match IndexOf(table[1..], id)
      case None => None
      case Some(i) => Some(i + 1)
  }

  /** A value an update may carry. */
  datatype Value = Text(text: string) | Decimal(decimal: real) | Flag(flag: bool) | Key(key: int)

  /** The attributes `update_store` writes: the store's fields other than 'owner',
      'created_at' and 'updated_at', and 'owner_id', the foreign key behind 'owner'. */
  const WritableKeys: set<string> := {
    "name", "cnpj", "address", "phone", "email", "status", "description",
    "store_type", "commission_rate", "featured", "priority_support", "owner_id"}

  function TextOr(data: map<string, Value>, key: string, current: string): string {
    if key in data && data[key].Text? then data[key].text else current
  }

  function DecimalOr(data: map<string, Value>, key: string, current: real): real {
    if key in data && data[key].Decimal? then data[key].decimal else current
  }

  function FlagOr(data: map<string, Value>, key: string, current: bool): bool {
    if key in data && data[key].Flag? then data[key].flag else current
  }

  function KeyOr(data: map<string, Value>, key: string, current: int): int {
    if key in data && data[key].Key? then data[key].key else current
  }

  /** The loop of `update_store` and the save after it: each writable key in the data sets
      its attribute, every other key is skipped, and the save stamps `updated_at`. */
  function ApplyUpdate(s: PartnerStore, data: map<string, Value>, now: int): (r: PartnerStore)
    ensures r.id == s.id && r.createdAt == s.createdAt && r.updatedAt == now
    ensures "owner_id" !in data ==> r.owner == s.owner
    ensures "name" !in data ==> r.name == s.name
    ensures "cnpj" !in data ==> r.cnpj == s.cnpj
    ensures "address" !in data ==> r.address == s.address
    ensures "phone" !in data ==> r.phone == s.phone
    ensures "email" !in data ==> r.email == s.email
    ensures "status" !in data ==> r.status == s.status
    ensures "description" !in data ==> r.description == s.description
    ensures "store_type" !in data ==> r.storeType == s.storeType
    ensures "commission_rate" !in data ==> r.commissionRate == s.commissionRate
    ensures "featured" !in data ==> r.featured == s.featured
    ensures "priority_support" !in data ==> r.prioritySupport == s.prioritySupport
    ensures "name" in data && data["name"].Text? ==> r.name == data["name"].text
    ensures "cnpj" in data && data["cnpj"].Text? ==> r.cnpj == data["cnpj"].text
    ensures "address" in data && data["address"].Text? ==> r.address == data["address"].text
    ensures "phone" in data && data["phone"].Text? ==> r.phone == data["phone"].text
    ensures "email" in data && data["email"].Text? ==> r.email == data["email"].text
    ensures "status" in data && data["status"].Text? ==> r.status == data["status"].text
    ensures "description" in data && data["description"].Text? ==> r.description == data["description"].text
    ensures "store_type" in data && data["store_type"].Text? ==> r.storeType == data["store_type"].text
    ensures "commission_rate" in data && data["commission_rate"].Decimal? ==>
      r.commissionRate == data["commission_rate"].decimal
    ensures "featured" in data && data["featured"].Flag? ==> r.featured == data["featured"].flag
    ensures "priority_support" in data && data["priority_support"].Flag? ==>
      r.prioritySupport == data["priority_support"].flag
    ensures "owner_id" in data && data["owner_id"].Key? ==> r.owner == data["owner_id"].key
  {
    s.(
      name := TextOr(data, "name", s.name),
      cnpj := TextOr(data, "cnpj", s.cnpj),
      address := TextOr(data, "address", s.address),
      phone := TextOr(data, "phone", s.phone),
      email := TextOr(data, "email", s.email),
      status := TextOr(data, "status", s.status),
      description := TextOr(data, "description", s.description),
      storeType := TextOr(data, "store_type", s.storeType),
      commissionRate := DecimalOr(data, "commission_rate", s.commissionRate),
      featured := FlagOr(data, "featured", s.featured),
      prioritySupport := FlagOr(data, "priority_support", s.prioritySupport),
      owner := KeyOr(data, "owner_id", s.owner),
      updatedAt := now)
  }

  /** The keys of `data` that change nothing but the timestamp. */
  lemma IgnoredKeysChangeNothing(s: PartnerStore, data: map<string, Value>, now: int)
    requires forall k :: k in data ==> k !in WritableKeys
    ensures ApplyUpdate(s, data, now) == s.(updatedAt := now)
  {
  }

  /** Updating twice with the same data is updating once. */
  lemma UpdateIsIdempotent(s: PartnerStore, data: map<string, Value>, now: int)
    ensures ApplyUpdate(ApplyUpdate(s, data, now), data, now) == ApplyUpdate(s, data, now)
  {
  }

  /** 'owner' is protected, but 'owner_id' is not: an update carrying it moves the store to
      another owner, while one carrying 'owner' leaves the owner alone. */
  lemma OwnerChangesThroughOwnerId(s: PartnerStore, other: int, now: int)
    ensures ApplyUpdate(s, map["owner" := Key(other)], now).owner == s.owner
    ensures ApplyUpdate(s, map["owner_id" := Key(other)], now).owner == other
  {
  }

  /** The update does not validate: any text, 'active' included, becomes the status. */
  lemma UpdateWritesAnyStatus(s: PartnerStore, now: int)
    ensures !ValidStatus(ApplyUpdate(s, map["status" := Text("active")], now).status)
  {
    ChoicesFitColumns();
  }

  /** `PartnerStoreService.update_store`: `None` and an unchanged table when no store has
      the id; an IntegrityError on 'cnpj', which only `DoesNotExist` being caught lets
      through, when the update gives the store a CNPJ another row holds; otherwise the
      updated store, written back in its row. */
  function UpdateStore(table: seq<PartnerStore>, id: int, data: map<string, Value>, now: int)
    : (r: Result<Saved, string>)
    requires IdsUnique(table) && CnpjsUnique(table)
    ensures r.Failure? <==>
      exists i :: 0 <= i < |table| && table[i].id == id &&
        CnpjHeldElsewhere(table, i, ApplyUpdate(table[i], data, now).cnpj)
    ensures r.Failure? ==> r.error == "cnpj"
    ensures r.Success? ==> |r.value.table| == |table|
    ensures r.Success? ==> (r.value.store.None? <==> forall i :: 0 <= i < |table| ==> table[i].id != id)
    ensures r.Success? && r.value.store.None? ==> r.value.table == table
    ensures r.Success? && r.value.store.Some? ==>
      exists i :: (0 <= i < |table| && table[i].id == id &&
        r.value.store.value == ApplyUpdate(table[i], data, now) &&
        r.value.table == table[i := r.value.store.value])
    ensures r.Success? ==> IdsUnique(r.value.table) && CnpjsUnique(r.value.table)
  {
    match IndexOf(table, id)
    case None => Success(Saved(None, table))
    case Some(i) =>
      var updated := ApplyUpdate(table[i], data, now);
      if CnpjHeldElsewhere(table, i, updated.cnpj) then Failure("cnpj")
      else Success(Saved(Some(updated), table[i := updated]))
  }

  /** An update that gives one store the CNPJ of another is refused. */
  lemma TakingAnotherCnpjIsRefused(a: PartnerStore, b: PartnerStore, now: int)
    requires a.id != b.id && a.cnpj != b.cnpj
    ensures UpdateStore([a, b], a.id, map["cnpj" := Text(b.cnpj)], now) == Failure("cnpj")
  {
    assert [a, b][1].cnpj == b.cnpj;
  }

  /** An update that leaves the CNPJ alone always saves the store it names. */
  lemma UpdateKeepingCnpjSaves(table: seq<PartnerStore>, i: int, data: map<string, Value>, now: int)
    requires IdsUnique(table) && CnpjsUnique(table)
    requires 0 <= i < |table| && "cnpj" !in data
    ensures var r := UpdateStore(table, table[i].id, data, now);
      r.Success? && r.value.store == Some(ApplyUpdate(table[i], data, now))
  {
    assert !CnpjHeldElsewhere(table, i, table[i].cnpj);
  }

  /** `PartnerStoreService.change_store_status`: `None` and no save when no store has the
      id or the status is not one of the choices; otherwise the store with that status. */
  function ChangeStoreStatus(table: seq<PartnerStore>, id: int, status: string, now: int)
    : (r: Saved)
    requires IdsUnique(table)
    ensures r.store.Some? <==> ValidStatus(status) && exists i :: 0 <= i < |table| && table[i].id == id
    ensures r.store.None? ==> r.table == table
    ensures r.store.Some? ==> r.store.value.status == status && r.store.value.updatedAt == now
    ensures IdsUnique(r.table) && (CnpjsUnique(table) ==> CnpjsUnique(r.table))
  {
    match IndexOf(table, id)
    case None => Saved(None, table)
    case Some(i) =>
      if ValidStatus(status) then
        var changed := table[i].(status := status, updatedAt := now);
        Saved(Some(changed), table[i := changed])
      else Saved(None, table)
  }

  /** A valid status change is the update of the 'status' key alone. */
  lemma StatusChangeIsStatusUpdate(table: seq<PartnerStore>, id: int, status: string, now: int)
    requires IdsUnique(table) && CnpjsUnique(table) && ValidStatus(status)
    ensures UpdateStore(table, id, map["status" := Text(status)], now) == Success(ChangeStoreStatus(table, id, status, now))
  {
    match IndexOf(table, id)
    case None =>
    case Some(i) =>
      assert !CnpjHeldElsewhere(table, i, table[i].cnpj);
  }

  /** `PartnerStoreService.get_stores_by_owner` */
  function StoresByOwner(table: seq<PartnerStore>, owner: int): (r: seq<PartnerStore>)
    ensures forall s :: s in r <==> s in table && s.owner == owner
  {
    Filter(table, (s: PartnerStore) => s.owner == owner)
  }

  /** The `Q(...) | Q(...) | Q(...)` condition of `search_stores`. */
  predicate Matches(s: PartnerStore, query: string) {
    IContains(s.name, query) || IContains(s.cnpj, query) || IContains(s.address, query)
  }

  /** `PartnerStoreService.search_stores` */
  function SearchStores(table: seq<PartnerStore>, query: string): (r: seq<PartnerStore>)
    ensures forall s :: s in r <==> s in table && Matches(s, query)
  {
    Filter(table, (s: PartnerStore) => Matches(s, query))
  }

  /** The empty query matches every store, so searching for it lists the whole table. */
  lemma EmptyQueryFindsEverything(table: seq<PartnerStore>)
    ensures forall s :: s in SearchStores(table, "") <==> s in table
  {
    forall s | s in table
      ensures Matches(s, "")
    {
      assert OccursAt(LowerString(s.name), LowerString(""), 0);
    }
  }

  /** `PartnerStoreService.calculate_sale_commission`: `None` when no store has the id,
      otherwise that store's commission on the sale. */
  function SaleCommission(table: seq<PartnerStore>, id: int, amount: real): (r: Option<real>)
    ensures r.None? <==> forall i :: 0 <= i < |table| ==> table[i].id != id
    ensures r.Some? ==>
      exists i :: (0 <= i < |table| && table[i].id == id &&
        r.value == Commission.CommissionFor(table[i], amount))
  {
    match IndexOf(table, id)
    case None => None
    case Some(i) => Some(Commission.CommissionFor(table[i], amount))
  }
}
