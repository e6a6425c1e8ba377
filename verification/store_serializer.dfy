/** The partner store serializer (`backend/partner_stores/serializers.py`) as the creation
    endpoint runs it: the model's own field rules first, then `validate_cnpj`, and the
    validated data handed to the service. */
module StoreSerializer {
  import opened Wrappers
  import opened Text
  import opened PartnerStores
  import opened StoreFactory
  import opened StoreService

  /** The fields a client may write: the listed fields minus 'id', 'created_at' and
      'updated_at', which are read-only. */
  const WritableFields: set<string> := {
    "name", "cnpj", "owner", "address", "phone", "email", "status", "description"}

  /** The writable fields the model requires (no default, not blank). */
  const RequiredFields: set<string> := {"name", "cnpj", "owner", "address", "phone", "email"}

  const CnpjLengthMessage := "CNPJ deve conter exatamente 14 dígitos"
  const CnpjDigitsMessage := "CNPJ deve conter apenas números"

  /** `validate_cnpj`: exactly 14 characters, all of them digits, checked in that order;
      the value is kept as given. */
  function ValidateCnpj(value: string): (r: Result<string, string>)
    ensures r.Success? <==> |value| == 14 && AllDigits(value)
    ensures r.Success? ==> r.value == value
    ensures r.Failure? && |value| != 14 ==> r.error == CnpjLengthMessage
    ensures r.Failure? && |value| == 14 ==> r.error == CnpjDigitsMessage
  {
    if |value| != 14 then Failure(CnpjLengthMessage)
    else if !AllDigits(value) then Failure(CnpjDigitsMessage)
    else Success(value)
  }

  /** The whole check of the 'cnpj' field: the model's length rules, and only when they
      pass, `validate_cnpj`. */
  predicate CnpjPasses(value: string) {
    CnpjFitsModel(value) && ValidateCnpj(value).Success?
  }

  /** The two rules contradict each other: every CNPJ `validate_cnpj` accepts breaks the
      model's 18-character rule, so no CNPJ passes the field. */
  lemma NoCnpjPasses(value: string)
    ensures ValidateCnpj(value).Success? ==> !CnpjFitsModel(value)
    ensures !CnpjPasses(value)
  {
  }

  /** The fields with an error. */
  function Errors(raw: StoreData): (e: set<string>)
    ensures e <= WritableFields
    ensures forall f :: f in RequiredFields && (f !in raw || raw[f] == "") ==> f in e
    ensures "cnpj" in raw && !CnpjPasses(raw["cnpj"]) ==> "cnpj" in e
    ensures "status" in raw && !ValidStatus(raw["status"]) ==> "status" in e
    ensures e == {} ==> forall f :: f in RequiredFields ==> f in raw
  {
    (set f | f in RequiredFields && (f !in raw || raw[f] == ""))
    + (if "name" in raw && !NameFitsModel(raw["name"]) then {"name"} else {})
    + (if "cnpj" in raw && !CnpjPasses(raw["cnpj"]) then {"cnpj"} else {})
    + (if "phone" in raw && |raw["phone"]| > 20 then {"phone"} else {})
    + (if "status" in raw && !ValidStatus(raw["status"]) then {"status"} else {})
  }

  /** The data `is_valid` leaves in `validated_data`: the writable fields submitted. */
  function ValidatedData(raw: StoreData): (d: StoreData)
    ensures d.Keys <= WritableFields
    ensures forall k :: k in d <==> k in raw && k in WritableFields
    ensures forall k :: k in d ==> d[k] == raw[k]
  {
    map k | k in raw && k in WritableFields :: raw[k]
  }

  /** `is_valid()` followed by `validated_data`, or the fields in error. */
  function Validate(raw: StoreData): (r: Result<StoreData, set<string>>)
    ensures r.Failure? <==> Errors(raw) != {}
    ensures r.Success? ==> r.value == ValidatedData(raw)
  {
    var e := Errors(raw);
    if e != {} then Failure(e) else Success(ValidatedData(raw))
  }

  /** No submission validates: the 'cnpj' field is always in error, present or not. */
  lemma NoSubmissionValidates(raw: StoreData)
    ensures Validate(raw).Failure?
    ensures "cnpj" in Errors(raw)
  {
    if "cnpj" in raw {
      NoCnpjPasses(raw["cnpj"]);
    }
  }

  /** 'store_type' is not a serializer field, so a store created from validated data is
      always regular and pending, whatever type or status the client sent. */
  lemma SerializedCreationIsRegular(raw: StoreData, owner: int, id: int, now: int)
    requires CreateFromData(ValidatedData(raw), owner, id, now).Success?
    ensures CreateFromData(ValidatedData(raw), owner, id, now).value.storeType == "regular"
    ensures CreateFromData(ValidatedData(raw), owner, id, now).value.status == "pending"
    ensures CreateFromData(ValidatedData(raw), owner, id, now).value.commissionRate == 0.05
  {
    var d := ValidatedData(raw);
    assert "store_type" !in WritableFields;
    UntypedDataCreatesRegular(d, owner, id, now);
  }
}
