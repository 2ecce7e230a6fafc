/** A collection (a debt being collected) kept in a creditor's memory. */
module CollectionModel {
  import opened Text
  import opened Dicts
  import opened Values

  datatype Collection = Collection(
    id: string,
    clientId: string,
    clientCellphone: string,
    clientFullName: string,
    acreetorId: string,
    acreetorFullName: string,
    acreetorCellphone: string,
    status: string,
    description: string,
    currency: string,
    amount: Float,
    collectionDate: string,
    paymentDate: Option<string>,
    totalQuotas: Option<int>,
    quotaNumber: Option<int>,
    frequencyPayment: string,
    active: Option<bool>)

  /** The field names, in the order `to_dict` lists them. */
  const FieldNames: seq<string> :=
    ["id", "client_id", "client_cellphone", "client_full_name", "acreetor_id",
     "acreetor_full_name", "acreetor_cellphone", "status", "description", "currency",
     "collection_date", "payment_date", "amount", "total_quotas", "quota_number",
     "frequency_payment", "active"]

  lemma FieldNamesDistinct()
    ensures forall i, j :: 0 <= i < j < |FieldNames| ==> FieldNames[i] != FieldNames[j]
  {
    forall i, j | 0 <= i < j < |FieldNames| ensures FieldNames[i] != FieldNames[j] {
      var a, b := FieldNames[i], FieldNames[j];
      assert |a| != |b| || a[0] != b[0] || a[|a| - 1] != b[|b| - 1] || a[1] != b[1]
             || a[|a| - 2] != b[|b| - 2];
    }
  }

  /** `to_dict()`: each of the 17 fields under its own name. */
  function ToDict(c: Collection): (d: Fields)
    ensures Keys(d) == FieldNames
  {
    var d := [("id", VStr(c.id)), ("client_id", VStr(c.clientId)),
     ("client_cellphone", VStr(c.clientCellphone)), ("client_full_name", VStr(c.clientFullName)),
     ("acreetor_id", VStr(c.acreetorId)), ("acreetor_full_name", VStr(c.acreetorFullName)),
     ("acreetor_cellphone", VStr(c.acreetorCellphone)), ("status", VStr(c.status)),
     ("description", VStr(c.description)), ("currency", VStr(c.currency)),
     ("collection_date", VStr(c.collectionDate)), ("payment_date", OptStrValue(c.paymentDate)),
     ("amount", VFloat(c.amount)), ("total_quotas", OptIntValue(c.totalQuotas)),
     ("quota_number", OptIntValue(c.quotaNumber)),
     ("frequency_payment", VStr(c.frequencyPayment)), ("active", OptBoolValue(c.active))];
    assert Keys(d) == FieldNames;
    FieldNamesDistinct();
    DistinctByKeys(d);
    d
  }

  /** `Collection(**d)`: pydantic validation. `payment_date` defaults to "",
      `total_quotas` and `quota_number` to 1, `active` to True; every other
      field is required. Unknown keys are ignored. */
  function FromFields(d: Fields): (r: Option<Collection>)
    ensures r.Some? ==> Has(d, "id") && Has(d, "client_id") && Has(d, "amount")
                        && Has(d, "frequency_payment")
    ensures r.Some? ==> Get(d, "id") == Some(VStr(r.value.id))
  {
    var id :- StrField(d, "id", None);
    var clientId :- StrField(d, "client_id", None);
    var clientCellphone :- StrField(d, "client_cellphone", None);
    var clientFullName :- StrField(d, "client_full_name", None);
    var acreetorId :- StrField(d, "acreetor_id", None);
    var acreetorFullName :- StrField(d, "acreetor_full_name", None);
    var acreetorCellphone :- StrField(d, "acreetor_cellphone", None);
    var status :- StrField(d, "status", None);
    var description :- StrField(d, "description", None);
    var currency :- StrField(d, "currency", None);
    var amount :- FloatField(d, "amount");
    var collectionDate :- StrField(d, "collection_date", None);
    var paymentDate :- OptStrField(d, "payment_date", Some(""));
    var totalQuotas :- OptIntField(d, "total_quotas", Some(1));
    var quotaNumber :- OptIntField(d, "quota_number", Some(1));
    var frequencyPayment :- StrField(d, "frequency_payment", None);
    var active :- OptBoolField(d, "active", Some(true));
    Some(Collection(id, clientId, clientCellphone, clientFullName, acreetorId, acreetorFullName,
                    acreetorCellphone, status, description, currency, amount, collectionDate,
                    paymentDate, totalQuotas, quotaNumber, frequencyPayment, active))
  }

  /** Validating the dict of a collection gives the collection back. */
  lemma ToDictRoundTrip(c: Collection)
    ensures FromFields(ToDict(c)) == Some(c)
  {
    ToDictGets(c);
    ValidatesTo(ToDict(c), c);
  }

  /** Each field of the dict of a collection holds that field's value. */
  lemma ToDictGets(c: Collection)
    ensures var d := ToDict(c);
            && Get(d, "id") == Some(VStr(c.id)) && Get(d, "client_id") == Some(VStr(c.clientId))
            && Get(d, "client_cellphone") == Some(VStr(c.clientCellphone))
            && Get(d, "client_full_name") == Some(VStr(c.clientFullName))
            && Get(d, "acreetor_id") == Some(VStr(c.acreetorId))
            && Get(d, "acreetor_full_name") == Some(VStr(c.acreetorFullName))
            && Get(d, "acreetor_cellphone") == Some(VStr(c.acreetorCellphone))
            && Get(d, "status") == Some(VStr(c.status)) && Get(d, "description") == Some(VStr(c.description))
            && Get(d, "currency") == Some(VStr(c.currency)) && Get(d, "amount") == Some(VFloat(c.amount))
            && Get(d, "collection_date") == Some(VStr(c.collectionDate))
            && Get(d, "payment_date") == Some(OptStrValue(c.paymentDate))
            && Get(d, "total_quotas") == Some(OptIntValue(c.totalQuotas))
            && Get(d, "quota_number") == Some(OptIntValue(c.quotaNumber))
            && Get(d, "frequency_payment") == Some(VStr(c.frequencyPayment))
            && Get(d, "active") == Some(OptBoolValue(c.active))
  {
    var d := ToDict(c);
    GetAt(d, 0); GetAt(d, 1); GetAt(d, 2); GetAt(d, 3); GetAt(d, 4); GetAt(d, 5);
    GetAt(d, 6); GetAt(d, 7); GetAt(d, 8); GetAt(d, 9); GetAt(d, 10); GetAt(d, 11);
    GetAt(d, 12); GetAt(d, 13); GetAt(d, 14); GetAt(d, 15); GetAt(d, 16);
  }

  /** A dict holding each field of a collection validates to that collection. */
  lemma ValidatesTo(d: Fields, c: Collection)
    requires Get(d, "id") == Some(VStr(c.id)) && Get(d, "client_id") == Some(VStr(c.clientId))
    requires Get(d, "client_cellphone") == Some(VStr(c.clientCellphone))
    requires Get(d, "client_full_name") == Some(VStr(c.clientFullName))
    requires Get(d, "acreetor_id") == Some(VStr(c.acreetorId))
    requires Get(d, "acreetor_full_name") == Some(VStr(c.acreetorFullName))
    requires Get(d, "acreetor_cellphone") == Some(VStr(c.acreetorCellphone))
    requires Get(d, "status") == Some(VStr(c.status)) && Get(d, "description") == Some(VStr(c.description))
    requires Get(d, "currency") == Some(VStr(c.currency)) && Get(d, "amount") == Some(VFloat(c.amount))
    requires Get(d, "collection_date") == Some(VStr(c.collectionDate))
    requires Get(d, "payment_date") == Some(OptStrValue(c.paymentDate))
    requires Get(d, "total_quotas") == Some(OptIntValue(c.totalQuotas))
    requires Get(d, "quota_number") == Some(OptIntValue(c.quotaNumber))
    requires Get(d, "frequency_payment") == Some(VStr(c.frequencyPayment))
    requires Get(d, "active") == Some(OptBoolValue(c.active))
    ensures FromFields(d) == Some(c)
  {
  }

  /** The fields without a default: dropping one of them fails validation. */
  const Required: seq<string> :=
    ["id", "client_id", "client_cellphone", "client_full_name", "acreetor_id",
     "acreetor_full_name", "acreetor_cellphone", "status", "description", "currency",
     "amount", "collection_date", "frequency_payment"]

  lemma RequiredHaveNoDefault(d: Fields, k: string)
    requires k in Required && !Has(d, k)
    ensures FromFields(d).None?
  {
  }

  /** A record that gives every required field and leaves out the four
      optional ones validates with the defaults: payment date "", one quota
      of one, active. */
  lemma Defaults(d: Fields, c: Collection)
    requires Get(d, "id") == Some(VStr(c.id))
    requires Get(d, "client_id") == Some(VStr(c.clientId))
    requires Get(d, "client_cellphone") == Some(VStr(c.clientCellphone))
    requires Get(d, "client_full_name") == Some(VStr(c.clientFullName))
    requires Get(d, "acreetor_id") == Some(VStr(c.acreetorId))
    requires Get(d, "acreetor_full_name") == Some(VStr(c.acreetorFullName))
    requires Get(d, "acreetor_cellphone") == Some(VStr(c.acreetorCellphone))
    requires Get(d, "status") == Some(VStr(c.status))
    requires Get(d, "description") == Some(VStr(c.description))
    requires Get(d, "currency") == Some(VStr(c.currency))
    requires Get(d, "amount") == Some(VFloat(c.amount))
    requires Get(d, "collection_date") == Some(VStr(c.collectionDate))
    requires Get(d, "frequency_payment") == Some(VStr(c.frequencyPayment))
    requires !Has(d, "payment_date") && !Has(d, "total_quotas") && !Has(d, "quota_number")
    requires !Has(d, "active")
    ensures FromFields(d) == Some(c.(paymentDate := Some(""), totalQuotas := Some(1),
                                     quotaNumber := Some(1), active := Some(true)))
  {
  }
}
