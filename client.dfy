/** The debtor record kept in a creditor's conversation memory. */
module ClientModel {
  import opened Text
  import opened Dicts
  import opened Values

  /** `surname`, `email` and `raw_id` are `Optional[str]`: None is a real value. */
  datatype Client = Client(
    id: string,
    name: string,
    surname: Option<string>,
    codePhone: string,
    prefixPhone: string,
    phoneNumber: string,
    email: Option<string>,
    creditorId: string,
    rawId: Option<string>)

  /** The field names, in the order `to_dict` lists them. */
  const FieldNames: seq<string> :=
    ["id", "name", "surname", "code_phone", "prefix_phone", "phone_number",
     "email", "creditor_id", "raw_id"]

  lemma FieldNamesDistinct()
    ensures forall i, j :: 0 <= i < j < |FieldNames| ==> FieldNames[i] != FieldNames[j]
  {
    forall i, j | 0 <= i < j < |FieldNames| ensures FieldNames[i] != FieldNames[j] {
      var a, b := FieldNames[i], FieldNames[j];
      assert |a| != |b| || a[0] != b[0] || a[1] != b[1];
    }
  }

  /** `full_phone_number()`: the prefix followed by the number. */
  function FullPhoneNumber(c: Client): (r: string)
    ensures StartsWith(r, c.prefixPhone) && r[|c.prefixPhone|..] == c.phoneNumber
  {
    c.prefixPhone + c.phoneNumber
  }

  /** `full_name()`: name and surname separated by a space, stripped. */
  function FullName(c: Client): (r: string)
    ensures IsStripped(r)
  {
    Strip(c.name + " " + OptToString(c.surname))
  }

  /** For a stripped name and surname, both present, the full name is exactly
      "name surname"; with an empty surname it is the stripped name. */
  lemma FullNameShapes(c: Client)
    ensures IsStripped(c.name) && c.name != [] && c.surname.Some? && IsStripped(c.surname.value)
              && c.surname.value != []
            ==> FullName(c) == c.name + " " + c.surname.value
    ensures IsStripped(c.name) && c.surname == Some("") ==> FullName(c) == c.name
  {
    if IsStripped(c.name) && c.name != [] && c.surname.Some? && IsStripped(c.surname.value)
       && c.surname.value != [] {
      StripJoinedPair(c.name, c.surname.value);
    }
    if IsStripped(c.name) && c.surname == Some("") {
      assert c.name + " " + OptToString(c.surname) == c.name + " ";
      StripTrailingSpace(c.name);
    }
  }

  /** `to_dict()`: each field under its own name. */
  function ToDict(c: Client): (d: Fields)
    ensures Keys(d) == FieldNames
  {
    var d := [("id", VStr(c.id)), ("name", VStr(c.name)), ("surname", OptStrValue(c.surname)),
     ("code_phone", VStr(c.codePhone)), ("prefix_phone", VStr(c.prefixPhone)),
     ("phone_number", VStr(c.phoneNumber)), ("email", OptStrValue(c.email)),
     ("creditor_id", VStr(c.creditorId)), ("raw_id", OptStrValue(c.rawId))];
    assert Keys(d) == FieldNames;
    FieldNamesDistinct();
    DistinctByKeys(d);
    d
  }

  /** Each field of the dict of a client holds that field's value. */
  lemma ToDictGets(c: Client)
    ensures var d := ToDict(c);
            && Get(d, "id") == Some(VStr(c.id)) && Get(d, "name") == Some(VStr(c.name))
            && Get(d, "surname") == Some(OptStrValue(c.surname))
            && Get(d, "code_phone") == Some(VStr(c.codePhone))
            && Get(d, "prefix_phone") == Some(VStr(c.prefixPhone))
            && Get(d, "phone_number") == Some(VStr(c.phoneNumber))
            && Get(d, "email") == Some(OptStrValue(c.email))
            && Get(d, "creditor_id") == Some(VStr(c.creditorId))
            && Get(d, "raw_id") == Some(OptStrValue(c.rawId))
  {
    var d := ToDict(c);
    GetAt(d, 0); GetAt(d, 1); GetAt(d, 2); GetAt(d, 3); GetAt(d, 4);
    GetAt(d, 5); GetAt(d, 6); GetAt(d, 7); GetAt(d, 8);
  }

  /** `Client(**d)`: pydantic validation, with the declared defaults for
      missing keys (`id=""`, `code_phone="PE"`, `prefix_phone="+51"`,
      `creditor_id=""`, and `""` for the optional strings); `name` and
      `phone_number` have none. Unknown keys are ignored. */
  function FromFields(d: Fields): (r: Option<Client>)
    ensures r.Some? ==> Has(d, "name") && Has(d, "phone_number")
    ensures r.Some? ==> StrField(d, "id", Some("")) == Some(r.value.id)
                        && StrField(d, "prefix_phone", Some("+51")) == Some(r.value.prefixPhone)
                        && StrField(d, "phone_number", None) == Some(r.value.phoneNumber)
                        && OptStrField(d, "raw_id", Some("")) == Some(r.value.rawId)
  {
    var id :- StrField(d, "id", Some(""));
    var name :- StrField(d, "name", None);
    var surname :- OptStrField(d, "surname", Some(""));
    var codePhone :- StrField(d, "code_phone", Some("PE"));
    var prefixPhone :- StrField(d, "prefix_phone", Some("+51"));
    var phoneNumber :- StrField(d, "phone_number", None);
    var email :- OptStrField(d, "email", Some(""));
    var creditorId :- StrField(d, "creditor_id", Some(""));
    var rawId :- OptStrField(d, "raw_id", Some(""));
    Some(Client(id, name, surname, codePhone, prefixPhone, phoneNumber, email, creditorId, rawId))
  }

  /** A validated client's full phone number is the dict's prefix and
      number, when the dict gives a prefix. */
  lemma FromFieldsPhone(d: Fields)
    ensures var c := FromFields(d);
            c.Some? && Has(d, "prefix_phone") ==>
              FullPhoneNumber(c.value) == Str(Get(d, "prefix_phone").value) + Str(Get(d, "phone_number").value)
  {
  }

  /** Validating the dict of a client gives the client back. */
  lemma ToDictRoundTrip(c: Client)
    ensures FromFields(ToDict(c)) == Some(c)
  {
    var d := ToDict(c);
    GetAt(d, 0); GetAt(d, 1); GetAt(d, 2); GetAt(d, 3); GetAt(d, 4);
    GetAt(d, 5); GetAt(d, 6); GetAt(d, 7); GetAt(d, 8);
  }

  /** A client given only its name and number takes the declared defaults. */
  lemma Defaults(name: string, phone: string)
    ensures FromFields([("name", VStr(name)), ("phone_number", VStr(phone))])
            == Some(Client("", name, Some(""), "PE", "+51", phone, Some(""), "", Some("")))
  {
    var d: Fields := [("name", VStr(name)), ("phone_number", VStr(phone))];
    GetAt(d, 0); GetAt(d, 1);
  }
}
