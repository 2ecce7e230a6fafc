/** The parts of `IndiProvider` that do not talk to the network: response
    and header handling, the phone checks, the memory lookups the agent's
    tools reply with, and the preprocessing of a collection registration. */
module Provider {
  import opened Text
  import opened Dicts
  import opened Values
  import opened ClientModel
  import opened CollectionModel
  import opened Schema

  // ----- _handle_response -----

  /** What the agent needs of an HTTP response: its status, its text, and its
      body parsed as JSON (None when the text is not JSON). */
  datatype Response<J> = Response(statusCode: int, text: string, json: Option<J>)

  /** `_handle_response`: any status but 200 and 204 raises with the error
      message and the response text; 204 has no body; 200 gives the parsed
      body, and `response.json()` raises when there is none. */
  function HandleResponse<J>(r: Response<J>, errorMsg: string): (o: Outcome<Option<J>>)
    ensures r.statusCode != 200 && r.statusCode != 204 ==> o == Raised(errorMsg + ": " + r.text)
    ensures r.statusCode == 204 ==> o == Ok(None)
    ensures r.statusCode == 200 ==> (o.Ok? <==> r.json.Some?) && (o.Ok? ==> o.value == r.json)
    ensures o.Ok? ==> r.statusCode == 200 || r.statusCode == 204
  {
    if r.statusCode != 200 && r.statusCode != 204 then Raised(errorMsg + ": " + r.text)
    else if r.statusCode == 204 then Ok(None)
    else if r.json.None? then Raised("JSONDecodeError")
    else Ok(r.json)
  }

  // ----- _build_headers -----

  const JsonContentType: (string, string) := ("Content-Type", "application/json")

  /** The pairs of `ps` put into `d` in order. */
  function PutAll(d: Dict<string, string>, ps: seq<(string, string)>): (r: Dict<string, string>)
  {
    if ps == [] then d
    else
      var n := |ps| - 1;
      Put(PutAll(d, ps[..n]), ps[n].0, ps[n].1)
  }

  /** Putting the pairs of a dict: its keys get its values, the other keys
      keep theirs. */
  lemma {:induction false} PutAllGet(d: Dict<string, string>, ps: Dict<string, string>, k: string)
    ensures Get(PutAll(d, ps), k) == if Has(ps, k) then Get(ps, k) else Get(d, k)
  {
    if ps != [] {
      var n := |ps| - 1;
      var init := ps[..n];
      PutAllGet(d, init, k);
      if k != ps[n].0 {
        var f := Find(ps, k);
        if f.Some? {
          GetAt(ps, f.value);
          GetAt(init, f.value);
        } else {
          assert forall j :: 0 <= j < |init| ==> init[j] == ps[j];
        }
      } else {
        GetAt(ps, n);
      }
    }
  }

  /** `_build_headers`: JSON content type, then each given header in order;
      a given `Content-Type` overrides the default. */
  method BuildHeaders(dataHeaders: Option<Dict<string, string>>) returns (headers: Dict<string, string>)
    ensures var given := if dataHeaders.Some? then dataHeaders.value else [];
            headers == PutAll([JsonContentType], given)
  {
    headers := [JsonContentType];
    if dataHeaders.Some? && dataHeaders.value != [] {
      var items := dataHeaders.value;
      var i := 0;
      while i < |items|
        invariant 0 <= i <= |items|
        invariant headers == PutAll([JsonContentType], items[..i])
      {
        assert items[..i + 1][..i] == items[..i];
        headers := Put(headers, items[i].0, items[i].1);
        i := i + 1;
      }
      assert items[..i] == items;
    }
  }

  /** The headers hold exactly the given ones plus the JSON content type when
      none was given for it. */
  lemma BuildHeadersGet(given: Dict<string, string>, k: string)
    ensures Get(PutAll([JsonContentType], given), k)
            == if Has(given, k) then Get(given, k)
               else if k == "Content-Type" then Some("application/json") else None
  {
    PutAllGet([JsonContentType], given, k);
  }

  // ----- phone_validator -----

  /** The five replies of `phone_validator`, in the order its branches test. */
  datatype PhoneVerdict = Valid | PrefixNotPeru | NotNineDigits | NotStartingWith9 | NeedsBoth

  /** `phone_validator`'s branches. A 9-character number is valid with prefix
      `+51` or no prefix, whatever its digits; a prefix that is not `+51…`
      is rejected next; every remaining number of the wrong length, or not
      starting with 9, gets the nine-digit reply, so the "must start with 9"
      branch is never taken. */
  function PhoneCheck(prefix: string, number: string): (v: PhoneVerdict)
    ensures v == Valid <==> (prefix == "+51" || prefix == "") && |number| == 9
    ensures v == PrefixNotPeru <==> v != Valid && !StartsWith(prefix, "+51")
    ensures v == NeedsBoth <==> v != Valid && StartsWith(prefix, "+51") && |number| == 9
                                && StartsWith(number, "9")
    ensures v != NotStartingWith9
  {
    if (prefix == "+51" || prefix == "") && |number| == 9 then Valid
    else if !StartsWith(prefix, "+51") then PrefixNotPeru
    else if |number| != 9 || !StartsWith(number, "9") then NotNineDigits
    else if !StartsWith(number, "9") then NotStartingWith9
    else NeedsBoth
  }

  /** The last reply is reached by a longer prefix that starts with `+51`,
      and a 9-digit number not starting with 9 passes. */
  lemma PhoneCheckExamples()
    ensures PhoneCheck("+510", "912345678") == NeedsBoth
    ensures PhoneCheck("+51", "812345678") == Valid
    ensures PhoneCheck("", "12345") == PrefixNotPeru
  {
    assert "+510"[..3] == "+51";
    assert "912345678"[..1] == "9";
    assert !StartsWith("", "+51");
  }

  const ValidTail: string := "valido, puede ser usado para registrar un cliente o un cobro"
  const PrefixTail: string := "invalido, debe comenzar con +51, solo ofrecemos servicio para numeros de Peru"
  const LengthTail: string := "invalido, debe tener 9 digitos sin contar el prefijo"
  const StartTail: string := "invalido, el numero debe empezar con 9"
  const BothTail: string := "invalido, debe tener 9 digitos y comenzar con +51"

  /** The reply text of `phone_validator`: the number as checked, then the
      reply its inputs select. */
  function PhoneMessage(prefix: string, number: string): (m: string)
    ensures var head := "El telefono " + prefix + number + " es ";
            && ((prefix == "+51" || prefix == "") && |number| == 9 ==> m == head + ValidTail)
            && ((!((prefix == "+51" || prefix == "") && |number| == 9) && !StartsWith(prefix, "+51"))
                ==> m == head + PrefixTail)
            && ((StartsWith(prefix, "+51") && !(prefix == "+51" && |number| == 9)
                 && (|number| != 9 || !StartsWith(number, "9")))
                ==> m == head + LengthTail)
            && ((StartsWith(prefix, "+51") && prefix != "+51" && |number| == 9 && StartsWith(number, "9"))
                ==> m == head + BothTail)
    ensures StartsWith(m, "El telefono " + prefix + number + " es ")
  {
    var head := "El telefono " + prefix + number + " es ";
    var tail := match PhoneCheck(prefix, number)
      case Valid => ValidTail
      case PrefixNotPeru => PrefixTail
      case NotNineDigits => LengthTail
      case NotStartingWith9 => StartTail
      case NeedsBoth => BothTail;
    assert (head + tail)[..|head|] == head;
    head + tail
  }

  // ----- get_clients_by_phone_number -----

  /** The number `get_clients_by_phone_number` looks up: a 12-character
      `+51…` number as it is, `+51` before a 9-character one; None for any
      other length. */
  function NormalizePhone(p: string): (r: Option<string>)
    ensures r.Some? <==> (StartsWith(p, "+51") && |p| == 12) || |p| == 9
    ensures r.Some? ==> |r.value| == 12 && StartsWith(r.value, "+51")
    ensures r.Some? ==> r.value[3..] == p[|p| - 9..]
  {
    if StartsWith(p, "+51") && |p| == 12 then Some(p)
    else if |p| != 9 then None
    else
      var q := "+51" + p;
      assert q[..3] == "+51" && q[3..] == p;
      Some(q)
  }

  /** Normalising a normalised number changes nothing. */
  lemma NormalizePhoneIdempotent(p: string)
    requires NormalizePhone(p).Some?
    ensures NormalizePhone(NormalizePhone(p).value) == NormalizePhone(p)
  {
  }

  /** What `get_clients_by_phone_number` finds. */
  datatype PhoneLookup =
    | NotAllowed(phone: string, length: nat)
    | Registered(phone: string, name: string)
    | NotRegistered(phone: string)

  /** `get_clients_by_phone_number` on the memory's clients. */
  function LookupByPhone(p: string, clients: Dict<string, Client>): (r: PhoneLookup)
    ensures r.NotAllowed? <==> NormalizePhone(p).None?
    ensures r.NotAllowed? ==> r == NotAllowed(p, |p|)
    ensures r.Registered? <==> NormalizePhone(p).Some? && Has(clients, NormalizePhone(p).value)
    ensures r.Registered? ==> r.phone == NormalizePhone(p).value
                              && r.name == Get(clients, r.phone).value.name
    ensures r.NotRegistered? ==> r.phone == NormalizePhone(p).value
  {
    match NormalizePhone(p)
    case None => NotAllowed(p, |p|)
    case Some(n) =>
      match Get(clients, n)
      case Some(c) => Registered(n, c.name)
      case None => NotRegistered(n)
  }

  /** The reply text of a phone lookup. */
  function PhoneLookupMessage(r: PhoneLookup): string {
    match r
    case NotAllowed(p, n) =>
      "El numero " + p + " tiene " + NatToString(n) + " digitos, lo cual no esta permitido"
    case Registered(p, name) => "El numero " + p + " ya se encuentra registrado a nombre de " + name
    case NotRegistered(p) =>
      "El cliente con el numero " + p + " no existe, seguir con la intencion actual si se cumplen los requisitos"
  }

  // ----- get_clients_by_name -----

  /** The test `get_clients_by_name` applies to a client with a surname, for
      the lowered query `q`. */
  predicate NameMatches(q: string, c: Client)
    requires q != [] && c.surname.Some?
  {
    var n := Lower(c.name);
    var s := Lower(c.surname.value);
    StartsWith(n, q[..1]) || StartsWith(s, q[..1]) || n == q || s == q
  }

  /** The equality tests add nothing: a client matches exactly when its
      lowered name or surname starts with the query's first character. */
  lemma NameMatchesFirstChar(q: string, c: Client)
    requires q != [] && c.surname.Some?
    ensures NameMatches(q, c) <==>
            (Lower(c.name) != [] && Lower(c.name)[0] == q[0])
            || (Lower(c.surname.value) != [] && Lower(c.surname.value)[0] == q[0])
  {
    var n := Lower(c.name);
    var s := Lower(c.surname.value);
    if n == q { assert n[..1] == q[..1]; }
    if s == q { assert s[..1] == q[..1]; }
    if n != [] && n[0] == q[0] { assert n[..1] == q[..1]; }
    if s != [] && s[0] == q[0] { assert s[..1] == q[..1]; }
  }

  const NoSurnameError: string := "AttributeError: 'NoneType' object has no attribute 'lower'"

  /** The clients that match, in dict order; a client without a surname
      stops the scan with `AttributeError`. */
  function MatchByName(q: string, cs: seq<Client>): (r: Outcome<seq<Client>>)
    requires q != []
    ensures r.Raised? <==> exists i :: 0 <= i < |cs| && cs[i].surname.None?
    ensures r.Raised? ==> r == Raised(NoSurnameError)
  {
    if cs == [] then Ok([])
    else
      var n := |cs| - 1;
      match MatchByName(q, cs[..n])
      case Raised(e) =>
        assert cs[..n] == cs[..n];
        var i :| 0 <= i < n && cs[..n][i].surname.None?;
        assert cs[i] == cs[..n][i];
        Raised(e)
      case Ok(m) =>
        if cs[n].surname.None? then Raised(NoSurnameError)
        else
          assert forall i :: 0 <= i < n ==> cs[i] == cs[..n][i];
          Ok(if NameMatches(q, cs[n]) then m + [cs[n]] else m)
  }

  /** The matches are exactly the matching clients, in order. */
  lemma {:induction false} MatchByNameMembers(q: string, cs: seq<Client>, c: Client)
    requires q != [] && MatchByName(q, cs).Ok?
    ensures c in MatchByName(q, cs).value <==> c in cs && c.surname.Some? && NameMatches(q, c)
    ensures |MatchByName(q, cs).value| <= |cs|
  {
    if cs != [] {
      var n := |cs| - 1;
      MatchByNameMembers(q, cs[..n], c);
      assert cs == cs[..n] + [cs[n]];
      if c in cs && c.surname.Some? && NameMatches(q, c) && c !in cs[..n] {
        assert c == cs[n];
      }
    }
  }

  /** `get_clients_by_name`: `name[0]` raises on an empty query, then every
      client is tested in dict order. */
  function NameSearch(name: string, clients: Dict<string, Client>): (r: Outcome<seq<Client>>)
    ensures name == [] ==> r.Raised?
  {
    var q := Lower(name);
    if q == [] then Raised("IndexError: string index out of range")
    else MatchByName(q, Dicts.Values(clients))
  }

  /** The scan of `get_clients_by_name`. */
  method GetClientsByName(name: string, clients: Dict<string, Client>) returns (r: Outcome<seq<Client>>)
    ensures r == NameSearch(name, clients)
  {
    var q := Lower(name);
    if q == [] {
      return Raised("IndexError: string index out of range");
    }
    var cs := Dicts.Values(clients);
    var matched: seq<Client> := [];
    var i := 0;
    while i < |cs|
      invariant 0 <= i <= |cs|
      invariant MatchByName(q, cs[..i]) == Ok(matched)
    {
      assert cs[..i + 1][..i] == cs[..i];
      var data := cs[i];
      if data.surname.None? {
        assert MatchByName(q, cs[..i + 1]).Raised?;
        MatchByNameRaisedSticky(q, cs, i + 1);
        return Raised(NoSurnameError);
      }
      if NameMatches(q, data) {
        matched := matched + [data];
      }
      i := i + 1;
    }
    assert cs[..i] == cs;
    return Ok(matched);
  }

  /** A client without a surname anywhere makes the whole scan raise. */
  lemma MatchByNameRaisedSticky(q: string, cs: seq<Client>, i: nat)
    requires q != [] && i <= |cs| && MatchByName(q, cs[..i]).Raised?
    ensures MatchByName(q, cs).Raised?
  {
    var j :| 0 <= j < i && cs[..i][j].surname.None?;
    assert cs[j] == cs[..i][j];
  }

  /** The reply text of `get_clients_by_name`, given how Python prints the list. */
  function NameSearchMessage(q: string, matched: seq<Client>, repr: seq<Client> -> string): string {
    if matched != [] then
      "Se encontraron " + NatToString(|matched|) + " coincidencias de clientes con el nombre " + q
      + " o similares: " + repr(matched)
    else "No existe ningun cliente con el nombre " + q
  }

  // ----- get_all_clients_from_user -----

  // Written in two parts so that its first character is visible to the
  // prover, which tells it apart from the count message by `m[0]`.
  const NoClientsMessage: string := "No existe" + " ningun cliente registrado por el usuario"

  /** `get_all_clients_from_user` as written: `dict_items != []` compares a
      view with a list and is always true, so the count is reported even
      when it is zero. */
  function AllClientsMessage(clients: Dict<string, Client>, repr: Dict<string, Client> -> string): (m: string)
    ensures StartsWith(m, "Se encontraron " + NatToString(|clients|) + " clientes: ")
  {
    var head := "Se encontraron " + NatToString(|clients|) + " clientes: ";
    assert (head + repr(clients))[..|head|] == head;
    head + repr(clients)
  }

  /** No stored clients still gives "Se encontraron 0 clientes". */
  lemma AllClientsEmptyStillFound(repr: Dict<string, Client> -> string)
    ensures AllClientsMessage([], repr) != NoClientsMessage
    ensures StartsWith(AllClientsMessage([], repr), "Se encontraron 0 clientes: ")
  {
    assert NatToString(0) == "0";
    var m := AllClientsMessage([], repr);
    assert m[0] == 'S' && NoClientsMessage[0] == 'N';
  }

  /** The reply the empty-check evidently means: the "none registered" text
      exactly when there are no clients. */
  function AllClientsMessageIntended(clients: Dict<string, Client>, repr: Dict<string, Client> -> string)
    : (m: string)
    ensures m == NoClientsMessage <==> clients == []
    ensures clients != [] ==> m == AllClientsMessage(clients, repr)
  {
    if clients != [] then
      var m := AllClientsMessage(clients, repr);
      assert m[0] == 'S' && NoClientsMessage[0] == 'N';
      m
    else NoClientsMessage
  }

  // ----- get_all_collections_from_user -----

  /** The per-collection dict `get_all_collections_from_user` prints. */
  datatype CollectionSummary = CollectionSummary(
    collectionId: string,
    clientCellphone: string,
    clientFullName: string,
    status: string,
    description: string,
    amount: Float,
    collectionDate: string,
    paymentDate: Option<string>,
    frecuencyPayment: string,
    quotas: string)

  /** The summary of one collection; `quota/total_quotas` is
      `str(quota_number) + '/' + str(total_quotas)`. */
  function Summarize(c: Collection): (s: CollectionSummary)
    ensures s.collectionId == c.id && s.status == c.status && s.amount == c.amount
    ensures s.clientCellphone == c.clientCellphone && s.clientFullName == c.clientFullName
    ensures s.description == c.description
    ensures s.collectionDate == c.collectionDate && s.paymentDate == c.paymentDate
    ensures s.frecuencyPayment == c.frequencyPayment
    ensures s.quotas == OptIntToString(c.quotaNumber) + "/" + OptIntToString(c.totalQuotas)
  {
    CollectionSummary(c.id, c.clientCellphone, c.clientFullName, c.status, c.description,
                      c.amount, c.collectionDate, c.paymentDate, c.frequencyPayment,
                      OptIntToString(c.quotaNumber) + "/" + OptIntToString(c.totalQuotas))
  }

  /** The loop of `get_all_collections_from_user`: one summary per stored
      collection, under the same key and in the same order. */
  method SummarizeAll(collections: Dict<string, Collection>) returns (all: Dict<string, CollectionSummary>)
    ensures all == MapValues(collections, Summarize)
  {
    all := [];
    var i := 0;
    while i < |collections|
      invariant 0 <= i <= |collections|
      invariant all == MapValues(collections[..i], Summarize)
    {
      var (key, value) := collections[i];
      MapValuesExtend(collections, Summarize, i);
      all := Put(all, key, Summarize(value));
      i := i + 1;
    }
    assert collections[..i] == collections;
  }

  /** The reply text of `get_all_collections_from_user`: the count and the
      summaries, or the "none registered" text when there are none. */
  function AllCollectionsMessage(collections: Dict<string, Collection>,
                                 repr: Dict<string, CollectionSummary> -> string): (m: string)
    ensures collections == [] <==> m == NoClientsMessage
    ensures collections != [] ==>
              StartsWith(m, "Se encontraron " + NatToString(|collections|) + " cobros: ")
              && m[|"Se encontraron " + NatToString(|collections|) + " cobros: "|..]
                 == repr(MapValues(collections, Summarize))
  {
    var all := MapValues(collections, Summarize);
    if all != [] then
      var head := "Se encontraron " + NatToString(|all|) + " cobros: ";
      var m := head + repr(all);
      assert m[0] == 'S' && NoClientsMessage[0] == 'N';
      assert m[..|head|] == head && m[|head|..] == repr(all);
      m
    else NoClientsMessage
  }

  // ----- create_collection, before the request -----

  /** `'+51'` before a phone that does not already start with it. */
  function PeruPhone(p: string): (r: string)
    ensures StartsWith(r, "+51")
    ensures StartsWith(p, "+51") ==> r == p
    ensures !StartsWith(p, "+51") ==> r == "+51" + p
  {
    if StartsWith(p, "+51") then p
    else
      assert ("+51" + p)[..3] == "+51";
      "+51" + p
  }

  /** Prefixing twice is prefixing once. */
  lemma PeruPhoneIdempotent(p: string)
    ensures PeruPhone(PeruPhone(p)) == PeruPhone(p)
  {
  }

  /** The registration form of a new collection; `create_collection` changes
      two of its fields in place before building the request. */
  class CollectionRegister {
    var name: string
    var clientPhoneNumber: string
    var totalQuotas: int
    var isIndefinite: bool
    var creditorId: string

    constructor(name: string, clientPhoneNumber: string, totalQuotas: int, isIndefinite: bool,
                creditorId: string)
      ensures this.name == name && this.clientPhoneNumber == clientPhoneNumber
      ensures this.totalQuotas == totalQuotas && this.isIndefinite == isIndefinite
      ensures this.creditorId == creditorId
    {
      this.name := name;
      this.clientPhoneNumber := clientPhoneNumber;
      this.totalQuotas := totalQuotas;
      this.isIndefinite := isIndefinite;
      this.creditorId := creditorId;
    }

    /** An indefinite collection gets `-1` quotas; the client's phone gets the
        Peruvian prefix. Nothing else changes. */
    method Preprocess()
      modifies this
      ensures totalQuotas == (if isIndefinite then -1 else old(totalQuotas))
      ensures clientPhoneNumber == PeruPhone(old(clientPhoneNumber))
      ensures name == old(name) && isIndefinite == old(isIndefinite) && creditorId == old(creditorId)
    {
      if isIndefinite {
        totalQuotas := -1;
      }
      if !StartsWith(clientPhoneNumber, "+51") {
        clientPhoneNumber := "+51" + clientPhoneNumber;
      }
    }
  }
}
